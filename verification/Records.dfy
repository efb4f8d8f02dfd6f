/** All that the Calculator makes, for all symbols: their buffers and the two files it writes for each. */
module Records {
  import opened WorkItems
  import opened Statistics
  import opened Candlesticks
  import opened Reordering

  /** What the Calculator has made so far: every symbol's buffer and the two files it writes. */
  datatype Results = Results(
    buffers: seq<Buffer>, candleFiles: seq<seq<CandleRecord>>, averageFiles: seq<seq<AverageRecord>>)
  {
    ghost predicate Valid() {
      && |candleFiles| == |buffers| && |averageFiles| == |buffers|
      && forall i :: 0 <= i < |buffers| ==> buffers[i].avg.Valid()
    }
  }

  function Fresh(symbols: nat): Results {
    Results(seq(symbols, i => Start()), seq(symbols, i => []), seq(symbols, i => []))
  }

  function Appended<T>(file: seq<T>, record: Option<T>): seq<T> {
    match record
    case None => file
    case Some(r) => file + [r]
  }

  /** One turn of the Calculator: a directive writes every symbol's records before it closes the minute. */
  function Turn(r: Results, item: WorkItem): (after: Results)
    requires r.Valid()
    ensures after.Valid() && |after.buffers| == |r.buffers|
  {
    var buffers := Process(r.buffers, item, false);
    if IsTrade(item) then r.(buffers := buffers) else
      var t := item.trade.t;
      var n := |r.buffers|;
      Results(
        buffers,
        seq(n, i requires 0 <= i < n => Appended(r.candleFiles[i], CandleRecordOf(r.buffers[i], t))),
        seq(n, i requires 0 <= i < n => r.averageFiles[i] + [AverageRecordOf(r.buffers[i], t)]))
  }

  /** Buffers and files are what these items make of them, symbol by symbol. */
  ghost predicate MadeOf(r: Results, items: seq<WorkItem>) {
    && r.Valid()
    && forall i :: 0 <= i < |r.buffers| ==>
         && r.buffers[i] == After(Project(items, i), false)
         && r.candleFiles[i] == CandleFile(Project(items, i), false)
         && r.averageFiles[i] == AverageFile(Project(items, i), false)
  }

  lemma TurnMakes(r: Results, items: seq<WorkItem>, item: WorkItem)
    requires MadeOf(r, items)
    ensures MadeOf(Turn(r, item), items + [item])
  {
    hide After, CandleFile, AverageFile, Project, Close, CandleRecordOf, AverageRecordOf;
    var r' := Turn(r, item);
    forall i | 0 <= i < |r.buffers|
      ensures r'.buffers[i] == After(Project(items + [item], i), false)
      ensures r'.candleFiles[i] == CandleFile(Project(items + [item], i), false)
      ensures r'.averageFiles[i] == AverageFile(Project(items + [item], i), false)
    {
      if IsTrade(item) {
        ProjectTrade(items, item, i, false);
      } else {
        ProjectDirective(items, item, i, false);
      }
    }
  }
}
