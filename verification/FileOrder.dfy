/** What the order of trades inside minutes can and cannot change in the files of a whole run. */
module FileOrder {
  import opened WorkItems
  import opened Statistics
  import opened Candlesticks
  import opened Reordering
  import opened Records

  // ----- Files, minute by minute

  /** The time stamps of a stream's directives. */
  function Times(events: seq<Event>): seq<nat> {
    if events == [] then [] else
      var before := Times(events[..|events| - 1]);
      match events[|events| - 1]
      case Trading(_) => before
      case Minute(t) => before + [t]
  }

  function AverageRows(closed: seq<seq<Deal>>, times: seq<nat>, clears: bool): seq<AverageRecord>
    requires |times| == |closed|
  {
    if closed == [] then [] else
      var n := |closed| - 1;
      AverageRows(closed[..n], times[..n], clears)
      + [AverageRecordOf(AfterMinutes(closed[..n], closed[n], clears), times[n])]
  }

  function CandleRows(closed: seq<seq<Deal>>, times: seq<nat>, clears: bool): seq<CandleRecord>
    requires |times| == |closed|
  {
    if closed == [] then [] else
      var n := |closed| - 1;
      Appended(CandleRows(closed[..n], times[..n], clears),
               CandleRecordOf(AfterMinutes(closed[..n], closed[n], clears), times[n]))
  }

  /** The files of a stream are those of its minutes and time stamps. */
  lemma {:induction false} FilesAreMinutes(events: seq<Event>, clears: bool)
    ensures |Times(events)| == |Split(events).0|
    ensures AverageFile(events, clears) == AverageRows(Split(events).0, Times(events), clears)
    ensures CandleFile(events, clears) == CandleRows(Split(events).0, Times(events), clears)
  {
    if events != [] {
      var before := events[..|events| - 1];
      FilesAreMinutes(before, clears);
      match events[|events| - 1]
      case Trading(_) =>
      case Minute(t) =>
        var (closed, current) := Split(before);
        StreamIsMinutes(before, clears);
        assert (closed + [current])[..|closed|] == closed;
        assert (Times(before) + [t])[..|closed|] == Times(before);
    }
  }

  // ----- Rows that agree

  predicate SameAverage(a: AverageRecord, b: AverageRecord) {
    a.t == b.t && a.volume == b.volume && (a.volume != 0.0 ==> a.average == b.average)
  }

  /** For a minute with trades the high and low agree too. */
  predicate SameCandle(a: CandleRecord, b: CandleRecord, busy: bool) {
    a.t == b.t && a.volume == b.volume && (busy ==> a.high == b.high && a.low == b.low)
  }

  predicate SameAverages(a: seq<AverageRecord>, b: seq<AverageRecord>) {
    |a| == |b| && forall k :: 0 <= k < |a| ==> SameAverage(a[k], b[k])
  }

  predicate SameCandles(a: seq<CandleRecord>, b: seq<CandleRecord>, busy: seq<bool>) {
    |a| == |b| == |busy| && forall k :: 0 <= k < |a| ==> SameCandle(a[k], b[k], busy[k])
  }

  /** For each record due, whether its minute had trades. */
  function Busy(closed: seq<seq<Deal>>): seq<bool> {
    if closed == [] then [] else
      var n := |closed| - 1;
      if closed[n] != [] then Busy(closed[..n]) + [true]
      else if LastPrice(closed[..n]).Some? then Busy(closed[..n]) + [false]
      else Busy(closed[..n])
  }

  predicate AllAbove(closed: seq<seq<Deal>>) {
    forall deals :: deals in closed ==> Above(deals)
  }

  lemma AbovePermuted(a: seq<seq<Deal>>, b: seq<seq<Deal>>)
    requires MinutesPermuted(a, b) && AllAbove(a)
    ensures AllAbove(b)
    ensures (exists j :: 0 <= j < |a| && a[j] != []) <==> (exists j :: 0 <= j < |b| && b[j] != [])
  {
    forall j | 0 <= j < |a|
      ensures (a[j] == [] <==> b[j] == []) && Above(b[j])
    {
      assert a[j] in a;
      MembersPermuted(a[j], b[j]);
    }
  }

  /** What each minute writes is what is due. */
  lemma RecordWritten(closed: seq<seq<Deal>>, current: seq<Deal>, t: nat, clears: bool)
    requires AllAbove(closed) && Above(current)
    ensures CandleRecordOf(AfterMinutes(closed, current, clears), t) == DueRecord(closed, current, t)
  {
    LastPriceAbove(closed);
    assert current != [] ==> current[0] in current;
    RecordIsDue(closed, current, t, clears);
  }

  /** One more minute writes agreeing rows. */
  lemma RowTolerates(
      closed: seq<seq<Deal>>, closed': seq<seq<Deal>>, last: seq<Deal>, last': seq<Deal>, t: nat, clears: bool)
    requires MinutesPermuted(closed, closed') && Permuted(last, last') && AllAbove(closed) && Above(last)
    ensures var x, y := AfterMinutes(closed, last, clears), AfterMinutes(closed', last', clears);
      && SameAverage(AverageRecordOf(x, t), AverageRecordOf(y, t))
      && var c, c' := CandleRecordOf(x, t), CandleRecordOf(y, t);
      && (c.Some? <==> c'.Some?) && (c.Some? <==> last != [] || LastPrice(closed).Some?)
      && (c.Some? ==> SameCandle(c.value, c'.value, last != []))
  {
    RecordsTolerateOrder(closed, closed', last, last', t, clears);
    AbovePermuted(closed, closed');
    MembersPermuted(last, last');
    SumsPermuted(last, last');
    RecordWritten(closed, last, t, clears);
    RecordWritten(closed', last', t, clears);
    DueAfterFirstTrade(closed, last, t);
    DueAfterFirstTrade(closed', last', t);
  }

  lemma AverageAdded(a: seq<AverageRecord>, b: seq<AverageRecord>, x: AverageRecord, y: AverageRecord)
    requires SameAverages(a, b) && SameAverage(x, y)
    ensures SameAverages(a + [x], b + [y])
  {
  }

  lemma CandleAdded(
      a: seq<CandleRecord>, b: seq<CandleRecord>, busy: seq<bool>, x: Option<CandleRecord>, y: Option<CandleRecord>,
      now: bool)
    requires SameCandles(a, b, busy) && (x.Some? <==> y.Some?) && (x.Some? ==> SameCandle(x.value, y.value, now))
    ensures SameCandles(Appended(a, x), Appended(b, y), busy + if x.Some? then [now] else [])
  {
    hide SameCandle;
  }

  /** Files of the same minutes, each with its trades in some order, agree row by row. */
  lemma {:induction false} RowsTolerateOrder(
      closed: seq<seq<Deal>>, closed': seq<seq<Deal>>, times: seq<nat>, clears: bool)
    requires MinutesPermuted(closed, closed') && AllAbove(closed) && |times| == |closed|
    ensures SameAverages(AverageRows(closed, times, clears), AverageRows(closed', times, clears))
    ensures SameCandles(CandleRows(closed, times, clears), CandleRows(closed', times, clears), Busy(closed))
    decreases |closed|
  {
    if closed != [] {
      var n := |closed| - 1;
      hide SameAverage, SameCandle, SameAverages, SameCandles, CandleRecordOf, AverageRecordOf, AfterMinutes;
      hide Permuted, LastPrice;
      var (before, before', was) := (closed[..n], closed'[..n], times[..n]);
      assert closed[n] in closed && AllAbove(before);
      RowsTolerateOrder(before, before', was, clears);
      RowTolerates(before, before', closed[n], closed'[n], times[n], clears);
      var x, y := AfterMinutes(before, closed[n], clears), AfterMinutes(before', closed'[n], clears);
      AverageAdded(AverageRows(before, was, clears), AverageRows(before', was, clears),
                   AverageRecordOf(x, times[n]), AverageRecordOf(y, times[n]));
      CandleAdded(CandleRows(before, was, clears), CandleRows(before', was, clears), Busy(before),
                  CandleRecordOf(x, times[n]), CandleRecordOf(y, times[n]), closed[n] != []);
    } else {
      assert closed' == [];
    }
  }

  /** For two streams whose minutes hold the same trades and end at the same times, prices above the mark: the
      moving-average files agree but for averages over windows without volume, the candlestick files in time and volume
      everywhere and in high and low for every minute with trades. */
  lemma FilesTolerateOrder(a: seq<Event>, b: seq<Event>, clears: bool)
    requires MinutesPermuted(Split(a).0, Split(b).0) && Times(a) == Times(b) && AboveMark(a)
    ensures SameAverages(AverageFile(a, clears), AverageFile(b, clears))
    ensures SameCandles(CandleFile(a, clears), CandleFile(b, clears), Busy(Split(a).0))
  {
    SplitKeepsPrices(a);
    FilesAreMinutes(a, clears);
    FilesAreMinutes(b, clears);
    RowsTolerateOrder(Split(a).0, Split(b).0, Times(a), clears);
  }
}
