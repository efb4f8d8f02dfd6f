/** The Calculator's buffers as the program updates them in place. */
module TradeProcessing {
  import opened WorkItems
  import opened Statistics
  import opened Candlesticks
  import opened Reordering

  /** One symbol's candlestick and moving-average information. */
  class CalculatorBuffer {
    var max: real
    var min: real
    var open: real
    var close: real
    var volume: real
    var weightedPrice: real
    var total15minVolume: real
    const minuteVolumes: array<real>
    var total15minWeightedPrice: real
    const weightedPrices: array<real>
    var oldestIndex: nat

    ghost predicate Valid()
      reads this
    {
      && minuteVolumes.Length == 15 && weightedPrices.Length == 15 && minuteVolumes != weightedPrices
      && oldestIndex < 15
    }

    ghost function Repr(): set<object> {
      {this, minuteVolumes, weightedPrices}
    }

    ghost function Candle(): Candlestick
      reads this
    {
      Candlestick(max, min, open, close, volume, weightedPrice)
    }

    ghost function Model(): Buffer
      reads Repr()
    {
      Buffer(Candle(), MovingAverage(Ring(total15minVolume, minuteVolumes[..]),
                                     Ring(total15minWeightedPrice, weightedPrices[..]), oldestIndex))
    }

    /** The documented initial state: zero everywhere, and an empty candlestick. */
    constructor ()
      ensures Valid() && fresh(Repr()) && Model() == Start()
      ensures Candle() == Candlestick(0.0, 0.0, -1.0, -1.0, 0.0, 0.0) && oldestIndex == 0
      ensures total15minVolume == total15minWeightedPrice == 0.0
      ensures forall j :: 0 <= j < 15 ==> minuteVolumes[j] == weightedPrices[j] == 0.0
    {
      max, min, volume, weightedPrice := 0.0, 0.0, 0.0, 0.0;
      open, close := CANDLESTICK_IS_EMPTY, CANDLESTICK_IS_EMPTY;
      total15minVolume, total15minWeightedPrice := 0.0, 0.0;
      minuteVolumes := new real[15](i => 0.0);
      weightedPrices := new real[15](i => 0.0);
      oldestIndex := 0;
    }

    /** add_trade_to_buffers for this symbol. */
    method AddTrade(trade: Trade)
      requires Valid()
      modifies this
      ensures Valid() && oldestIndex == old(oldestIndex)
      ensures Model() == old(Model()).(candle := AddDeal(old(Candle()), Deal(trade.p, trade.v)))
    {
      if open > CANDLESTICK_IS_EMPTY {
        if trade.p > max {
          max := trade.p;
        } else if trade.p < min {
          min := trade.p;
        }
        close := trade.p;
      } else {
        open, close := trade.p, trade.p;
        max, min := trade.p, trade.p;
      }
      volume := volume + trade.v;
      if trade.v == 0.0 {
        weightedPrice := weightedPrice + trade.p;
      } else {
        weightedPrice := weightedPrice + trade.v * trade.p;
      }
    }

    /** The body of write_and_reset_buffers for this symbol; the records are what it writes to the two files. */
    method WriteAndReset(timestamp: nat) returns (average: AverageRecord, candle: Option<CandleRecord>)
      requires Valid()
      modifies Repr()
      ensures Valid() && old(Model()).avg.Valid()
      ensures Model() == Close(old(Model()), false)
      ensures average == AverageRecordOf(old(Model()), timestamp)
      ensures candle == CandleRecordOf(old(Model()), timestamp)
      ensures Candle() == old(Candle()).(open := -1.0, volume := 0.0)
    {
      total15minVolume := total15minVolume - minuteVolumes[oldestIndex] + volume;
      minuteVolumes[oldestIndex] := volume;
      total15minWeightedPrice := total15minWeightedPrice - weightedPrices[oldestIndex] + weightedPrice;
      weightedPrices[oldestIndex] := weightedPrice;
      oldestIndex := (oldestIndex + 1) % 15;
      var movingAverage := close;
      if total15minVolume != 0.0 {
        movingAverage := total15minWeightedPrice / total15minVolume;
      }
      average := AverageRecord(timestamp, movingAverage, total15minVolume);
      candle := None;
      if open > CANDLESTICK_IS_EMPTY {
        candle := Some(CandleRecord(timestamp, open, max, min, close, volume));
      } else if close > CANDLESTICK_IS_EMPTY {
        candle := Some(CandleRecord(timestamp, close, close, close, close, volume));
      }
      open := CANDLESTICK_IS_EMPTY;
      volume := 0.0;
      assert minuteVolumes[..] == old(minuteVolumes[..])[old(oldestIndex) := old(volume)];
      assert weightedPrices[..] == old(weightedPrices[..])[old(oldestIndex) := old(weightedPrice)];
    }
  }

  /** All symbols' buffers with the two files of each. */
  class Calculator {
    const buffers: seq<CalculatorBuffer>
    var candleFiles: seq<seq<CandleRecord>>
    var averageFiles: seq<seq<AverageRecord>>
    ghost var items: seq<WorkItem>

    /** The buffers are the elements of one array, so they share no memory. */
    ghost predicate Separate() {
      && (forall i :: 0 <= i < |buffers| ==> this !in buffers[i].Repr())
      && (forall i, j :: 0 <= i < j < |buffers| ==> buffers[i].Repr() !! buffers[j].Repr())
    }

    ghost function Footprint(): set<object> {
      set b, o | b in buffers && o in b.Repr() :: o
    }

    ghost predicate Sound()
      reads this, Footprint()
    {
      && Separate()
      && |candleFiles| == |buffers| && |averageFiles| == |buffers|
      && forall i :: 0 <= i < |buffers| ==> buffers[i].Valid()
    }

    /** Buffers and files of every symbol are what its own trades and the directives make of them. */
    ghost predicate Valid()
      reads this, Footprint()
    {
      && Sound()
      && forall i :: 0 <= i < |buffers| ==>
           && buffers[i].Model() == After(Project(items, i), false)
           && candleFiles[i] == CandleFile(Project(items, i), false)
           && averageFiles[i] == AverageFile(Project(items, i), false)
    }

    /** init_calculator_buffers, and one pair of files for each symbol. */
    constructor (symbolCount: nat)
      ensures Valid() && fresh(this) && fresh(Footprint()) && |buffers| == symbolCount && items == []
    {
      var made := MakeBuffers(symbolCount);
      buffers := made;
      candleFiles := seq(symbolCount, i => []);
      averageFiles := seq(symbolCount, i => []);
      items := [];
    }

    /** add_trade_to_buffers. */
    method AddTrade(item: WorkItem)
      requires Valid() && item.trade.v > -1.0 && item.trade.s < |buffers|
      modifies this`items, buffers[item.trade.s]
      ensures Valid() && items == old(items) + [item]
    {
      hide After, CandleFile, AverageFile, Project, AddDeal;
      var s := item.trade.s;
      assert forall i :: 0 <= i < |buffers| ==> buffers[i] in buffers;
      buffers[s].AddTrade(item.trade);
      items := items + [item];
      assert items[..|items| - 1] == old(items);
      forall i | 0 <= i < |buffers|
        ensures buffers[i].Valid()
        ensures buffers[i].Model() == After(Project(items, i), false)
        ensures candleFiles[i] == CandleFile(Project(items, i), false)
        ensures averageFiles[i] == AverageFile(Project(items, i), false)
      {
        ProjectTrade(old(items), item, i, false);
        if i != s {
          assert buffers[i].Repr() !! buffers[s].Repr();
        }
      }
    }

    /** write_and_reset_buffers: the loop over the symbols. */
    method WriteAndResetBuffers(item: WorkItem)
      requires Valid() && item.trade.v <= -1.0
      modifies this, Footprint()
      ensures Valid() && items == old(items) + [item]
    {
      var i := 0;
      ghost var before := items;
      while i < |buffers|
        invariant 0 <= i <= |buffers|
        invariant Sound() && items == before
        invariant forall j :: i <= j < |buffers| ==>
          && buffers[j].Model() == After(Project(before, j), false)
          && candleFiles[j] == CandleFile(Project(before, j), false)
          && averageFiles[j] == AverageFile(Project(before, j), false)
        invariant forall j :: 0 <= j < i ==>
          && buffers[j].Model() == After(Project(before + [item], j), false)
          && candleFiles[j] == CandleFile(Project(before + [item], j), false)
          && averageFiles[j] == AverageFile(Project(before + [item], j), false)
      {
        WriteOne(i, item);
        i := i + 1;
      }
      items := items + [item];
    }

    /** One turn of that loop. */
    method WriteOne(i: nat, item: WorkItem)
      requires Sound() && i < |buffers| && item.trade.v <= -1.0
      requires buffers[i].Model() == After(Project(items, i), false)
      requires candleFiles[i] == CandleFile(Project(items, i), false)
      requires averageFiles[i] == AverageFile(Project(items, i), false)
      modifies this`candleFiles, this`averageFiles, buffers[i].Repr()
      ensures Sound()
      ensures buffers[i].Model() == After(Project(items + [item], i), false)
      ensures candleFiles[i] == CandleFile(Project(items + [item], i), false)
      ensures averageFiles[i] == AverageFile(Project(items + [item], i), false)
      ensures forall j :: 0 <= j < |buffers| && j != i ==>
        && buffers[j].Model() == old(buffers[j].Model())
        && candleFiles[j] == old(candleFiles[j]) && averageFiles[j] == old(averageFiles[j])
    {
      hide After, CandleFile, AverageFile, Project, Close, AverageRecordOf, CandleRecordOf;
      assert forall j :: 0 <= j < |buffers| ==> buffers[j] in buffers;
      ProjectDirective(items, item, i, false);
      var average, candle := buffers[i].WriteAndReset(item.trade.t);
      averageFiles := averageFiles[i := averageFiles[i] + [average]];
      if candle.Some? {
        candleFiles := candleFiles[i := candleFiles[i] + [candle.value]];
      }
    }

    /** One turn of the Calculator's loop: a trade or a directive. */
    method Process(item: WorkItem)
      requires Valid() && (item.trade.v > -1.0 ==> item.trade.s < |buffers|)
      modifies this, Footprint()
      ensures Valid() && items == old(items) + [item]
    {
      if IsTrade(item) {
        assert buffers[item.trade.s] in buffers;
        AddTrade(item);
      } else {
        WriteAndResetBuffers(item);
      }
    }
  }

  method MakeBuffers(symbolCount: nat) returns (buffers: seq<CalculatorBuffer>)
    ensures |buffers| == symbolCount
    ensures forall i :: 0 <= i < |buffers| ==>
      fresh(buffers[i].Repr()) && buffers[i].Valid() && buffers[i].Model() == Start()
    ensures forall i, j :: 0 <= i < j < |buffers| ==> buffers[i].Repr() !! buffers[j].Repr()
  {
    buffers := [];
    for i := 0 to symbolCount
      invariant |buffers| == i
      invariant forall j :: 0 <= j < i ==>
        fresh(buffers[j].Repr()) && buffers[j].Valid() && buffers[j].Model() == Start()
      invariant forall j, k :: 0 <= j < k < i ==> buffers[j].Repr() !! buffers[k].Repr()
    {
      var b := new CalculatorBuffer();
      buffers := buffers + [b];
    }
  }
}
