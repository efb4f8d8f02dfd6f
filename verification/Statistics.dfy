/** The Calculator's statistics for one symbol, as values. */
module Statistics {
  import opened WorkItems

  const CANDLESTICK_IS_EMPTY := -1.0

  /** A trade of one symbol: price and volume. */
  datatype Deal = Deal(p: real, v: real)

  datatype Candlestick = Candlestick(max: real, min: real, open: real, close: real, volume: real, weighted: real)

  /** A circular array of 15 minutes with its running total. */
  datatype Ring = Ring(total: real, slots: seq<real>)

  datatype MovingAverage = MovingAverage(volumes: Ring, prices: Ring, oldest: nat) {
    ghost predicate Valid() {
      |volumes.slots| == 15 && |prices.slots| == 15 && oldest < 15
    }
  }

  datatype Buffer = Buffer(candle: Candlestick, avg: MovingAverage)

  datatype AverageRecord = AverageRecord(t: nat, average: real, volume: real)

  datatype CandleRecord = CandleRecord(t: nat, open: real, high: real, low: real, close: real, volume: real)

  function Start(): Buffer {
    var ring := Ring(0.0, seq(15, i => 0.0));
    Buffer(Candlestick(0.0, 0.0, CANDLESTICK_IS_EMPTY, CANDLESTICK_IS_EMPTY, 0.0, 0.0), MovingAverage(ring, ring, 0))
  }

  /** A trade without volume, as in forex, weighs as if its volume were 1. */
  function Weight(d: Deal): real {
    if d.v == 0.0 then d.p else d.v * d.p
  }

  function AddDeal(c: Candlestick, d: Deal): Candlestick {
    var prices :=
      if c.open > CANDLESTICK_IS_EMPTY then
        c.(max := if d.p > c.max then d.p else c.max,
           min := if !(d.p > c.max) && d.p < c.min then d.p else c.min,
           close := d.p)
      else c.(open := d.p, close := d.p, max := d.p, min := d.p);
    prices.(volume := c.volume + d.v, weighted := c.weighted + Weight(d))
  }

  function Push(r: Ring, oldest: nat, x: real): Ring
    requires oldest < |r.slots|
  {
    Ring(r.total - r.slots[oldest] + x, r.slots[oldest := x])
  }

  function Slide(a: MovingAverage, c: Candlestick): MovingAverage
    requires a.Valid()
  {
    MovingAverage(Push(a.volumes, a.oldest, c.volume), Push(a.prices, a.oldest, c.weighted), (a.oldest + 1) % 15)
  }

  /** The reset at the end of a minute. The code keeps the weighted price; `clears` is what its header describes. */
  function Clear(c: Candlestick, clears: bool): Candlestick {
    c.(open := CANDLESTICK_IS_EMPTY, volume := 0.0, weighted := if clears then 0.0 else c.weighted)
  }

  function Close(b: Buffer, clears: bool): (r: Buffer)
    requires b.avg.Valid()
    ensures r.avg.Valid()
  {
    Buffer(Clear(b.candle, clears), Slide(b.avg, b.candle))
  }

  /** What closing the minute writes to the moving-average file. */
  function AverageRecordOf(b: Buffer, t: nat): AverageRecord
    requires b.avg.Valid()
  {
    var a := Slide(b.avg, b.candle);
    var average := if a.volumes.total == 0.0 then b.candle.close else a.prices.total / a.volumes.total;
    AverageRecord(t, average, a.volumes.total)
  }

  /** What closing the minute writes to the candlestick file, if anything. */
  function CandleRecordOf(b: Buffer, t: nat): Option<CandleRecord> {
    var c := b.candle;
    if c.open > CANDLESTICK_IS_EMPTY then Some(CandleRecord(t, c.open, c.max, c.min, c.close, c.volume))
    else if c.close > CANDLESTICK_IS_EMPTY then Some(CandleRecord(t, c.close, c.close, c.close, c.close, c.volume))
    else None
  }

  // ----- Minutes

  function AddDeals(c: Candlestick, deals: seq<Deal>): Candlestick {
    if deals == [] then c else AddDeal(AddDeals(c, deals[..|deals| - 1]), deals[|deals| - 1])
  }

  /** The buffer after the given closed minutes and the deals of the minute under way. */
  function AfterMinutes(closed: seq<seq<Deal>>, current: seq<Deal>, clears: bool): (b: Buffer)
    ensures b.avg.Valid()
    decreases |closed|
  {
    var b := if closed == [] then Start()
             else Close(AfterMinutes(closed[..|closed| - 1], closed[|closed| - 1], clears), clears);
    b.(candle := AddDeals(b.candle, current))
  }

  // ----- Event streams

  datatype Event = Trading(deal: Deal) | Minute(t: nat)

  function After(events: seq<Event>, clears: bool): (b: Buffer)
    ensures b.avg.Valid()
  {
    if events == [] then Start() else
      var b := After(events[..|events| - 1], clears);
      match events[|events| - 1]
      case Trading(d) => b.(candle := AddDeal(b.candle, d))
      case Minute(_) => Close(b, clears)
  }

  /** The closed minutes of a stream, and the minute under way. */
  function Split(events: seq<Event>): (seq<seq<Deal>>, seq<Deal>) {
    if events == [] then ([], []) else
      var (closed, current) := Split(events[..|events| - 1]);
      match events[|events| - 1]
      case Trading(d) => (closed, current + [d])
      case Minute(_) => (closed + [current], [])
  }

  /** A stream leads where its minutes lead. */
  lemma {:induction false} StreamIsMinutes(events: seq<Event>, clears: bool)
    ensures After(events, clears) == AfterMinutes(Split(events).0, Split(events).1, clears)
  {
    if events != [] {
      var n := |events| - 1;
      StreamIsMinutes(events[..n], clears);
      var (closed, current) := Split(events[..n]);
      match events[n]
      case Trading(d) => assert (current + [d])[..|current|] == current;
      case Minute(_) =>
        assert (closed + [current])[..|closed|] == closed;
        var closed := Close(After(events[..n], clears), clears).candle;
        assert AddDeals(closed, []) == closed;
    }
  }
}
