/** What the 15-minute totals are after any number of minutes: as written, and as the header describes them. */
module WindowLaws {
  import opened Statistics
  import opened SlidingWindow

  // ----- Per-minute sums

  function Volume(deals: seq<Deal>): real {
    if deals == [] then 0.0 else Volume(deals[..|deals| - 1]) + deals[|deals| - 1].v
  }

  /** The sum of price times volume, where a trade without volume, as in forex, counts as if its volume were 1. */
  function Weights(deals: seq<Deal>): real {
    if deals == [] then 0.0 else
      var d := deals[|deals| - 1];
      Weights(deals[..|deals| - 1]) + if d.v == 0.0 then d.p else d.v * d.p
  }

  /** The volume with that convention. */
  function Units(deals: seq<Deal>): real {
    if deals == [] then 0.0 else
      var d := deals[|deals| - 1];
      Units(deals[..|deals| - 1]) + if d.v == 0.0 then 1.0 else d.v
  }

  /** The volume of each minute. */
  function Volumes(closed: seq<seq<Deal>>): (xs: seq<real>)
    ensures |xs| == |closed|
  {
    if closed == [] then [] else Volumes(closed[..|closed| - 1]) + [Volume(closed[|closed| - 1])]
  }

  /** The weighted price of each minute. */
  function Prices(closed: seq<seq<Deal>>): (xs: seq<real>)
    ensures |xs| == |closed|
  {
    if closed == [] then [] else Prices(closed[..|closed| - 1]) + [Weights(closed[|closed| - 1])]
  }

  function UnitSums(closed: seq<seq<Deal>>): (xs: seq<real>)
    ensures |xs| == |closed|
  {
    if closed == [] then [] else UnitSums(closed[..|closed| - 1]) + [Units(closed[|closed| - 1])]
  }

  /** Running sums. */
  function Cumulative(xs: seq<real>): (ys: seq<real>)
    ensures |ys| == |xs|
  {
    if xs == [] then [] else Cumulative(xs[..|xs| - 1]) + [RangeSum(xs, 0, |xs|)]
  }

  /** What is pushed into the ring of weighted prices at the end of each minute. */
  function Pushed(closed: seq<seq<Deal>>, clears: bool): (xs: seq<real>)
    ensures |xs| == |closed|
  {
    if clears then Prices(closed) else Cumulative(Prices(closed))
  }

  lemma SplitLast<T>(closed: seq<T>, last: T)
    ensures (closed + [last])[..|closed|] == closed
  {
  }

  lemma {:induction false} DealsAddUp(c: Candlestick, deals: seq<Deal>)
    ensures AddDeals(c, deals).volume == c.volume + Volume(deals)
    ensures AddDeals(c, deals).weighted == c.weighted + Weights(deals)
  {
    if deals != [] {
      DealsAddUp(c, deals[..|deals| - 1]);
    }
  }

  /** The state at the start of a minute: both rings hold the last 15 minutes. */
  ghost predicate WindowHolds(b: Buffer, closed: seq<seq<Deal>>, clears: bool) {
    && b.candle.volume == 0.0
    && b.candle.weighted == (if clears then 0.0 else RangeSum(Prices(closed), 0, |closed|))
    && Holds(b.avg.volumes, b.avg.oldest, Volumes(closed))
    && Holds(b.avg.prices, b.avg.oldest, Pushed(closed, clears))
  }

  /** What one more minute appends to each series. */
  lemma SeriesGrow(closed: seq<seq<Deal>>, current: seq<Deal>)
    ensures var all := closed + [current];
      && Volumes(all) == Volumes(closed) + [Volume(current)]
      && Prices(all) == Prices(closed) + [Weights(current)]
      && RangeSum(Prices(all), 0, |all|) == RangeSum(Prices(closed), 0, |closed|) + Weights(current)
      && Cumulative(Prices(all)) == Cumulative(Prices(closed)) + [RangeSum(Prices(all), 0, |all|)]
  {
    var all, ps := closed + [current], Prices(closed);
    SplitLast(closed, current);
    assert Prices(all) == ps + [Weights(current)];
    SplitLast(ps, Weights(current));
    SumPrefix(ps, Prices(all), 0, |ps|);
  }

  lemma CloseKeepsWindow(b: Buffer, closed: seq<seq<Deal>>, current: seq<Deal>, clears: bool)
    requires b.avg.Valid() && WindowHolds(b, closed, clears)
    ensures WindowHolds(Close(b.(candle := AddDeals(b.candle, current)), clears), closed + [current], clears)
  {
    hide Holds, Cumulative, Prices, Volumes, RangeSum, AddDeals;
    SeriesGrow(closed, current);
    DealsAddUp(b.candle, current);
    PushKeeps(b.avg.volumes, b.avg.oldest, Volumes(closed), Volume(current));
    PushKeeps(b.avg.prices, b.avg.oldest, Pushed(closed, clears), AddDeals(b.candle, current).weighted);
  }

  lemma {:induction false} WindowAlwaysHolds(closed: seq<seq<Deal>>, clears: bool)
    ensures WindowHolds(AfterMinutes(closed, [], clears), closed, clears)
  {
    if closed == [] {
      EmptyHolds();
    } else {
      var n := |closed| - 1;
      WindowAlwaysHolds(closed[..n], clears);
      CloseKeepsWindow(AfterMinutes(closed[..n], [], clears), closed[..n], closed[n], clears);
      assert closed == closed[..n] + [closed[n]];
    }
  }

  /** For every stream of minutes the total volume is the sum of the circular array and the volume of the last
      15 closed minutes (all of them before that). */
  lemma SlidingVolume(closed: seq<seq<Deal>>, current: seq<Deal>, clears: bool)
    ensures var a := AfterMinutes(closed, current, clears).avg;
      && a.oldest == |closed| % 15
      && a.volumes.total == Sum(a.volumes.slots)
      && a.volumes.total == RangeSum(Volumes(closed), |closed| - 15, |closed|)
  {
    WindowAlwaysHolds(closed, clears);
    KeepsAverage(closed, current, clears);
  }

  lemma KeepsAverage(closed: seq<seq<Deal>>, current: seq<Deal>, clears: bool)
    ensures AfterMinutes(closed, current, clears).avg == AfterMinutes(closed, [], clears).avg
  {
  }

  // ----- The exact law of the weighted total as written

  /** In how many of the last 15 pushed sums a minute of the given age is counted. */
  function Times(age: int): real {
    if age < 15 then age as real else 15.0
  }

  /** The weighted prices of the first n minutes, each as often as it is counted after `now` minutes. */
  function Law(ws: seq<real>, n: nat, now: int): real
    requires n <= |ws|
  {
    if n == 0 then 0.0 else Law(ws, n - 1, now) + ws[n - 1] * Times(now - (n - 1))
  }

  lemma {:induction false} LawAges(ws: seq<real>, n: nat, now: int)
    requires n <= |ws| && n <= now
    ensures Law(ws, n, now + 1) == Law(ws, n, now) + RangeSum(ws, now - 14, n)
  {
    if n > 0 {
      var j := n - 1;
      var times := Times(now - j);
      LawAges(ws, j, now);
      assert Times(now + 1 - j) == times + if j >= now - 14 then 1.0 else 0.0;
      Distribute(ws[j], times, 1.0);
      assert Law(ws, n, now + 1) == Law(ws, j, now + 1) + ws[j] * Times(now + 1 - j);
      assert Law(ws, n, now) == Law(ws, j, now) + ws[j] * times;
    } else {
      NothingBelow(ws, now - 14, 0);
    }
  }

  lemma {:induction false} LawPrefix(ws: seq<real>, xs: seq<real>, n: nat, now: int)
    requires n <= |ws| && ws <= xs
    ensures Law(ws, n, now) == Law(xs, n, now)
  {
    if n > 0 {
      LawPrefix(ws, xs, n - 1, now);
    }
  }

  lemma {:induction false} CumulativeAt(xs: seq<real>, j: nat)
    requires j < |xs|
    ensures Cumulative(xs)[j] == RangeSum(xs, 0, j + 1)
  {
    var n := |xs| - 1;
    if j < n {
      CumulativeAt(xs[..n], j);
      SumPrefix(xs[..n], xs, 0, j + 1);
    }
  }

  lemma {:induction false} SumSplits(xs: seq<real>, lo: int, mid: int, hi: int)
    requires lo <= mid <= hi
    ensures RangeSum(xs, lo, hi) == RangeSum(xs, lo, mid) + RangeSum(xs, mid, hi)
    decreases hi - mid
  {
    if mid < hi {
      SumSplits(xs, lo, mid, hi - 1);
    }
  }

  /** Below 0 there is nothing to add. */
  lemma {:induction false} NothingBelow(xs: seq<real>, lo: int, hi: int)
    requires hi <= 0
    ensures RangeSum(xs, lo, hi) == 0.0
    decreases hi - lo
  {
    if lo < hi {
      NothingBelow(xs, lo, hi - 1);
    }
  }

  /** The sum from 0 less the sum below an older point is the sum from that point. */
  lemma RecentSum(xs: seq<real>, from: int, n: nat)
    requires from <= n <= |xs|
    ensures RangeSum(xs, 0, n) - (if from > 0 then RangeSum(xs, 0, from) else 0.0) == RangeSum(xs, from, n)
  {
    if from > 0 {
      SumSplits(xs, 0, from, n);
    } else {
      SumSplits(xs, from, 0, n);
      NothingBelow(xs, from, 0);
    }
  }

  lemma CumulativePrefix(ws: seq<real>)
    requires ws != []
    ensures var n := |ws| - 1;
      Cumulative(ws[..n]) <= Cumulative(ws) && At(Cumulative(ws), n) == RangeSum(ws, 0, n + 1)
  {
  }

  /** What the ring drops is the running sum below the window. */
  lemma Dropped(ws: seq<real>)
    requires ws != []
    ensures var n := |ws| - 1;
      At(Cumulative(ws), n - 15) == if n - 14 > 0 then RangeSum(ws, 0, n - 14) else 0.0
  {
    hide RangeSum, Cumulative;
    var n := |ws| - 1;
    if n >= 15 {
      CumulativeAt(ws, n - 15);
      assert n - 15 + 1 == n - 14;
    }
  }

  /** One more minute changes the window's sum of running sums by the weighted prices of the last 15 minutes. */
  lemma CumulativeStep(ws: seq<real>)
    requires ws != []
    ensures var n := |ws| - 1; var cs, ds := Cumulative(ws[..n]), Cumulative(ws);
      RangeSum(ds, n - 14, n + 1) == RangeSum(cs, n - 15, n) + RangeSum(ws, n - 14, n + 1)
  {
    hide RangeSum, Cumulative, At;
    var n := |ws| - 1;
    CumulativePrefix(ws);
    Dropped(ws);
    SumPrefix(Cumulative(ws[..n]), Cumulative(ws), n - 15, n);
    ShiftSum(Cumulative(ws), n - 15, n);
    RecentSum(ws, n - 14, n + 1);
    assert n - 15 + 1 == n - 14;
  }

  lemma {:induction false} WindowOfCumulative(ws: seq<real>)
    ensures RangeSum(Cumulative(ws), |ws| - 15, |ws|) == Law(ws, |ws|, |ws|)
  {
    if ws == [] {
      ZeroRange(-15, 0);
    } else {
      var n := |ws| - 1;
      WindowOfCumulative(ws[..n]);
      assert Law(ws, n + 1, n + 1) == Law(ws, n, n + 1) + ws[n] * Times(1);
      assert RangeSum(ws, n - 14, n + 1) == RangeSum(ws, n - 14, n) + ws[n];
      hide RangeSum, Cumulative, Law;
      CumulativeStep(ws);
      LawAges(ws, n, n);
      LawPrefix(ws[..n], ws, n, n);
    }
  }

  /** As written, after T minutes minute j counts min(15, T - j) times in the weighted total. */
  lemma ExactLaw(closed: seq<seq<Deal>>, current: seq<Deal>)
    ensures AfterMinutes(closed, current, false).avg.prices.total == Law(Prices(closed), |closed|, |closed|)
  {
    WindowAlwaysHolds(closed, false);
    KeepsAverage(closed, current, false);
    WindowOfCumulative(Prices(closed));
  }

  // ----- The moving average as written against the window's own average

  /** How often a minute counts beyond the once, or never, that the window alone would count it. */
  function Excess(ws: seq<real>, n: nat, now: int): real
    requires n <= |ws|
  {
    if n == 0 then 0.0
    else Excess(ws, n - 1, now) + ws[n - 1] * (Times(now - (n - 1)) - if n - 1 >= now - 15 then 1.0 else 0.0)
  }

  lemma {:induction false} LawIsWindowPlusExcess(ws: seq<real>, n: nat, now: int)
    requires n <= |ws| && n <= now
    ensures Law(ws, n, now) == RangeSum(ws, now - 15, n) + Excess(ws, n, now)
  {
    if n == 0 {
      NothingBelow(ws, now - 15, 0);
    } else {
      LawIsWindowPlusExcess(ws, n - 1, now);
      var j := n - 1;
      if j >= now - 15 {
        assert ws[j] * Times(now - j) == ws[j] + ws[j] * (Times(now - j) - 1.0);
      }
    }
  }

  lemma ScaledSign(w: real, k: real)
    requires w >= 0.0 && k >= 1.0
    ensures w * k >= 0.0 && (w * k == 0.0 <==> w == 0.0)
  {
  }

  lemma {:induction false} ExcessSign(ws: seq<real>, n: nat, now: int)
    requires n <= |ws| && n <= now
    requires forall j :: 0 <= j < |ws| ==> ws[j] >= 0.0
    ensures Excess(ws, n, now) >= 0.0
    ensures Excess(ws, n, now) == 0.0 <==> forall j :: 0 <= j < n && j < now - 1 ==> ws[j] == 0.0
  {
    if n > 0 {
      ExcessSign(ws, n - 1, now);
      var j := n - 1;
      var k := Times(now - j) - if j >= now - 15 then 1.0 else 0.0;
      if j < now - 1 {
        ScaledSign(ws[j], k);
      } else {
        assert k == 0.0;
      }
    }
  }

  predicate NonNegative(deals: seq<Deal>) {
    forall d :: d in deals ==> d.p >= 0.0 && d.v >= 0.0
  }

  lemma {:induction false} WeightsSign(deals: seq<Deal>)
    requires NonNegative(deals)
    ensures Weights(deals) >= 0.0 && Volume(deals) >= 0.0
  {
    if deals != [] {
      WeightsSign(deals[..|deals| - 1]);
      assert deals[|deals| - 1] in deals;
    }
  }

  lemma {:induction false} SeriesAt(closed: seq<seq<Deal>>, j: nat)
    requires j < |closed|
    ensures Prices(closed)[j] == Weights(closed[j]) && Volumes(closed)[j] == Volume(closed[j])
    ensures UnitSums(closed)[j] == Units(closed[j])
  {
    var n := |closed| - 1;
    if j < n {
      SeriesAt(closed[..n], j);
    }
  }

  lemma {:induction false} SumSign(xs: seq<real>, lo: int, hi: int)
    requires forall j :: 0 <= j < |xs| ==> xs[j] >= 0.0
    ensures RangeSum(xs, lo, hi) >= 0.0
    decreases hi - lo
  {
    if lo < hi {
      SumSign(xs, lo, hi - 1);
    }
  }

  lemma DivideOrder(a: real, b: real, v: real)
    requires v > 0.0 && a >= b
    ensures a / v >= b / v && (a / v == b / v <==> a == b)
  {
    assert a / v - b / v == (a - b) / v;
  }

  /** The record that closing the minute `current` writes. */
  lemma RecordOfTotals(closed: seq<seq<Deal>>, current: seq<Deal>, t: nat, clears: bool)
    ensures var all := closed + [current];
      var volume := RangeSum(Volumes(all), |all| - 15, |all|);
      AverageRecordOf(AfterMinutes(closed, current, clears), t) == AverageRecord(t,
        if volume == 0.0 then AfterMinutes(closed, current, clears).candle.close
        else RangeSum(Pushed(all, clears), |all| - 15, |all|) / volume,
        volume)
  {
    var all := closed + [current];
    SplitLast(closed, current);
    WindowAlwaysHolds(all, clears);
  }

  /** For non-negative trades with volume in the window, the average written is at least the window's weighted price
      over its volume, with equality exactly when no minute before the one being closed had any weighted price. */
  lemma AverageIsBiased(closed: seq<seq<Deal>>, current: seq<Deal>, t: nat)
    requires forall deals :: deals in closed + [current] ==> NonNegative(deals)
    requires var all := closed + [current]; RangeSum(Volumes(all), |all| - 15, |all|) != 0.0
    ensures var all := closed + [current];
      var windows := RangeSum(Prices(all), |all| - 15, |all|) / RangeSum(Volumes(all), |all| - 15, |all|);
      var written := AverageRecordOf(AfterMinutes(closed, current, false), t).average;
      && written >= windows
      && (written == windows <==>
            forall j :: 0 <= j < |closed| ==> Weights(closed[j]) == 0.0)
  {
    var all := closed + [current];
    var now := |all|;
    var ws, vs := Prices(all), Volumes(all);
    forall j | 0 <= j < now
      ensures ws[j] == Weights(all[j]) && ws[j] >= 0.0 && vs[j] >= 0.0
    {
      SeriesAt(all, j);
      WeightsSign(all[j]);
    }
    SumSign(vs, now - 15, now);
    RecordOfTotals(closed, current, t, false);
    WindowOfCumulative(ws);
    LawIsWindowPlusExcess(ws, now, now);
    ExcessSign(ws, now, now);
    DivideOrder(Law(ws, now, now), RangeSum(ws, now - 15, now), RangeSum(vs, now - 15, now));
    forall j | 0 <= j < |closed|
      ensures all[j] == closed[j]
    {
    }
  }

  /** The window of the second of two equal minutes. */
  lemma TwoMinutes(minute: seq<Deal>)
    ensures RangeSum(Prices([minute, minute]), -13, 2) == 2.0 * Weights(minute)
    ensures RangeSum(Volumes([minute, minute]), -13, 2) == 2.0 * Volume(minute)
  {
    var all := [minute, minute];
    SeriesAt(all, 0);
    SeriesAt(all, 1);
    RecentSum(Prices(all), -13, 2);
    RecentSum(Volumes(all), -13, 2);
    assert forall xs: seq<real> :: RangeSum(xs, 0, 2) == RangeSum(xs, 0, 1) + At(xs, 1);
  }

  /** Two minutes with the same trade, price 10 and volume 1: the average written is 15. */
  lemma AverageTooHigh(t: nat)
    ensures var minute := [Deal(10.0, 1.0)];
      && AverageRecordOf(AfterMinutes([minute], minute, false), t) == AverageRecord(t, 15.0, 2.0)
      && AverageRecordOf(AfterMinutes([minute], minute, true), t) == AverageRecord(t, 10.0, 2.0)
      && RangeSum(Prices([minute, minute]), -13, 2) == 20.0 && RangeSum(Volumes([minute, minute]), -13, 2) == 2.0
  {
    var d := Deal(10.0, 1.0);
    TwoMinutes([d]);
    assert Weights([d]) == 10.0 && Volume([d]) == 1.0 by {
      assert [d][..0] == [];
    }
    var minute := [d];
    forall clears: bool
      ensures AverageRecordOf(AfterMinutes([minute], minute, clears), t)
           == AverageRecord(t, if clears then 10.0 else 15.0, 2.0)
    {
      var closed := [minute];
      assert minute[..0] == [] && closed[..0] == [];
      var c0 := Start().candle;
      assert AddDeals(c0, minute) == AddDeal(c0, d) by {
        assert AddDeals(c0, []) == c0;
      }
      var b1 := Start().(candle := AddDeal(c0, d));
      assert AfterMinutes([], minute, clears) == b1;
      var b2 := Close(b1, clears);
      assert AddDeals(b2.candle, minute) == AddDeal(b2.candle, d) by {
        assert AddDeals(b2.candle, []) == b2.candle;
      }
    }
  }

  // ----- The header's description: the weighted price cleared each minute

  /** Prices between lo and hi, volumes not negative. */
  predicate Priced(deals: seq<Deal>, lo: real, hi: real) {
    forall d :: d in deals ==> lo <= d.p <= hi && d.v >= 0.0
  }

  /** A weighted sum w of total weight v has its mean between lo and hi. */
  predicate MeanBetween(lo: real, hi: real, w: real, v: real) {
    lo * v <= w <= hi * v
  }

  lemma {:induction false} WeightsBounded(deals: seq<Deal>, lo: real, hi: real)
    requires Priced(deals, lo, hi)
    ensures MeanBetween(lo, hi, Weights(deals), Units(deals))
  {
    if deals != [] {
      var d := deals[|deals| - 1];
      var rest := deals[..|deals| - 1];
      assert d in deals;
      var unit := if d.v == 0.0 then 1.0 else d.v;
      var weight := if d.v == 0.0 then d.p else d.v * d.p;
      assert Units(deals) == Units(rest) + unit && Weights(deals) == Weights(rest) + weight;
      hide MeanBetween, Units, Weights;
      WeightsBounded(rest, lo, hi);
      DealBounded(d, lo, hi);
      AddBounds(lo, hi, Units(rest), Weights(rest), unit, weight);
    } else {
      assert MeanBetween(lo, hi, 0.0, 0.0);
    }
  }

  lemma {:induction false} UnitsExceedVolume(deals: seq<Deal>)
    requires forall d :: d in deals ==> d.v >= 0.0
    ensures 0.0 <= Volume(deals) <= Units(deals)
  {
    if deals != [] {
      assert deals[|deals| - 1] in deals;
      UnitsExceedVolume(deals[..|deals| - 1]);
    }
  }

  lemma DealBounded(d: Deal, lo: real, hi: real)
    requires lo <= d.p <= hi && d.v >= 0.0
    ensures d.v == 0.0 ==> MeanBetween(lo, hi, d.p, 1.0)
    ensures d.v != 0.0 ==> MeanBetween(lo, hi, d.v * d.p, d.v)
  {
  }

  lemma {:induction false} WindowBounded(all: seq<seq<Deal>>, first: int, end: int, lo: real, hi: real)
    requires end <= |all|
    requires forall j :: 0 <= j < |all| && first <= j < end ==> Priced(all[j], lo, hi)
    ensures MeanBetween(lo, hi, RangeSum(Prices(all), first, end), RangeSum(UnitSums(all), first, end))
    ensures 0.0 <= RangeSum(Volumes(all), first, end) <= RangeSum(UnitSums(all), first, end)
    decreases end - first
  {
    assert MeanBetween(lo, hi, 0.0, 0.0);
    if first < end {
      hide MeanBetween;
      var j := end - 1;
      WindowBounded(all, first, j, lo, hi);
      if j >= 0 {
        SeriesAt(all, j);
        WeightsBounded(all[j], lo, hi);
        UnitsExceedVolume(all[j]);
        AddBounds(lo, hi, RangeSum(UnitSums(all), first, j), RangeSum(Prices(all), first, j),
                  Units(all[j]), Weights(all[j]));
      }
    }
  }

  lemma AddBounds(lo: real, hi: real, v: real, w: real, v': real, w': real)
    requires MeanBetween(lo, hi, w, v) && MeanBetween(lo, hi, w', v')
    ensures MeanBetween(lo, hi, w + w', v + v')
  {
    Distribute(lo, v, v');
    Distribute(hi, v, v');
  }

  lemma Distribute(k: real, a: real, b: real)
    ensures k * (a + b) == k * a + k * b
  {
  }

  lemma QuotientBounded(lo: real, hi: real, w: real, v: real)
    requires v > 0.0 && MeanBetween(lo, hi, w, v)
    ensures lo <= w / v <= hi
  {
    assert w / v * v == w;
  }

  /** With the weighted price cleared each minute, the weighted total is that of the last 15 minutes. */
  lemma IntendedTotal(closed: seq<seq<Deal>>, current: seq<Deal>)
    ensures AfterMinutes(closed, current, true).avg.prices.total == RangeSum(Prices(closed), |closed| - 15, |closed|)
  {
    WindowAlwaysHolds(closed, true);
    KeepsAverage(closed, current, true);
  }

  /** The volume of the last 15 minutes, counting each trade without volume as 1. */
  function WindowUnits(all: seq<seq<Deal>>): real {
    RangeSum(UnitSums(all), |all| - 15, |all|)
  }

  function Regained(r: AverageRecord): real {
    r.average * r.volume
  }

  /** With the weighted price cleared each minute, prices between lo and hi and volume in the window: the average
      written, times the volume written, lies between lo and hi times the volume that counts each trade without volume as 1. */
  lemma ForexAverage(closed: seq<seq<Deal>>, current: seq<Deal>, t: nat, lo: real, hi: real)
    requires var all := closed + [current];
      && (forall j :: 0 <= j < |all| && |all| - 15 <= j ==> Priced(all[j], lo, hi))
      && RangeSum(Volumes(all), |all| - 15, |all|) != 0.0
    ensures var written := AverageRecordOf(AfterMinutes(closed, current, true), t);
      MeanBetween(lo, hi, Regained(written), WindowUnits(closed + [current]))
  {
    var all := closed + [current];
    WindowBounded(all, |all| - 15, |all|, lo, hi);
    assert MeanBetween(lo, hi, RangeSum(Prices(all), |all| - 15, |all|), WindowUnits(all));
    RegainsPrice(closed, current, t);
    hide WindowUnits, Regained, AverageRecordOf, AfterMinutes, Prices, Volumes, RangeSum, Priced;
  }

  lemma RegainsPrice(closed: seq<seq<Deal>>, current: seq<Deal>, t: nat)
    requires var all := closed + [current]; RangeSum(Volumes(all), |all| - 15, |all|) != 0.0
    ensures var all := closed + [current];
      Regained(AverageRecordOf(AfterMinutes(closed, current, true), t)) == RangeSum(Prices(all), |all| - 15, |all|)
  {
    var all := closed + [current];
    RecordOfTotals(closed, current, t, true);
    var w, v := RangeSum(Prices(all), |all| - 15, |all|), RangeSum(Volumes(all), |all| - 15, |all|);
    assert Regained(AverageRecord(t, w / v, v)) == w;
  }

  /** With positive volumes that is the volume itself. */
  lemma {:induction false} AllPositive(all: seq<seq<Deal>>, first: int, end: int)
    requires end <= |all|
    requires forall j :: 0 <= j < |all| && first <= j < end ==> forall d :: d in all[j] ==> d.v > 0.0
    ensures RangeSum(UnitSums(all), first, end) == RangeSum(Volumes(all), first, end) >= 0.0
    ensures (exists j :: 0 <= j < |all| && first <= j < end && all[j] != []) ==>
      RangeSum(Volumes(all), first, end) > 0.0
    decreases end - first
  {
    if first < end {
      var j := end - 1;
      AllPositive(all, first, j);
      if j >= 0 {
        SeriesAt(all, j);
        UnitsAreVolume(all[j]);
      }
    }
  }

  lemma {:induction false} UnitsAreVolume(deals: seq<Deal>)
    requires forall d :: d in deals ==> d.v > 0.0
    ensures Units(deals) == Volume(deals) >= 0.0
    ensures deals != [] ==> Volume(deals) > 0.0
  {
    if deals != [] {
      assert deals[|deals| - 1] in deals;
      UnitsAreVolume(deals[..|deals| - 1]);
    }
  }

  /** With the weighted price cleared each minute, if the volumes of the last 15 minutes are positive then the average
      written lies between any bounds of their prices. */
  lemma IntendedAverage(closed: seq<seq<Deal>>, current: seq<Deal>, t: nat, lo: real, hi: real)
    requires var all := closed + [current];
      && (forall j :: 0 <= j < |all| && |all| - 15 <= j ==> forall d :: d in all[j] ==> lo <= d.p <= hi && d.v > 0.0)
      && (exists j :: 0 <= j < |all| && |all| - 15 <= j && all[j] != [])
    ensures lo <= AverageRecordOf(AfterMinutes(closed, current, true), t).average <= hi
  {
    var all := closed + [current];
    forall j | 0 <= j < |all| && |all| - 15 <= j
      ensures Priced(all[j], lo, hi)
    {
    }
    hide Volumes, Prices, UnitSums, RangeSum, Priced, AverageRecordOf, AfterMinutes, MeanBetween;
    AllPositive(all, |all| - 15, |all|);
    WindowBounded(all, |all| - 15, |all|, lo, hi);
    RecordOfTotals(closed, current, t, true);
    QuotientBounded(lo, hi, RangeSum(Prices(all), |all| - 15, |all|), RangeSum(Volumes(all), |all| - 15, |all|));
  }

  /** One trade without volume and one with volume 1, both at price 10: the average written is 20, in either variant. */
  lemma VolumelessTradeDoubles(t: nat, clears: bool)
    ensures AverageRecordOf(AfterMinutes([], [Deal(10.0, 0.0), Deal(10.0, 1.0)], clears), t)
         == AverageRecord(t, 20.0, 1.0)
  {
    var first, second := Deal(10.0, 0.0), Deal(10.0, 1.0);
    var deals := [first, second];
    assert deals[..1] == [first] && [first][..0] == [];
    var c := Start().candle;
    assert AddDeals(c, []) == c;
    assert AddDeals(c, [first]) == AddDeal(c, first);
    var filled := AddDeal(AddDeal(c, first), second);
    assert AddDeals(c, deals) == filled;
    assert filled.weighted == 20.0 && filled.volume == 1.0;
    assert AfterMinutes([], deals, clears) == Start().(candle := filled);
    var a := Slide(Start().avg, filled);
    assert a.prices.total == 20.0 && a.volumes.total == 1.0;
    assert a.prices.total / a.volumes.total == 20.0;
  }
}
