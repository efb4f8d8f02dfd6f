/** What the order of trades inside a minute can and cannot change, and what other symbols' trades cannot. */
module Reordering {
  import opened WorkItems
  import opened Statistics
  import opened WindowLaws
  import opened Candlesticks

  predicate Permuted(a: seq<Deal>, b: seq<Deal>) {
    multiset(a) == multiset(b)
  }

  /** The same minutes, each with its trades in some order. */
  predicate MinutesPermuted(a: seq<seq<Deal>>, b: seq<seq<Deal>>) {
    |a| == |b| && forall j :: 0 <= j < |a| ==> Permuted(a[j], b[j])
  }

  predicate Above(deals: seq<Deal>) {
    forall d :: d in deals ==> d.p > -1.0
  }

  /** Equal but for the opening and closing price. */
  predicate SameButOpenClose(a: Buffer, b: Buffer) {
    && a.avg == b.avg
    && a.candle.(open := b.candle.open, close := b.candle.close) == b.candle
    && (a.candle.open > -1.0 <==> b.candle.open > -1.0)
  }

  // ----- Sums and extremes do not depend on the order

  lemma {:induction false} TakeOut(deals: seq<Deal>, i: nat)
    requires i < |deals|
    ensures Volume(deals) == Volume(deals[..i] + deals[i + 1..]) + deals[i].v
    ensures Weights(deals) == Weights(deals[..i] + deals[i + 1..]) + Weight(deals[i])
  {
    var n := |deals| - 1;
    if i == n {
      assert deals[..i] + deals[i + 1..] == deals[..n];
    } else {
      var rest := deals[..i] + deals[i + 1..];
      assert rest[..n - 1] == deals[..n][..i] + deals[..n][i + 1..];
      assert rest[n - 1] == deals[n];
      TakeOut(deals[..n], i);
    }
  }

  /** The last of a, taken out of both. */
  lemma LastOut(a: seq<Deal>, b: seq<Deal>) returns (i: nat)
    requires Permuted(a, b) && a != []
    ensures i < |b| && b[i] == a[|a| - 1]
    ensures Permuted(a[..|a| - 1], b[..i] + b[i + 1..])
  {
    var n := |a| - 1;
    assert a == a[..n] + [a[n]];
    assert a[n] in multiset(b);
    i :| 0 <= i < |b| && b[i] == a[n];
    var left, right := b[..i], b[i + 1..];
    assert b == left + [b[i]] + right;
    assert multiset(a[..n]) == multiset(a) - multiset{a[n]};
    assert multiset(b) == multiset(left) + multiset{b[i]} + multiset(right);
    assert multiset(left + right) == multiset(left) + multiset(right);
  }

  lemma {:induction false} SumsPermuted(a: seq<Deal>, b: seq<Deal>)
    requires Permuted(a, b)
    ensures Volume(a) == Volume(b) && Weights(a) == Weights(b)
    decreases |a|
  {
    if a == [] {
      assert |multiset(b)| == 0;
    } else {
      var i := LastOut(a, b);
      SumsPermuted(a[..|a| - 1], b[..i] + b[i + 1..]);
      TakeOut(b, i);
    }
  }

  lemma MembersPermuted(a: seq<Deal>, b: seq<Deal>)
    requires Permuted(a, b)
    ensures forall d :: d in a <==> d in b
    ensures a == [] <==> b == []
  {
    forall d
      ensures d in a <==> d in b
    {
      assert d in a <==> d in multiset(a);
      assert d in b <==> d in multiset(b);
    }
    assert a != [] ==> a[0] in b;
    assert b != [] ==> b[0] in a;
  }

  lemma ExtremesPermuted(a: seq<Deal>, b: seq<Deal>)
    requires Permuted(a, b) && a != [] && b != []
    ensures MaxPrice(a) == MaxPrice(b) && MinPrice(a) == MinPrice(b)
  {
    MembersPermuted(a, b);
    Extremes(a);
    Extremes(b);
  }

  /** A minute's trades in another order leave everything but the opening and closing price as it was. */
  lemma MinutePermuted(x: Buffer, y: Buffer, a: seq<Deal>, b: seq<Deal>)
    requires SameButOpenClose(x, y) && Permuted(a, b) && Above(a)
    requires x.candle.open <= -1.0
    ensures SameButOpenClose(x.(candle := AddDeals(x.candle, a)), y.(candle := AddDeals(y.candle, b)))
  {
    MembersPermuted(a, b);
    SumsPermuted(a, b);
    DealsAddUp(x.candle, a);
    DealsAddUp(y.candle, b);
    if a != [] {
      ExtremesPermuted(a, b);
      assert a[0] in a && b[0] in b;
      OpenCandle(x.candle, a);
      OpenCandle(y.candle, b);
    }
  }

  lemma {:induction false} MinutesTolerateOrder(
      closed: seq<seq<Deal>>, closed': seq<seq<Deal>>, current: seq<Deal>, current': seq<Deal>, clears: bool)
    requires MinutesPermuted(closed, closed') && Permuted(current, current')
    requires Above(current) && forall deals :: deals in closed ==> Above(deals)
    ensures SameButOpenClose(AfterMinutes(closed, current, clears), AfterMinutes(closed', current', clears))
    decreases |closed|
  {
    var n := |closed| - 1;
    MinuteStart(closed, clears);
    var x, y := AfterMinutes(closed, [], clears), AfterMinutes(closed', [], clears);
    if closed == [] {
    } else {
      assert closed[n] in closed;
      MinutesTolerateOrder(closed[..n], closed'[..n], closed[n], closed'[n], clears);
    }
    assert SameButOpenClose(x, y);
    MinutePermuted(x, y, current, current');
    CandleOf(closed, current, clears);
    CandleOf(closed', current', clears);
    KeepsAverage(closed, current, clears);
    KeepsAverage(closed', current', clears);
  }

  /** What closing the minute writes: the same volumes, the same average unless the window is without volume, and for
      a minute with trades the same high and low. */
  lemma RecordsTolerateOrder(
      closed: seq<seq<Deal>>, closed': seq<seq<Deal>>, current: seq<Deal>, current': seq<Deal>, t: nat, clears: bool)
    requires MinutesPermuted(closed, closed') && Permuted(current, current')
    requires Above(current) && forall deals :: deals in closed ==> Above(deals)
    ensures var x, y := AfterMinutes(closed, current, clears), AfterMinutes(closed', current', clears);
      var a, a' := AverageRecordOf(x, t), AverageRecordOf(y, t);
      var c, c' := CandleRecordOf(x, t), CandleRecordOf(y, t);
      && a.volume == a'.volume && (a.volume != 0.0 ==> a == a')
      && (current != [] ==>
            c.Some? && c'.Some? && c'.value == c.value.(open := c'.value.open, close := c'.value.close))
  {
    MinutesTolerateOrder(closed, closed', current, current', clears);
    if current != [] {
      assert current[0] in current;
      MinuteStart(closed, clears);
      CandleOf(closed, current, clears);
      OpenCandle(AfterMinutes(closed, [], clears).candle, current);
    }
  }

  // ----- Several symbols

  /** One item processed by the Calculator, for all symbols. */
  function Process(buffers: seq<Buffer>, item: WorkItem, clears: bool): (after: seq<Buffer>)
    requires forall i :: 0 <= i < |buffers| ==> buffers[i].avg.Valid()
    ensures |after| == |buffers| && forall i :: 0 <= i < |after| ==> after[i].avg.Valid()
  {
    if IsTrade(item) then
      if item.trade.s < |buffers| then
        var b := buffers[item.trade.s];
        buffers[item.trade.s := b.(candle := AddDeal(b.candle, Deal(item.trade.p, item.trade.v)))]
      else buffers
    else seq(|buffers|, i requires 0 <= i < |buffers| => Close(buffers[i], clears))
  }

  /** A symbol's own trades, and the directives. */
  function Project(items: seq<WorkItem>, i: nat): seq<Event> {
    if items == [] then [] else
      var before := Project(items[..|items| - 1], i);
      var item := items[|items| - 1];
      if item.trade.v <= -1.0 then before + [Minute(item.trade.t)]
      else if item.trade.s == i then before + [Trading(Deal(item.trade.p, item.trade.v))]
      else before
  }

  /** The moving-average file of a symbol. */
  function AverageFile(events: seq<Event>, clears: bool): seq<AverageRecord> {
    if events == [] then [] else
      var before := events[..|events| - 1];
      match events[|events| - 1]
      case Trading(_) => AverageFile(before, clears)
      case Minute(t) => AverageFile(before, clears) + [AverageRecordOf(After(before, clears), t)]
  }

  /** One more trade, or one more directive, in a symbol's stream, buffer and files. */
  lemma ProjectTrade(items: seq<WorkItem>, item: WorkItem, i: nat, clears: bool)
    requires item.trade.v > -1.0
    ensures var (all, before) := (Project(items + [item], i), Project(items, i));
      var deal := Deal(item.trade.p, item.trade.v);
      && (item.trade.s != i ==> all == before)
      && (item.trade.s == i ==>
            && all == before + [Trading(deal)]
            && After(all, clears) == After(before, clears).(candle := AddDeal(After(before, clears).candle, deal))
            && CandleFile(all, clears) == CandleFile(before, clears)
            && AverageFile(all, clears) == AverageFile(before, clears))
  {
    assert (items + [item])[..|items|] == items;
    var before := Project(items, i);
    var e := Trading(Deal(item.trade.p, item.trade.v));
    assert (before + [e])[..|before|] == before;
  }

  lemma ProjectDirective(items: seq<WorkItem>, item: WorkItem, i: nat, clears: bool)
    requires item.trade.v <= -1.0
    ensures var (all, before, t) := (Project(items + [item], i), Project(items, i), item.trade.t);
      && all == before + [Minute(t)]
      && After(all, clears) == Close(After(before, clears), clears)
      && AverageFile(all, clears) == AverageFile(before, clears) + [AverageRecordOf(After(before, clears), t)]
      && CandleFile(all, clears) ==
           match CandleRecordOf(After(before, clears), t)
           case None => CandleFile(before, clears)
           case Some(r) => CandleFile(before, clears) + [r]
  {
    assert (items + [item])[..|items|] == items;
    var before := Project(items, i);
    assert (before + [Minute(item.trade.t)])[..|before|] == before;
  }
}
