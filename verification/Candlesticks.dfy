/** The records written at each minute against what each minute's trades say. */
module Candlesticks {
  import opened WorkItems
  import opened Statistics
  import opened WindowLaws

  function MaxPrice(deals: seq<Deal>): real
    requires deals != []
  {
    var d := deals[|deals| - 1];
    if |deals| == 1 then d.p else
      var m := MaxPrice(deals[..|deals| - 1]);
      if d.p > m then d.p else m
  }

  function MinPrice(deals: seq<Deal>): real
    requires deals != []
  {
    var d := deals[|deals| - 1];
    if |deals| == 1 then d.p else
      var m := MinPrice(deals[..|deals| - 1]);
      if d.p < m then d.p else m
  }

  /** The price of the latest trade of the closed minutes, if there was one. */
  function LastPrice(closed: seq<seq<Deal>>): Option<real> {
    if closed == [] then None
    else if closed[|closed| - 1] != [] then Some(closed[|closed| - 1][|closed[|closed| - 1]| - 1].p)
    else LastPrice(closed[..|closed| - 1])
  }

  /** The record a minute deserves: its own prices, or the last price known, or nothing before the first trade. */
  function DueRecord(closed: seq<seq<Deal>>, current: seq<Deal>, t: nat): Option<CandleRecord> {
    if current != [] then
      var (open, close) := (current[0].p, current[|current| - 1].p);
      Some(CandleRecord(t, open, MaxPrice(current), MinPrice(current), close, Volume(current)))
    else
      match LastPrice(closed)
      case None => None
      case Some(p) => Some(CandleRecord(t, p, p, p, p, 0.0))
  }

  /** The price that decides the record is not confused with the mark of an empty candlestick. */
  predicate Telling(closed: seq<seq<Deal>>, current: seq<Deal>) {
    if current != [] then current[0].p > -1.0
    else LastPrice(closed).None? || LastPrice(closed).value > -1.0
  }

  lemma {:induction false} Extremes(deals: seq<Deal>)
    requires deals != []
    ensures forall d :: d in deals ==> MinPrice(deals) <= d.p <= MaxPrice(deals)
    ensures exists d :: d in deals && d.p == MaxPrice(deals)
    ensures exists d :: d in deals && d.p == MinPrice(deals)
  {
    var n := |deals| - 1;
    assert deals == deals[..n] + [deals[n]];
    if n > 0 {
      Extremes(deals[..n]);
    } else {
      assert deals[0] in deals;
    }
  }

  // ----- The candlestick within a minute

  /** A minute that opens with a price above the mark. */
  lemma {:induction false} OpenCandle(c: Candlestick, deals: seq<Deal>)
    requires c.open <= -1.0 && deals != [] && deals[0].p > -1.0
    ensures var c' := AddDeals(c, deals);
      && c'.open == deals[0].p && c'.close == deals[|deals| - 1].p
      && c'.max == MaxPrice(deals) && c'.min == MinPrice(deals)
  {
    var n := |deals| - 1;
    if n > 0 {
      OpenCandle(c, deals[..n]);
      Extremes(deals[..n]);
      assert deals[..n][0] in deals[..n];
    } else {
      assert AddDeals(c, deals[..0]) == c;
    }
  }

  /** A minute that opens at or below the mark forgets its opening price. */
  lemma {:induction false} ForgetfulCandle(c: Candlestick, deals: seq<Deal>)
    requires c.open <= -1.0 && deals != [] && deals[0].p <= -1.0
    ensures var c' := AddDeals(c, deals);
      c'.close == deals[|deals| - 1].p && (c'.open > -1.0 || c'.open == c'.close)
  {
    var n := |deals| - 1;
    if n > 0 {
      ForgetfulCandle(c, deals[..n]);
    } else {
      assert AddDeals(c, deals[..0]) == c;
    }
  }

  /** At the start of a minute the candlestick is marked empty and remembers the last price. */
  lemma {:induction false} MinuteStart(closed: seq<seq<Deal>>, clears: bool)
    ensures var c := AfterMinutes(closed, [], clears).candle;
      && c.open == -1.0 && c.volume == 0.0
      && c.close == (if LastPrice(closed).Some? then LastPrice(closed).value else -1.0)
  {
    if closed != [] {
      var n := |closed| - 1;
      MinuteStart(closed[..n], clears);
      var c := AfterMinutes(closed[..n], [], clears).candle;
      assert AddDeals(c, []) == c;
      CandleOf(closed[..n], closed[n], clears);
      if closed[n] != [] {
        if closed[n][0].p > -1.0 {
          OpenCandle(c, closed[n]);
        } else {
          ForgetfulCandle(c, closed[n]);
        }
      }
    }
  }

  lemma CandleOf(closed: seq<seq<Deal>>, current: seq<Deal>, clears: bool)
    ensures AfterMinutes(closed, current, clears).candle == AddDeals(AfterMinutes(closed, [], clears).candle, current)
  {
    var b := AfterMinutes(closed, [], clears);
    assert AddDeals(b.candle, []) == b.candle;
  }

  /** Each minute gets the record it deserves if and only if its deciding price is above the mark. */
  lemma RecordIsDue(closed: seq<seq<Deal>>, current: seq<Deal>, t: nat, clears: bool)
    ensures CandleRecordOf(AfterMinutes(closed, current, clears), t) == DueRecord(closed, current, t)
       <==> Telling(closed, current)
  {
    MinuteStart(closed, clears);
    CandleOf(closed, current, clears);
    var c := AfterMinutes(closed, [], clears).candle;
    DealsAddUp(c, current);
    if current != [] {
      if current[0].p > -1.0 {
        OpenCandle(c, current);
      } else {
        ForgetfulCandle(c, current);
      }
    }
  }

  /** The first trade at the mark or below is lost: a minute of prices -2 and 5 is recorded as opening at 5. */
  lemma NegativeOpeningIsLost()
    ensures CandleRecordOf(AfterMinutes([], [Deal(-2.0, 1.0), Deal(5.0, 1.0)], false), 7)
         == Some(CandleRecord(7, 5.0, 5.0, 5.0, 5.0, 2.0))
    ensures DueRecord([], [Deal(-2.0, 1.0), Deal(5.0, 1.0)], 7)
         == Some(CandleRecord(7, -2.0, 5.0, -2.0, 5.0, 2.0))
  {
    var first, second := Deal(-2.0, 1.0), Deal(5.0, 1.0);
    var deals := [first, second];
    assert deals[..1] == [first] && [first][..0] == [];
    var c := AddDeals(Start().candle, []);
    assert AddDeals(Start().candle, [first]) == AddDeal(c, first);
    assert AddDeals(Start().candle, deals) == AddDeal(AddDeal(c, first), second);
    assert Volume(deals) == Volume([first]) + 1.0 && Volume([first]) == Volume([]) + 1.0;
  }

  /** A record that is due has its opening and closing price between its low and its high. */
  lemma DueRecordIsSound(closed: seq<seq<Deal>>, current: seq<Deal>, t: nat)
    requires DueRecord(closed, current, t).Some?
    ensures var r := DueRecord(closed, current, t).value;
      r.low <= r.open <= r.high && r.low <= r.close <= r.high
  {
    if current != [] {
      Extremes(current);
      assert current[0] in current && current[|current| - 1] in current;
    }
  }

  /** A record is due exactly from the first trade on. */
  lemma {:induction false} DueAfterFirstTrade(closed: seq<seq<Deal>>, current: seq<Deal>, t: nat)
    ensures DueRecord(closed, current, t).Some? <==> current != [] || exists j :: 0 <= j < |closed| && closed[j] != []
  {
    if current == [] && closed != [] {
      var n := |closed| - 1;
      DueAfterFirstTrade(closed[..n], [], t);
      assert closed == closed[..n] + [closed[n]];
    }
  }

  function Quiet(k: nat): seq<seq<Deal>> {
    if k == 0 then [] else Quiet(k - 1) + [[]]
  }

  /** The candlestick at the end of any number of minutes without trades. */
  lemma {:induction false} QuietCandle(closed: seq<seq<Deal>>, last: seq<Deal>, quiet: nat, clears: bool)
    ensures var c := AfterMinutes(closed + [last] + Quiet(quiet), [], clears).candle;
      && c.open == -1.0 && c.volume == 0.0
      && c.close == AfterMinutes(closed, last, clears).candle.close
  {
    var all := closed + [last] + Quiet(quiet);
    var n := |all| - 1;
    if quiet == 0 {
      assert all == closed + [last] && all[..n] == closed;
    } else {
      QuietCandle(closed, last, quiet - 1, clears);
      assert all[..n] == closed + [last] + Quiet(quiet - 1) && all[n] == [];
    }
    var b := Close(AfterMinutes(all[..n], all[n], clears), clears);
    assert AddDeals(b.candle, []) == b.candle;
  }

  /** However many minutes pass without a trade, each is written as the closing price of the last record before them,
      four times, with volume 0, and as nothing if there was none; if and only if that price is above the mark. */
  lemma TradelessMinutesRepeat(
      closed: seq<seq<Deal>>, last: seq<Deal>, quiet: nat, t: nat, next: nat, clears: bool)
    ensures var before := CandleRecordOf(AfterMinutes(closed, last, clears), t);
      var after := CandleRecordOf(AfterMinutes(closed + [last] + Quiet(quiet), [], clears), next);
      after == (match before
                case None => None
                case Some(r) => Some(CandleRecord(next, r.close, r.close, r.close, r.close, 0.0)))
      <==> before.None? || before.value.close > -1.0
  {
    QuietCandle(closed, last, quiet, clears);
  }

  // ----- Whole runs

  /** The candlestick file of a symbol. */
  function CandleFile(events: seq<Event>, clears: bool): seq<CandleRecord> {
    if events == [] then [] else
      var before := events[..|events| - 1];
      match events[|events| - 1]
      case Trading(_) => CandleFile(before, clears)
      case Minute(t) =>
        match CandleRecordOf(After(before, clears), t)
        case None => CandleFile(before, clears)
        case Some(r) => CandleFile(before, clears) + [r]
  }

  /** The records due, minute by minute. */
  function DueFile(events: seq<Event>): seq<CandleRecord> {
    if events == [] then [] else
      var before := events[..|events| - 1];
      match events[|events| - 1]
      case Trading(_) => DueFile(before)
      case Minute(t) =>
        match DueRecord(Split(before).0, Split(before).1, t)
        case None => DueFile(before)
        case Some(r) => DueFile(before) + [r]
  }

  predicate AboveMark(events: seq<Event>) {
    forall e :: e in events && e.Trading? ==> e.deal.p > -1.0
  }

  lemma {:induction false} SplitKeepsPrices(events: seq<Event>)
    requires AboveMark(events)
    ensures forall d :: d in Split(events).1 ==> d.p > -1.0
    ensures forall deals, d :: deals in Split(events).0 && d in deals ==> d.p > -1.0
  {
    if events != [] {
      var n := |events| - 1;
      assert events[n] in events;
      SplitKeepsPrices(events[..n]);
    }
  }

  lemma {:induction false} LastPriceAbove(closed: seq<seq<Deal>>)
    requires forall deals, d :: deals in closed && d in deals ==> d.p > -1.0
    ensures LastPrice(closed).Some? ==> LastPrice(closed).value > -1.0
  {
    if closed != [] {
      var last := closed[|closed| - 1];
      assert last in closed;
      if last != [] {
        assert last[|last| - 1] in last;
      }
      LastPriceAbove(closed[..|closed| - 1]);
    }
  }

  /** With all prices above the mark, the candlestick file holds exactly the records due. */
  lemma {:induction false} FileIsDue(events: seq<Event>, clears: bool)
    requires AboveMark(events)
    ensures CandleFile(events, clears) == DueFile(events)
  {
    if events != [] {
      var before := events[..|events| - 1];
      assert forall e :: e in before ==> e in events;
      FileIsDue(before, clears);
      if events[|events| - 1].Minute? {
        var (closed, current) := Split(before);
        StreamIsMinutes(before, clears);
        SplitKeepsPrices(before);
        LastPriceAbove(closed);
        assert current != [] ==> current[0] in current;
        RecordIsDue(closed, current, events[|events| - 1].t, clears);
      }
    }
  }
  /** In particular with prices that are not negative. */
  lemma FileOfPricesIsDue(events: seq<Event>, clears: bool)
    requires forall e :: e in events && e.Trading? ==> e.deal.p >= 0.0
    ensures CandleFile(events, clears) == DueFile(events)
  {
    FileIsDue(events, clears);
  }
}
