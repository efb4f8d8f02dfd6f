/** The moving-average records, written at each minute and over whole runs, against what the minutes say. */
module Averages {
  import opened WorkItems
  import opened Statistics
  import opened SlidingWindow
  import opened WindowLaws
  import opened Candlesticks
  import opened Reordering
  import FileOrder

  /** The record a minute deserves: the volume of the last 15 minutes, and over it their weighted price (as written,
      each earlier minute as often as it is counted); without volume the last price known, or -1 before the first trade. */
  function DueAverage(closed: seq<seq<Deal>>, current: seq<Deal>, t: nat, clears: bool): AverageRecord {
    var all := closed + [current];
    var volume := RangeSum(Volumes(all), |all| - 15, |all|);
    var price := if clears then RangeSum(Prices(all), |all| - 15, |all|) else Law(Prices(all), |all|, |all|);
    var last := match LastPrice(all) case None => -1.0 case Some(p) => p;
    AverageRecord(t, if volume == 0.0 then last else price / volume, volume)
  }

  /** Every minute gets the average it deserves. */
  lemma AverageIsDue(closed: seq<seq<Deal>>, current: seq<Deal>, t: nat, clears: bool)
    ensures AverageRecordOf(AfterMinutes(closed, current, clears), t) == DueAverage(closed, current, t, clears)
  {
    var all := closed + [current];
    RecordOfTotals(closed, current, t, clears);
    WindowOfCumulative(Prices(all));
    MinuteStart(all, clears);
    SplitLast(closed, current);
    hide RangeSum, Volumes, Prices, Law, LastPrice;
    var b := AfterMinutes(closed, current, clears);
    assert AddDeals(Close(b, clears).candle, []) == Close(b, clears).candle;
  }

  lemma {:induction false} RowsAreDue(closed: seq<seq<Deal>>, times: seq<nat>, clears: bool, k: nat)
    requires |times| == |closed| && k < |closed|
    ensures |FileOrder.AverageRows(closed, times, clears)| == |closed|
    ensures FileOrder.AverageRows(closed, times, clears)[k] == DueAverage(closed[..k], closed[k], times[k], clears)
  {
    var n := |closed| - 1;
    hide DueAverage, AverageRecordOf, AfterMinutes;
    if k < n {
      RowsAreDue(closed[..n], times[..n], clears, k);
      assert closed[..n][..k] == closed[..k];
    } else {
      RowCount(closed[..n], times[..n], clears);
      AverageIsDue(closed[..n], closed[n], times[n], clears);
    }
  }

  lemma {:induction false} RowCount(closed: seq<seq<Deal>>, times: seq<nat>, clears: bool)
    requires |times| == |closed|
    ensures |FileOrder.AverageRows(closed, times, clears)| == |closed|
  {
    if closed != [] {
      var n := |closed| - 1;
      RowCount(closed[..n], times[..n], clears);
    }
  }

  /** The moving-average file of a stream has one row for each of its minutes, the one that minute deserves. */
  lemma AverageFileIsDue(events: seq<Event>, clears: bool, k: nat)
    ensures var (closed, times, file) := (Split(events).0, FileOrder.Times(events), AverageFile(events, clears));
      && |file| == |times| == |closed|
      && (k < |closed| ==> file[k] == DueAverage(closed[..k], closed[k], times[k], clears))
  {
    FileOrder.FilesAreMinutes(events, clears);
    var (closed, times) := (Split(events).0, FileOrder.Times(events));
    RowCount(closed, times, clears);
    if k < |closed| {
      RowsAreDue(closed, times, clears, k);
    }
  }
}
