/** From the api queue's history to the Calculator's statistics, over whole runs. */
module EndToEnd {
  import opened WorkItems
  import opened Pipeline
  import opened Safety
  import opened Ledger
  import opened Drain
  import Submission
  import opened Theorems
  import Statistics
  import opened Candlesticks
  import opened Reordering
  import opened Records
  import opened FileOrder
  import Averages

  // ----- What the Calculator has processed

  function Item(s: State, k: nat): WorkItem {
    if k < |s.api.hist| then s.api.hist[k] else WorkItem(Trade(0.0, 0, 0, 0.0), 0)
  }

  /** The items of the calculation queue's history. */
  function Delivered(s: State): seq<WorkItem> {
    seq(|s.calculation.hist|, m requires 0 <= m < |s.calculation.hist| => Item(s, s.calculation.hist[m]))
  }

  /** How many of them the Calculator has finished with. */
  function Processed(s: State): int {
    s.calculation.out - One(s.calculator.CTook? || s.calculator.CWorking?)
  }

  /** Along a run the Calculator processes the item it removed last. */
  function Advance(s: State, r: Results, step: Step): (after: Results)
    requires r.Valid()
    ensures after.Valid() && |after.buffers| == |r.buffers|
  {
    if step.Calculate? && s.calculator.CWorking? && 0 < s.calculation.out <= |s.calculation.hist|
    then Turn(r, Item(s, s.calculation.hist[s.calculation.out - 1]))
    else r
  }

  function Made(s: State, r: Results, steps: seq<Step>): Results
    requires Feasible(s, steps) && r.Valid()
    decreases |steps|
  {
    if steps == [] then r else Made(Do(s, steps[0]), Advance(s, r, steps[0]), steps[1..])
  }

  /** The results are what the items processed so far make. */
  ghost predicate Computed(s: State, r: Results) {
    && 0 <= Processed(s) <= |s.calculation.hist|
    && MadeOf(r, Delivered(s)[..Processed(s)])
  }

  /** Positions that have been handed out stay what they are. */
  lemma DeliveredGrows(s: State, step: Step)
    requires Good(s) && Can(s, step)
    ensures Delivered(s) <= Delivered(Do(s, step))
  {
    hide Do, Can, WriterTurn, CanWrite;
    if step.Write? {
      StepIsTurn(s, step);
      WriterEffect(s, step.i, step.target);
    } else {
      OtherEffect(s, step);
    }
  }

  lemma ProcessedMoves(s: State, step: Step)
    requires Core(s) && Can(s, step)
    ensures Processed(Do(s, step)) == Processed(s) + One(step.Calculate? && s.calculator.CWorking?)
    ensures |s.calculation.hist| <= |Do(s, step).calculation.hist|
    ensures 0 <= Processed(s) <= |s.calculation.hist|
    ensures s.calculator.CWorking? ==> Processed(s) == s.calculation.out - 1 < |s.calculation.hist|
  {
    hide Num, MayWake, Wake, Wakeups, Exits, ExitChain, LossAtExit, LossAtEnd, Tested;
  }

  lemma StepComputes(s: State, r: Results, step: Step)
    requires Good(s) && Can(s, step) && Computed(s, r)
    ensures Computed(Do(s, step), Advance(s, r, step))
  {
    hide Do, Can, Core, Turn, MadeOf, Conserved, Logged, Indexed, Ordered, BoundedOvertaking, SoleWriterDelivers;
    hide Submission.Submitted, Submission.Quota, Submission.DirectivesCounted, RoomAfterExit, Hearing, Relayed;
    var s' := Do(s, step);
    DeliveredGrows(s, step);
    ProcessedMoves(s, step);
    var p := Processed(s);
    assert Delivered(s')[..p] == Delivered(s)[..p];
    if step.Calculate? && s.calculator.CWorking? {
      var item := Item(s, s.calculation.hist[p]);
      assert s.calculation.out == p + 1 <= |s.calculation.hist|;
      assert Delivered(s')[p] == Delivered(s)[p] == item;
      assert Delivered(s')[..p + 1] == Delivered(s)[..p] + [item];
      TurnMakes(r, Delivered(s)[..p], item);
    }
  }

  lemma {:induction false} RunComputes(s: State, r: Results, steps: seq<Step>)
    requires Good(s) && Feasible(s, steps) && Computed(s, r)
    ensures r.Valid() && Computed(After(s, steps), Made(s, r, steps)) && |Made(s, r, steps).buffers| == |r.buffers|
    decreases |steps|
  {
    assert r.Valid();
    if steps != [] {
      hide Do, Can, Good, Computed, Advance;
      StepKeepsGood(s, steps[0]);
      StepComputes(s, r, steps[0]);
      RunComputes(Do(s, steps[0]), Advance(s, r, steps[0]), steps[1..]);
    }
  }

  lemma StartComputes(w: nat, n: nat, symbols: nat)
    ensures Fresh(symbols).Valid() && |Fresh(symbols).buffers| == symbols
    ensures Computed(Init(w, n), Fresh(symbols))
  {
    assert Delivered(Init(w, n))[..0] == [];
  }

  /** In every run, each symbol's buffer and files are what its own delivered trades and the directives make. */
  lemma RunStatistics(w: nat, n: nat, symbols: nat, steps: seq<Step>)
    requires w >= 1 && n >= 1 && Feasible(Init(w, n), steps)
    ensures var s := After(Init(w, n), steps);
      var r := Made(Init(w, n), Fresh(symbols), steps);
      && 0 <= Processed(s) <= |s.calculation.hist| && |r.buffers| == symbols
      && MadeOf(r, Delivered(s)[..Processed(s)])
  {
    hide Good, Feasible, After, Made, MadeOf, Reachable, Num;
    InitIsGood(w, n);
    StartComputes(w, n, symbols);
    RunComputes(Init(w, n), Fresh(symbols), steps);
  }

  /** In every run each row of a symbol's moving-average file is the one its minute deserves. */
  lemma RunAverages(w: nat, n: nat, symbols: nat, steps: seq<Step>, i: nat, k: nat)
    requires w >= 1 && n >= 1 && Feasible(Init(w, n), steps) && i < symbols
    ensures var s := After(Init(w, n), steps);
      var r := Made(Init(w, n), Fresh(symbols), steps);
      && 0 <= Processed(s) <= |s.calculation.hist| && |r.averageFiles| == symbols
      && var events := Project(Delivered(s)[..Processed(s)], i);
      && var (closed, times, file) := (Statistics.Split(events).0, Times(events), r.averageFiles[i]);
      && |file| == |times| == |closed|
      && (k < |closed| ==> file[k] == Averages.DueAverage(closed[..k], closed[k], times[k], false))
  {
    RunStatistics(w, n, symbols, steps);
    var s := After(Init(w, n), steps);
    Averages.AverageFileIsDue(Project(Delivered(s)[..Processed(s)], i), false, k);
  }

  /** The volume of a delivered item decides what becomes of it: above -1 it has been logged once, adds one deal to its
      own symbol's stream and nothing to the others; at -1, as in the minute handler's directives, or below, it has not
      been logged and ends the minute of every symbol. */
  lemma VolumeDecides(w: nat, n: nat, steps: seq<Step>, m: nat, i: nat)
    requires w >= 1 && n >= 1 && Feasible(Init(w, n), steps) && m < |After(Init(w, n), steps).calculation.hist|
    ensures var s := After(Init(w, n), steps);
      var k := s.calculation.hist[m];
      && k < |s.api.hist| && Delivered(s)[m] == s.api.hist[k]
      && var (trade, before) := (s.api.hist[k].trade, Project(Delivered(s)[..m], i));
      && multiset(s.book.log)[k] == (if trade.v > -1.0 then 1 else 0)
      && Project(Delivered(s)[..m + 1], i) == before +
           if trade.v <= -1.0 then [Statistics.Minute(trade.t)]
           else if trade.s == i then [Statistics.Trading(Statistics.Deal(trade.p, trade.v))]
           else []
    ensures forall step :: step in steps && step.Tick? ==> step.item.trade.v == -1.0
  {
    var s := After(Init(w, n), steps);
    assert Reachable(w, n, s);
    TicksAreDirectives(Init(w, n), steps);
    hide Reachable, Feasible, After, Statistics.After, CandleFile, AverageFile;
    LoggedFirst(w, n, s, m);
    var before, item := Delivered(s)[..m], Delivered(s)[m];
    assert Delivered(s)[..m + 1] == before + [item];
    if item.trade.v > -1.0 {
      ProjectTrade(before, item, i, false);
    } else {
      ProjectDirective(before, item, i, false);
    }
  }

  lemma {:induction false} TicksAreDirectives(s: State, steps: seq<Step>)
    requires Feasible(s, steps)
    ensures forall step :: step in steps && step.Tick? ==> step.item.trade.v == -1.0
    decreases |steps|
  {
    if steps != [] {
      assert steps[0].Tick? ==> steps[0].item.trade.v == -1.0;
      hide Do, Can;
      TicksAreDirectives(Do(s, steps[0]), steps[1..]);
    }
  }

  // ----- One Writer: from the api queue to the files

  lemma SingleWriterDelivers(n: nat, s: State, p: nat)
    requires n >= 1 && Reachable(1, n, s) && p <= |s.calculation.hist|
    ensures p <= |s.api.hist| && Delivered(s)[..p] == s.api.hist[..p]
  {
    hide Reachable, Good;
    ReachableIsGood(1, n, s);
    forall m | 0 <= m < p
      ensures m < |s.api.hist| && Delivered(s)[m] == s.api.hist[m]
    {
      SingleWriterKeepsOrder(n, s, m);
      InApiOrder(s, m);
    }
    if p > 0 {
      SingleWriterKeepsOrder(n, s, p - 1);
      InApiOrder(s, p - 1);
    }
  }

  lemma InApiOrder(s: State, m: nat)
    requires Good(s) && m < |s.calculation.hist|
    ensures s.calculation.hist[m] < s.api.out <= |s.api.hist|
  {
  }

  /** With one Writer every symbol's buffer and files are those of the api history itself; its candlestick file holds
      exactly the records due when prices are above the mark; after a full shutdown at most one item is missing. */
  lemma SingleWriterEndToEnd(n: nat, symbols: nat, steps: seq<Step>)
    requires n >= 1 && Feasible(Init(1, n), steps)
    ensures var s := After(Init(1, n), steps);
      var r := Made(Init(1, n), Fresh(symbols), steps);
      var p := Processed(s);
      && 0 <= p <= |s.api.hist| && |r.buffers| == symbols
      && MadeOf(r, s.api.hist[..p])
      && (forall i :: 0 <= i < symbols && AboveMark(Project(s.api.hist[..p], i)) ==>
            r.candleFiles[i] == DueFile(Project(s.api.hist[..p], i)))
      && (Num(s.writers, Gone) == 1 && s.calculator.CGone? ==> |s.api.hist| <= p + 1)
  {
    var s := After(Init(1, n), steps);
    var r := Made(Init(1, n), Fresh(symbols), steps);
    assert Reachable(1, n, s);
    hide Reachable, Feasible, After, Made, Num, Project, AverageFile, Statistics.After;
    RunStatistics(1, n, symbols, steps);
    SingleWriterDelivers(n, s, Processed(s));
    var items := s.api.hist[..Processed(s)];
    forall i | 0 <= i < symbols && AboveMark(Project(items, i))
      ensures r.candleFiles[i] == DueFile(Project(items, i))
    {
      FileIsDue(Project(items, i), false);
    }
    if Num(s.writers, Gone) == 1 && s.calculator.CGone? {
      BoundedLoss(1, n, s);
    }
  }

  // ----- Several Writers: reordering inside minutes is harmless

  /** For symbol i the Writers have only reordered trades inside the minutes of the first p accepted items. */
  ghost predicate OnlyReordered(s: State, p: nat, i: nat) {
    && p <= |s.api.hist| && 0 <= Processed(s) <= |s.calculation.hist|
    && var delivered := Statistics.Split(Project(Delivered(s)[..Processed(s)], i));
    && var submitted := Statistics.Split(Project(s.api.hist[..p], i));
    && MinutesPermuted(submitted.0, delivered.0) && Permuted(submitted.1, delivered.1)
    && AboveMark(Project(s.api.hist[..p], i))
  }

  /** Then its buffer differs from that of the api order in the opening and closing price at most; and if the directives
      keep their order, its files agree with those of the api order as FileOrder says. */
  lemma ReorderingIsHarmless(w: nat, n: nat, symbols: nat, steps: seq<Step>, i: nat, p: nat)
    requires w >= 1 && n >= 1 && Feasible(Init(w, n), steps) && i < symbols
    requires OnlyReordered(After(Init(w, n), steps), p, i)
    ensures var s := After(Init(w, n), steps);
      var r := Made(Init(w, n), Fresh(symbols), steps);
      var submitted, delivered := Project(s.api.hist[..p], i), Project(Delivered(s)[..Processed(s)], i);
      && |r.buffers| == |r.averageFiles| == |r.candleFiles| == symbols
      && SameButOpenClose(Statistics.After(submitted, false), r.buffers[i])
      && (Times(submitted) == Times(delivered) ==>
            && SameAverages(AverageFile(submitted, false), r.averageFiles[i])
            && SameCandles(CandleFile(submitted, false), r.candleFiles[i], Busy(Statistics.Split(submitted).0)))
  {
    RunStatistics(w, n, symbols, steps);
    var s := After(Init(w, n), steps);
    var delivered := Project(Delivered(s)[..Processed(s)], i);
    var submitted := Project(s.api.hist[..p], i);
    hide Feasible, After, Made, Project, Delivered;
    ReorderedStreams(submitted, delivered);
  }

  lemma ReorderedStreams(a: seq<Statistics.Event>, b: seq<Statistics.Event>)
    requires MinutesPermuted(Statistics.Split(a).0, Statistics.Split(b).0)
    requires Permuted(Statistics.Split(a).1, Statistics.Split(b).1) && AboveMark(a)
    ensures SameButOpenClose(Statistics.After(a, false), Statistics.After(b, false))
    ensures Times(a) == Times(b) ==>
      && SameAverages(AverageFile(a, false), AverageFile(b, false))
      && SameCandles(CandleFile(a, false), CandleFile(b, false), Busy(Statistics.Split(a).0))
  {
    Statistics.StreamIsMinutes(a, false);
    Statistics.StreamIsMinutes(b, false);
    SplitKeepsPrices(a);
    MinutesTolerateOrder(Statistics.Split(a).0, Statistics.Split(b).0,
                         Statistics.Split(a).1, Statistics.Split(b).1, false);
    if Times(a) == Times(b) {
      FilesTolerateOrder(a, b, false);
    }
  }
}
