/** What holds in every reachable state of the pipeline, for any number of Writers and any queue capacity. */
module Theorems {
  import opened WorkItems
  import opened Pipeline
  import opened Totals
  import opened Safety
  import opened Ledger
  import opened Submission
  import opened Drain
  import opened Limits

  ghost predicate Good(s: State) {
    && Core(s) && Conserved(s) && Logged(s)
    && Indexed(s) && Ordered(s) && BoundedOvertaking(s) && SoleWriterDelivers(s)
    && Submitted(s) && Quota(s) && DirectivesCounted(s)
    && RoomAfterExit(s) && Hearing(s) && Relayed(s)
  }

  lemma StepKeepsGood(s: State, step: Step)
    requires Good(s) && Can(s, step)
    ensures Good(Do(s, step))
  {
    hide Do, Can, Conserved, Logged, Indexed, Ordered, BoundedOvertaking, SoleWriterDelivers;
    hide Submitted, Quota, DirectivesCounted, RoomAfterExit, Hearing, Relayed;
    hide Num, Wakeups, ExitChain, LossAtExit, LossAtEnd, Flags, Closing, Bounded, Tested;
    StepKeepsCore(s, step);
    StepConserves(s, step);
    StepLogs(s, step);
    StepKeepsOrder(s, step);
    StepKeepsOvertaking(s, step);
    StepKeepsSole(s, step);
    StepKeepsSubmission(s, step);
    StepKeepsCount(s, step);
    StepKeepsRoom(s, step);
    StepKeepsHearing(s, step);
    StepRelays(s, step);
  }

  lemma InitIsGood(w: nat, n: nat)
    requires w >= 1 && n >= 1
    ensures Good(Init(w, n))
  {
    InitIsCore(w, n);
    InitLedger(w, n);
    hide Core, Conserved, Logged, Relayed, Num;
    InitialCounts(w);
  }

  lemma InitLedger(w: nat, n: nat)
    ensures Conserved(Init(w, n)) && Logged(Init(w, n))
  {
    InitialCarried(false, w);
    InitialCarried(true, w);
    hide Carried;
  }

  lemma {:induction false} InitialCarried(past: bool, w: nat)
    ensures Carried(past, AllReady(w), seq(w, i => 0)) == multiset{}
  {
    if w > 0 {
      assert AllReady(w)[..w - 1] == AllReady(w - 1);
      assert seq(w, i => 0)[..w - 1] == seq(w - 1, i => 0);
      InitialCarried(past, w - 1);
    }
  }

  lemma {:induction false} RunKeepsGood(s: State, steps: seq<Step>)
    requires Good(s) && Feasible(s, steps)
    ensures Good(After(s, steps))
    ensures |After(s, steps).writers| == |s.writers|
    ensures After(s, steps).api.capacity == s.api.capacity
    decreases |steps|
  {
    if steps != [] {
      hide Do, Can, Good;
      StepKeepsGood(s, steps[0]);
      StepKeepsSizes(s, steps[0]);
      RunKeepsGood(Do(s, steps[0]), steps[1..]);
    }
  }

  lemma StepKeepsSizes(s: State, step: Step)
    requires Can(s, step)
    ensures |Do(s, step).writers| == |s.writers| && Do(s, step).api.capacity == s.api.capacity
  {
    hide Num;
  }

  /** Every state the pipeline can reach from its start. */
  ghost predicate Reachable(w: nat, n: nat, s: State) {
    exists steps :: Feasible(Init(w, n), steps) && After(Init(w, n), steps) == s
  }

  lemma ReachableIsGood(w: nat, n: nat, s: State)
    requires w >= 1 && n >= 1 && Reachable(w, n, s)
    ensures Good(s) && |s.writers| == w && s.api.capacity == n && s.calculation.capacity == n
  {
    hide Feasible, After;
    var steps :| Feasible(Init(w, n), steps) && After(Init(w, n), steps) == s;
    InitIsGood(w, n);
    RunKeepsGood(Init(w, n), steps);
  }

  // ----- Progress

  /** How often a run signals from outside: the connection closing, and WSSClient returning. */
  function Closings(steps: seq<Step>): nat
    decreases |steps|
  {
    if steps == [] then 0 else One(steps[0].HangUp? || steps[0].ClientReturns?) + Closings(steps[1..])
  }

  /** In every run without spurious wake-ups the threads make boundedly many working steps: a constant for each Writer,
      16 for each item submitted, one for each message or directive, two for each signal from outside. */
  lemma WorkIsBounded(w: nat, n: nat, steps: seq<Step>)
    requires w >= 1 && n >= 1 && Plain(steps) && Feasible(Init(w, n), steps)
    ensures WorkCount(Init(w, n), steps)
         <= 8 * w + 2 + 16 * |Concat(Blocks(steps))| + |Blocks(steps)| + 2 * Closings(steps)
  {
    InitIsCore(w, n);
    WorkIsPaidFor(Init(w, n), steps);
    ReadyWeights(w);
    IntakesAtMost(Init(w, n), steps);
  }

  lemma {:induction false} IntakesAtMost(s: State, steps: seq<Step>)
    requires Feasible(s, steps)
    ensures Intakes(s, steps) <= 16 * |Concat(Blocks(steps))| + |Blocks(steps)| + 2 * Closings(steps)
    decreases |steps|
  {
    if steps != [] {
      hide Do, Can;
      IntakesAtMost(Do(s, steps[0]), steps[1..]);
      ConcatFirst(BlockIn(steps[0]), Blocks(steps[1..]));
    }
  }

  lemma {:induction false} ReadyWeights(w: nat)
    ensures WriterWeights(AllReady(w)) == 8 * w
  {
    if w > 0 {
      assert AllReady(w)[..w - 1] == AllReady(w - 1);
      ReadyWeights(w - 1);
    }
  }

  /** While no Writer has left, the pipeline stands still exactly when all is done: nobody submits, everything accepted
      has been delivered, once, and removed by the Calculator, and all threads wait for items. */
  lemma RestIsComplete(w: nat, n: nat, s: State)
    requires w >= 1 && n >= 1 && Reachable(w, n, s) && Left(s.writers) == 0
    ensures Still(s) <==>
      && s.producer.Free? && s.calculation.out == |s.api.hist|
      && s.calculator.CParked? && forall i :: 0 <= i < |s.writers| ==> s.writers[i].Parked?
    ensures Still(s) ==> s.book.dropped == [] && multiset(s.calculation.hist) == Range(|s.api.hist|)
  {
    ReachableIsGood(w, n, s);
    assert Core(s) && Conserved(s);
    hide Reachable, Good, Core, Conserved, Still;
    if Still(s) {
      StillIsDone(s);
    }
    if s.producer.Free? && s.calculator.CParked? && forall i :: 0 <= i < |s.writers| ==> s.writers[i].Parked? {
      AtRestIsStill(s);
    }
  }

  lemma StillIsDone(s: State)
    requires Core(s) && Conserved(s) && Still(s) && Left(s.writers) == 0
    ensures s.producer.Free? && s.calculation.out == |s.api.hist| && s.calculator.CParked?
    ensures forall i :: 0 <= i < |s.writers| ==> s.writers[i].Parked?
    ensures s.book.dropped == [] && multiset(s.calculation.hist) == Range(|s.api.hist|)
  {
    StillIsEmpty(s);
    AccountSize(s);
    CarriedFacts(s.writers, s.book.hands);
    assert Carried(false, s.writers, s.book.hands) == multiset{};
    BoundedCore(s);
    hide Core, Still, Left, Carried, Holding;
  }

  lemma AtRestIsStill(s: State)
    requires s.producer.Free? && s.calculator.CParked? && forall i :: 0 <= i < |s.writers| ==> s.writers[i].Parked?
    ensures Still(s)
  {
    hide Num;
  }

  // ----- Shutdown

  /** When everyone has left, at most w accepted items never reached the Calculator. */
  lemma BoundedLoss(w: nat, n: nat, s: State)
    requires w >= 1 && n >= 1 && Reachable(w, n, s)
    requires Num(s.writers, Gone) == w && s.calculator.CGone?
    ensures |s.api.hist| - s.calculation.out <= w
  {
    ReachableIsGood(w, n, s);
    AccountSize(s);
    Partition(s.writers);
  }

  /** A Writer that runs, or waits for nothing but a mutex, and has not yet left. */
  predicate Running(pc: WriterPc) {
    !pc.Parked? && !pc.Blocked? && !pc.Flagging? && !pc.Notifying? && !pc.Gone?
  }

  /** From the first exit of a Writer on, while Writers wait, more signals and woken Writers are on
      their way than items are left, so some Writer will find the queue empty and pass the order on. */
  lemma ExitIsRelayed(w: nat, n: nat, s: State)
    requires w >= 1 && n >= 1 && Reachable(w, n, s) && Left(s.writers) > 0
    ensures Num(s.writers, Parking) == 0
    ensures Num(s.writers, Parked) > 0 ==>
      s.api.Length() < Num(s.writers, Woken) + Num(s.writers, Quitting) + One(Signalling(s))
  {
    ReachableIsGood(w, n, s);
  }

  /** After WSSClient's return a waiting Writer has a pending signal or a running Writer, unless all that have not left
      wait too. That happens only before the first exit: then some Writer is blocked on the calculation queue, and the
      Calculator can take a step. */
  lemma NobodyForgotten(w: nat, n: nat, s: State, i: nat)
    requires w >= 1 && n >= 1 && Reachable(w, n, s)
    requires s.clientDone && i < |s.writers| && s.writers[i].Parked?
    ensures Signalling(s) || (exists j :: 0 <= j < |s.writers| && Running(s.writers[j]))
         || (Left(s.writers) == 0 && !s.calculation.exit && Num(s.writers, Blocked) > 0
             && exists target :: Can(s, Calculate(target)))
  {
    ReachableIsGood(w, n, s);
    Counted(s.writers, i);
    if !Signalling(s) && forall j :: 0 <= j < |s.writers| ==> !Running(s.writers[j]) {
      OnlyWaiting(s);
      var j := Someone(s.writers, Blocked);
      assert Can(s, Calculate(j));
    }
  }

  /** Both sides of that limit: all Writers waiting, one of them for items, is possible exactly with several Writers. */
  lemma EveryoneCanWait(w: nat, n: nat)
    requires w >= 1 && n >= 1
    ensures w >= 2 <==>
      exists s, i :: Reaches(Init(w, n), s) && WaitsAmongWaiting(s, i)
  {
    hide Reaches;
    if w >= 2 {
      var t := AllCanWait(w, n);
      assert WaitsAmongWaiting(t, 1);
    } else if s, i :| Reaches(Init(w, n), s) && WaitsAmongWaiting(s, i) {
      ReachesIsReachable(w, n, s);
      hide Reachable;
      TwoWait(w, n, s, i);
      assert false;
    }
  }

  lemma SomeoneBlocked(w: nat, n: nat, s: State, i: nat)
    requires w >= 1 && n >= 1 && Reachable(w, n, s) && WaitsAmongWaiting(s, i)
    ensures Num(s.writers, Blocked) > 0 && i < |s.writers| && s.writers[i].Parked?
  {
    hide Reachable, Num, Can, Signalling, Left;
    NobodyForgotten(w, n, s, i);
  }

  lemma TwoWait(w: nat, n: nat, s: State, i: nat)
    requires w >= 1 && n >= 1 && Reachable(w, n, s) && WaitsAmongWaiting(s, i)
    ensures w >= 2
  {
    hide Reachable, Num, Good;
    SomeoneBlocked(w, n, s, i);
    ReachableIsGood(w, n, s);
    hide WaitsAmongWaiting;
    var j := Someone(s.writers, Blocked);
  }

  lemma ReachesIsReachable(w: nat, n: nat, s: State)
    requires Reaches(Init(w, n), s)
    ensures Reachable(w, n, s)
  {
  }

  /** Writer i waits for items after WSSClient's return, no signal is pending and no Writer runs. */
  ghost predicate WaitsAmongWaiting(s: State, i: nat) {
    && s.clientDone && i < |s.writers| && s.writers[i].Parked? && !Signalling(s)
    && forall j :: 0 <= j < |s.writers| ==> !Running(s.writers[j])
  }

  /** Nobody runs, nothing is signalled: what the invariants leave. */
  lemma OnlyWaiting(s: State)
    requires Wakeups(s) && Flags(s) && ExitChain(s) && Relayed(s)
    requires s.api.out <= |s.api.hist| && s.calculation.capacity >= 1
    requires s.clientDone && Num(s.writers, Parked) > 0 && !Signalling(s)
    requires forall j :: 0 <= j < |s.writers| ==> !Running(s.writers[j])
    ensures Left(s.writers) == 0 && !s.calculation.exit && Num(s.writers, Blocked) > 0
    ensures !s.calculator.CParked? && !s.calculator.CGone?
  {
    forall pc | Running(pc)
      ensures Num(s.writers, pc) == 0
    {
      Absent(s.writers, pc);
    }
    hide Num;
  }

  /** With room for all but one Writer, a drain that cannot work on has let every Writer leave; and every drain
      stops working after boundedly many steps, whatever the minute handler does meanwhile. */
  lemma WritersLeave(w: nat, n: nat, s: State, steps: seq<Step>)
    requires w >= 1 && n + 1 >= w && n >= 1 && Reachable(w, n, s) && s.clientDone
    requires Plain(steps) && Feasible(s, steps)
    ensures WorkCount(s, steps) <= Potential(s)
    ensures (exists step :: Can(After(s, steps), step) && Works(After(s, steps), step))
         || Num(After(s, steps).writers, Gone) == w
  {
    ReachableIsGood(w, n, s);
    RunKeepsGood(s, steps);
    DrainIsBounded(s, steps);
    var t := After(s, steps);
    Partition(t.writers);
    if Num(t.writers, Gone) < w {
      hide Num, Can, Works;
      var step := DrainProgresses(t);
    }
  }

  /** A drain that can work no more has let every Writer leave, and the Calculator too if and only if it was heard;
      then at most w accepted items are lost. */
  lemma ShutdownCompletes(w: nat, n: nat, s: State, steps: seq<Step>)
    requires w >= 1 && n + 1 >= w && n >= 1 && Reachable(w, n, s) && s.clientDone
    requires Plain(steps) && Feasible(s, steps)
    requires !exists step :: Can(After(s, steps), step) && Works(After(s, steps), step)
    ensures var t := After(s, steps);
      && Num(t.writers, Gone) == w
      && (t.calculator.CGone? <==> t.book.heard)
      && (t.book.heard ==> |t.api.hist| - t.calculation.out <= w)
  {
    var t := After(s, steps);
    WritersLeave(w, n, s, steps);
    ReachableIsGood(w, n, s);
    RunKeepsGood(s, steps);
    if target :| Can(t, Calculate(target)) {
      assert Works(t, Calculate(target));
      assert false;
    }
    CalculatorAtRest(t);
    AccountSize(t);
    Partition(t.writers);
  }

  /** The same capacity bound is needed: with fewer places a Writer can wait for ever. */
  lemma WritersNeedRoom(w: nat, n: nat)
    requires w >= 1 && n >= 1
    ensures n + 1 < w <==>
      exists s, i :: Reaches(Init(w, n), s) && Forsaken(s, i)
  {
    if n + 1 < w {
      var t := WriterCanBeForsaken(w, n);
    } else if s, i :| Reaches(Init(w, n), s) && Forsaken(s, i) {
      assert Reachable(w, n, s);
      ReachableIsGood(w, n, s);
      Counted(s.writers, i);
      assert false;
    }
  }

  /** When all Writers have gone and the Calculator can do nothing more, it has left if and only if some wake-up
      after the exit order found it outside the gap between its test and its wait; otherwise it waits. */
  lemma CalculatorLeaves(w: nat, n: nat, s: State)
    requires w >= 1 && n >= 1 && Reachable(w, n, s)
    requires Num(s.writers, Gone) == w && !exists target :: Can(s, Calculate(target))
    ensures s.calculator.CGone? <==> s.book.heard
    ensures s.calculator.CParked? <==> !s.book.heard
  {
    ReachableIsGood(w, n, s);
    CalculatorAtRest(s);
  }

  /** The gap is real: for every size there is a run whose Calculator waits for ever. */
  lemma CalculatorCanHang(w: nat, n: nat)
    ensures exists s ::
      && Reaches(Init(w, n), s) && Num(s.writers, Gone) == w
      && forall steps :: Plain(steps) && Feasible(s, steps) ==> After(s, steps).calculator.CParked?
  {
    SignalCanBeLost(w, n);
    var s := Stranded(w, n);
    forall steps | Plain(steps) && Feasible(s, steps)
      ensures After(s, steps).calculator.CParked?
    {
      StrandedForEver(s, steps);
    }
  }

  /** A wake-up of the Calculator that follows the calculation exit order and is not lost. */
  predicate Audible(s: State, step: Step) {
    && s.calculation.exit && s.calculator != CParking
    && (step.SpuriousCalculator?
        || (step.Write? && step.i < |s.writers| && (s.writers[step.i].Delivered? || s.writers[step.i].Notifying?)))
  }

  /** The k-th step of the run was one. */
  predicate WasAudible(s: State, steps: seq<Step>, k: nat) {
    k < |steps| && Feasible(s, steps[..k]) && Audible(After(s, steps[..k]), steps[k])
  }

  lemma StepHeard(s: State, step: Step)
    requires Can(s, step)
    ensures Do(s, step).book.heard <==> s.book.heard || Audible(s, step)
  {
    hide Num, MayWake;
  }

  lemma AudibleShifts(s: State, steps: seq<Step>, k: nat)
    requires steps != [] && Can(s, steps[0])
    ensures WasAudible(s, steps, 0) <==> Audible(s, steps[0])
    ensures WasAudible(s, steps, k + 1) <==> WasAudible(Do(s, steps[0]), steps[1..], k)
  {
    hide Do, Can, Audible;
    assert steps[..0] == [];
    if k + 1 < |steps| {
      assert steps[..k + 1][0] == steps[0] && steps[..k + 1][1..] == steps[1..][..k];
    }
  }

  /** After a run the Calculator counts as heard exactly if some step of the run was such a wake-up. */
  lemma {:induction false} RunHeard(s: State, steps: seq<Step>)
    requires Feasible(s, steps)
    ensures After(s, steps).book.heard <==> s.book.heard || exists k: nat :: WasAudible(s, steps, k)
    decreases |steps|
  {
    if steps != [] {
      var t := Do(s, steps[0]);
      hide Do, Can, Audible, WasAudible;
      StepHeard(s, steps[0]);
      RunHeard(t, steps[1..]);
      AudibleShifts(s, steps, 0);
      if k: nat :| WasAudible(s, steps, k) && k > 0 {
        AudibleShifts(s, steps, k - 1);
      }
      if k: nat :| WasAudible(t, steps[1..], k) {
        AudibleShifts(s, steps, k);
      }
    }
  }

  /** So the Calculator of a run that is over has left if and only if some wake-up in the run was audible. */
  lemma CalculatorWasHeard(w: nat, n: nat, steps: seq<Step>)
    requires w >= 1 && n >= 1 && Feasible(Init(w, n), steps)
    requires var s := After(Init(w, n), steps);
      Num(s.writers, Gone) == w && !exists target :: Can(s, Calculate(target))
    ensures After(Init(w, n), steps).calculator.CGone? <==> exists k: nat :: WasAudible(Init(w, n), steps, k)
  {
    assert Reachable(w, n, After(Init(w, n), steps));
    CalculatorLeaves(w, n, After(Init(w, n), steps));
    RunHeard(Init(w, n), steps);
  }

  // ----- Wake-ups

  /** Whoever waits, what it waits for does not exceed the signals and woken threads on their way. */
  lemma NoLostWakeup(w: nat, n: nat, s: State)
    requires w >= 1 && n >= 1 && Reachable(w, n, s)
    ensures Num(s.writers, Parked) > 0 ==>
      s.api.Length() <= Num(s.writers, Woken) + Num(s.writers, Quitting) + One(Signalling(s))
    ensures s.producer.Active? && s.producer.pc.PBlocked? ==>
      n - s.api.Length() <= Num(s.writers, Took)
    ensures Num(s.writers, Blocked) > 0 ==>
      n - s.calculation.Length() <= Num(s.writers, Unblocked) + One(s.calculator.CTook?)
    ensures s.calculator.CParked? ==>
      s.calculation.Length() <= Num(s.writers, Delivered) + Num(s.writers, Notifying)
  {
    ReachableIsGood(w, n, s);
  }

  // ----- Conservation and order

  /** Each accepted item is in exactly one place, and nothing is dropped before the calculation exit order. */
  lemma Conservation(w: nat, n: nat, s: State)
    requires w >= 1 && n >= 1 && Reachable(w, n, s)
    ensures |s.writers| == |s.book.hands| && s.api.out <= |s.api.hist|
    ensures Range(|s.api.hist|)
         == Between(s.api.out, |s.api.hist|) + Carried(false, s.writers, s.book.hands)
            + multiset(s.calculation.hist) + multiset(s.book.dropped)
    ensures s.book.dropped != [] ==> s.calculation.exit
    ensures |s.api.hist| == s.api.Length() + Holding(s.writers) + |s.calculation.hist| + |s.book.dropped|
  {
    ReachableIsGood(w, n, s);
    AccountSize(s);
    RangeSplits(s.api.out, |s.api.hist|);
  }

  /** The positions from a up to b. */
  function Between(a: nat, b: nat): multiset<nat> {
    if b <= a then multiset{} else Between(a, b - 1) + multiset{b - 1}
  }

  lemma Regroup(a: multiset<nat>, b: multiset<nat>, c: multiset<nat>)
    ensures (a + b) + c == a + (b + c)
  {
  }

  lemma {:induction false} RangeSplits(a: nat, b: nat)
    requires a <= b
    ensures Range(b) == Range(a) + Between(a, b)
    decreases b
  {
    if a < b {
      RangeSplits(a, b - 1);
      assert Range(b) == Range(b - 1) + multiset{b - 1};
      assert Between(a, b) == Between(a, b - 1) + multiset{b - 1};
      hide Range, Between;
      Regroup(Range(a), Between(a, b - 1), multiset{b - 1});
    }
  }

  /** Every trade that reached the calculation queue was logged exactly once before; directives never are. */
  lemma LoggedFirst(w: nat, n: nat, s: State, m: nat)
    requires w >= 1 && n >= 1 && Reachable(w, n, s) && m < |s.calculation.hist|
    ensures s.calculation.hist[m] < |s.api.hist|
    ensures multiset(s.book.log)[s.calculation.hist[m]] == One(s.api.hist[s.calculation.hist[m]].trade.v > -1.0)
  {
    ReachableIsGood(w, n, s);
    var k := s.calculation.hist[m];
    CarriedFacts(s.writers, s.book.hands);
    RangeFacts(s.api.out);
    hide Carried, Range, Good;
    assert k in multiset(s.calculation.hist);
    assert 1 <= multiset(s.calculation.hist)[k] <= Handed(true, s)[k] <= Handed(false, s)[k];
  }

  /** When an item, say a directive, enters the calculation queue, at most w - 1 older ones are missing that will not be
      dropped; its position there is at most w - 1, and one for each dropped item, below its position in the api queue;
      each Writer keeps api order. Before the calculation exit order nothing is dropped. */
  lemma Overtaking(w: nat, n: nat, s: State)
    requires w >= 1 && n >= 1 && Reachable(w, n, s)
    ensures forall m :: 0 <= m < |s.calculation.hist| ==> s.calculation.hist[m] - m <= w - 1 + |s.book.dropped|
    ensures forall m :: 0 <= m < |s.calculation.hist| ==> |Late(s, m)| <= w - 1
    ensures |s.book.carriers| == |s.calculation.hist|
    ensures forall m :: 0 <= m < |s.book.carriers| ==> s.book.carriers[m] < w
    ensures forall l, m :: 0 <= l < m < |s.calculation.hist| && s.book.carriers[l] == s.book.carriers[m] ==>
      s.calculation.hist[l] < s.calculation.hist[m]
    ensures !s.calculation.exit ==> s.book.dropped == []
    ensures |s.book.dropped| <= w
  {
    ReachableIsGood(w, n, s);
    AtMostDropped(s);
  }

  lemma AtMostDropped(s: State)
    requires Core(s)
    ensures |s.book.dropped| <= |s.writers|
  {
    hide Num, Left, Holding;
  }

  /** When a directive enters the calculation queue, at most w - 1 of the trades accepted before it have neither entered
      yet nor been dropped, so at most that many are counted in a later minute. */
  lemma MinuteBoundary(w: nat, n: nat, s: State, m: nat)
    requires w >= 1 && n >= 1 && Reachable(w, n, s) && m < |s.calculation.hist|
    ensures var d := s.calculation.hist[m];
      && d < |s.api.hist|
      && |set k | 0 <= k < d && s.api.hist[k].trade.v > -1.0
                  && k !in s.calculation.hist[..m] && k !in s.book.dropped| <= w - 1
    ensures !s.calculation.exit ==> s.book.dropped == []
  {
    InApiHistory(w, n, s, m);
    hide Reachable;
    Overtaking(w, n, s);
    var hist := s.calculation.hist;
    var late := set k | 0 <= k < hist[m] && s.api.hist[k].trade.v > -1.0 && k !in hist[..m] && k !in s.book.dropped;
    assert late <= Late(s, m);
    Subset(late, Late(s, m));
  }

  lemma InApiHistory(w: nat, n: nat, s: State, m: nat)
    requires w >= 1 && n >= 1 && Reachable(w, n, s) && m < |s.calculation.hist|
    ensures s.calculation.hist[m] < |s.api.hist|
  {
    ReachableIsGood(w, n, s);
  }

  /** One Writer keeps the order: the calculation history is the api history, as far as it has come. */
  lemma SingleWriterKeepsOrder(n: nat, s: State, m: nat)
    requires n >= 1 && Reachable(1, n, s) && m < |s.calculation.hist|
    ensures s.book.dropped == []
    ensures s.calculation.hist[m] == m
  {
    ReachableIsGood(1, n, s);
    SingleIncreases(s, m);
  }

  lemma SingleIncreases(s: State, m: nat)
    requires Good(s) && |s.writers| == 1 && m < |s.calculation.hist|
    ensures s.calculation.hist[m] >= m
  {
    hide Core, Conserved, Logged, BoundedOvertaking, Submitted, Quota, RoomAfterExit, Hearing;
    if m > 0 {
      SingleIncreases(s, m - 1);
      assert s.book.carriers[m - 1] == s.book.carriers[m];
    }
  }

  // ----- The producer end

  /** The accepted history is whole messages and single directives, in the order and with the items in which the run
      submits them, with at most the last one cut short; all of them while nothing has been rejected and nobody is
      submitting. */
  lemma BatchesStayWhole(w: nat, n: nat, steps: seq<Step>) returns (m: nat, j: nat)
    requires w >= 1 && n >= 1 && Feasible(Init(w, n), steps)
    ensures m <= |Blocks(steps)| && (m < |Blocks(steps)| ==> j < |Blocks(steps)[m]|)
    ensures var s := After(Init(w, n), steps);
      && s.api.hist == Cut(Blocks(steps), m, j)
      && (s.book.rejected == [] ==> s.api.hist + Rest(s.producer) == Concat(Blocks(steps)))
      && (m < |Blocks(steps)| ==> s.book.rejected != [] || s.producer.Active?)
      && (s.book.rejected != [] ==> s.api.exit)
  {
    var s := After(Init(w, n), steps);
    AcceptedInOrder(w, n, steps);
    hide Cut, Concat, Blocks, Feasible, After;
    m, j := CutOfConcat(Blocks(steps), s.api.hist);
  }

  lemma AcceptedInOrder(w: nat, n: nat, steps: seq<Step>)
    requires w >= 1 && n >= 1 && Feasible(Init(w, n), steps)
    ensures var s := After(Init(w, n), steps);
      && s.api.hist <= Concat(Blocks(steps))
      && (s.book.rejected == [] ==> s.api.hist + Rest(s.producer) == Concat(Blocks(steps)))
      && (s.book.rejected == [] && Rest(s.producer) == [] ==> s.api.hist == Concat(Blocks(steps)))
      && (s.book.rejected != [] ==> s.api.exit)
  {
    var s := After(Init(w, n), steps);
    assert Reachable(w, n, s);
    RunSubmitsBlocks(Init(w, n), steps);
    hide Flatten, Concat, Blocks, Reachable, Feasible, After, Core, Conserved, Logged, Indexed, Ordered;
    hide BoundedOvertaking, SoleWriterDelivers, Quota, DirectivesCounted, RoomAfterExit, Hearing, Relayed;
    ReachableIsGood(w, n, s);
    assert s.book.rejected != [] ==> s.api.exit by { RejectedAfterExit(s); }
    SubmissionIsPrefix(s.api.hist, s.book.rejected, Rest(s.producer), Flatten(s.book.batches));
  }

  lemma RejectedAfterExit(s: State)
    requires Core(s)
    ensures s.book.rejected != [] ==> s.api.exit
  {}

  lemma SubmissionIsPrefix(hist: seq<WorkItem>, rejected: seq<WorkItem>, rest: seq<WorkItem>, all: seq<WorkItem>)
    requires hist + rejected + rest == all
    ensures hist <= all
    ensures rejected == [] ==> hist + rest == all
    ensures rejected == [] && rest == [] ==> hist == all
  {}

  lemma {:induction false} HistoryIsFinal(s: State, steps: seq<Step>)
    requires Good(s) && s.book.rejected != [] && Feasible(s, steps)
    ensures After(s, steps).api.hist == s.api.hist
    decreases |steps|
  {
    if steps != [] {
      assert Closing(s);
      hide Do, Can, Good;
      StepKeepsGood(s, steps[0]);
      RejectionIsFinal(s, steps[0]);
      HistoryIsFinal(Do(s, steps[0]), steps[1..]);
    }
  }

  /** After a rejection nothing is accepted any more. */
  lemma NothingAfterRejection(w: nat, n: nat, s: State, steps: seq<Step>)
    requires w >= 1 && n >= 1 && Reachable(w, n, s) && s.book.rejected != [] && Feasible(s, steps)
    ensures After(s, steps).api.hist == s.api.hist
  {
    ReachableIsGood(w, n, s);
    HistoryIsFinal(s, steps);
  }

  /** No run accepts more than 2880 directives of the minute handler. */
  lemma DirectiveQuota(w: nat, n: nat, steps: seq<Step>)
    requires w >= 1 && n >= 1 && Feasible(Init(w, n), steps)
    ensures var s := After(Init(w, n), steps);
      && DirectivesWithin(BatchesIn(steps), |s.api.hist|) <= 2880
      && DirectivesWithin(BatchesIn(steps), |s.api.hist|) <= Ticks(steps)
      && (!s.api.exit ==> Ticks(steps) <= 2880)
  {
    var s := After(Init(w, n), steps);
    assert Reachable(w, n, s);
    RunSubmitsBlocks(Init(w, n), steps);
    RunRaises(Init(w, n), steps, false);
    hide Reachable, Feasible, After;
    QuotaReached(w, n, s);
  }

  lemma QuotaReached(w: nat, n: nat, s: State)
    requires w >= 1 && n >= 1 && Reachable(w, n, s)
    ensures DirectivesWithin(s.book.batches, |s.api.hist|) <= 2880
    ensures DirectivesWithin(s.book.batches, |s.api.hist|) <= s.book.ticks
    ensures !s.api.exit ==> s.book.ticks <= 2880
  {
    ReachableIsGood(w, n, s);
  }

  /** The api exit order has been given if and only if the run was interrupted, or the minute handler has been called
      2880 times and has released the producer lock after that call. */
  lemma ExitIsOrdered(w: nat, n: nat, steps: seq<Step>)
    requires Feasible(Init(w, n), steps)
    ensures var s := After(Init(w, n), steps);
      s.api.exit <==>
        || Interrupt in steps || Ticks(steps) > 2880
        || (Ticks(steps) == 2880 && !(s.producer.Active? && s.producer.timer))
  {
    RunRaises(Init(w, n), steps, false);
  }
}
