/** Progress: all work is paid for by what comes in, so the pipeline comes to rest; at rest before the exit order it is
    empty; after WSSClient's return the Writers all leave, and the Calculator unless its signal was lost. */
module Drain {
  import opened Pipeline
  import opened Totals
  import opened Safety

  // Weights. A step of a Writer, the Calculator or a submitting producer costs at least one unit more than the
  // threads it wakes and the items it moves gain.

  function Weight(pc: WriterPc): nat {
    match pc
    case Ready => 8
    case Parking => 7
    case Parked => 6
    case Woken => 8
    case Took => 19
    case Logging => 17
    case Offering => 16
    case Blocked => 15
    case Unblocked => 16
    case Delivered => 11
    case Quitting => 7
    case Flagging => 4
    case Notifying => 3
    case Gone => 0
  }

  function WriterWeights(ws: seq<WriterPc>): nat {
    if ws == [] then 0 else WriterWeights(ws[..|ws| - 1]) + Weight(ws[|ws| - 1])
  }

  lemma {:induction false} MoveWeights(ws: seq<WriterPc>, i: nat, to: WriterPc)
    requires i < |ws|
    ensures WriterWeights(ws[i := to]) == WriterWeights(ws) - Weight(ws[i]) + Weight(to)
  {
    hide Weight;
    var n := |ws| - 1;
    if i == n {
      assert ws[i := to][..n] == ws[..n];
    } else {
      assert ws[i := to][..n] == ws[..n][i := to];
      MoveWeights(ws[..n], i, to);
    }
  }

  lemma WakeWeights(ws: seq<WriterPc>, from: WriterPc, to: WriterPc, target: nat)
    requires MayWake(ws, from, target) && Weight(to) >= Weight(from)
    ensures WriterWeights(Wake(ws, from, to, target)) <= WriterWeights(ws) + Weight(to) - Weight(from)
  {
    hide WriterWeights;
    if target < |ws| && ws[target] == from {
      MoveWeights(ws, target, to);
    }
  }

  lemma WeightsMove(s: State, i: nat, target: nat)
    requires CanWrite(s, i, target)
    ensures WriterWeights(WriterTurn(s, i, target).writers)
         <= WriterWeights(s.writers) - Weight(s.writers[i]) + Weight(Next(s, i, target))
          + 2 * One(s.writers[i].Quitting?)
  {
    hide WriterWeights, Num, WriterTurn, Next;
    WriterGoes(s, i, target);
    MoveWeights(s.writers, i, Next(s, i, target));
    if s.writers[i].Quitting? {
      WakeWeights(s.writers[i := Flagging], Parked, Woken, target);
    }
  }

  function CalculatorWeight(pc: CalcPc): nat {
    match pc
    case CReady => 2
    case CParking => 1
    case CParked => 0
    case CWoken => 2
    case CTook => 5
    case CWorking => 3
    case CQuitting => 1
    case CGone => 0
  }

  /** After the exit order the producer stores at most the one item it waits with. */
  function ProducerWeight(p: Producer, exit: bool): nat {
    if p.Free? then 0 else
    match p.pc
    case PReady => if exit then 0 else 16 * |p.rest| + 1
    case PBlocked => if exit then 15 else 16 * |p.rest|
    case PUnblocked => if exit then 16 else 16 * |p.rest| + 1
    case PSignal => if exit then 3 else 16 * |p.rest| + 4
  }

  /** What the Calculator, the producer and the queued items weigh. */
  function OtherWeights(s: State): int {
    CalculatorWeight(s.calculator) + ProducerWeight(s.producer, s.api.exit)
    + 12 * s.api.Length() + 4 * s.calculation.Length()
  }

  function Potential(s: State): int {
    WriterWeights(s.writers) + OtherWeights(s)
  }

  /** Steps that move items or threads on; what remains are submissions, refusals after the exit order, and WSSClient's
      own signals. */
  predicate Works(s: State, step: Step) {
    step.Write? || step.Calculate?
    || (step.Produce? && s.producer.Active? && !(s.producer.pc.PReady? && s.api.exit))
  }

  /** What a step brings in from outside. */
  function Intake(s: State, step: Step): nat {
    match step
    case Receive(trades) => if s.api.exit then 0 else 16 * |trades| + 1
    case Tick(_) => if s.api.exit then 0 else 17
    case HangUp(_) => 2
    case ClientReturns(_) => 2
    case _ => 0
  }

  predicate Spurious(step: Step) {
    step.SpuriousWriter? || step.SpuriousProducer? || step.SpuriousCalculator?
  }

  ghost predicate Draining(s: State) {
    Core(s) && s.clientDone
  }

  // ----- Every working step uses up potential

  lemma RemoveCosts(s: State, i: nat)
    requires i < |s.writers| && i < |s.book.hands| && (s.writers[i].Ready? || s.writers[i].Woken?)
    ensures OtherWeights(RemoveTurn(s, i)) + Weight(RemoveTurn(s, i).writers[i])
         < OtherWeights(s) + Weight(s.writers[i])
  {
  }

  lemma PutCosts(s: State, i: nat, resumed: bool)
    requires i < |s.writers| && i < |s.book.hands| && (s.writers[i].Offering? || s.writers[i].Unblocked?)
    ensures OtherWeights(PutCalc(s, i, resumed)) + Weight(PutCalc(s, i, resumed).writers[i])
         < OtherWeights(s) + Weight(s.writers[i])
  {
  }

  lemma WakeProducerCosts(p: Producer, exit: bool)
    ensures ProducerWeight(WakeProducer(p), exit) <= ProducerWeight(p, exit) + 1
  {
  }

  /** What a Writer's turn adds outside the Writers is less than what the Writer itself gives up. */
  lemma TurnCosts(s: State, i: nat, target: nat)
    requires CanWrite(s, i, target)
    ensures OtherWeights(WriterTurn(s, i, target)) + Weight(Next(s, i, target)) + 2 * One(s.writers[i].Quitting?)
         < OtherWeights(s) + Weight(s.writers[i])
  {
    hide Num, Wake, MayWake, RemoveTurn, PutCalc, ProducerWeight, WakeProducer;
    WakeProducerCosts(s.producer, s.api.exit);
    if s.writers[i].Ready? || s.writers[i].Woken? {
      RemoveCosts(s, i);
    } else if s.writers[i].Offering? || s.writers[i].Unblocked? {
      PutCosts(s, i, s.writers[i].Unblocked?);
    }
  }

  lemma WriterUses(s: State, i: nat, target: nat)
    requires CanWrite(s, i, target)
    ensures Potential(WriterTurn(s, i, target)) < Potential(s)
  {
    TurnCosts(s, i, target);
    hide Num, WriterWeights, WriterTurn, Next, Weight, OtherWeights;
    WeightsMove(s, i, target);
  }

  lemma CalculatorUses(s: State, target: nat)
    requires CanCalculate(s, target)
    ensures Potential(CalculatorTurn(s, target)) < Potential(s)
  {
    hide Num, WriterWeights;
    if s.calculator.CTook? {
      WakeWeights(s.writers, Blocked, Unblocked, target);
    }
  }

  lemma ProducerUses(s: State, target: nat)
    requires CanProduce(s, target)
    ensures Potential(ProducerTurn(s, target)) + One(!(s.producer.pc.PReady? && s.api.exit)) <= Potential(s)
  {
    hide Num, WriterWeights;
    if s.producer.pc.PSignal? {
      WakeWeights(s.writers, Parked, Woken, target);
    }
  }

  lemma StepUses(s: State, step: Step)
    requires Bounded(s) && Can(s, step) && !Spurious(step)
    ensures Potential(Do(s, step)) + One(Works(s, step)) <= Potential(s) + Intake(s, step)
  {
    hide Num, WriterTurn, CanWrite, CalculatorTurn, CanCalculate, ProducerTurn, WriterWeights;
    match step
    case Write(i, target) => WriterUses(s, i, target);
    case Calculate(target) => CalculatorUses(s, target);
    case Produce(target) => ProducerUses(s, target);
    case HangUp(target) => WakeWeights(s.writers, Parked, Woken, target);
    case ClientReturns(target) => WakeWeights(s.writers, Parked, Woken, target);
    case _ =>
  }

  function WorkCount(s: State, steps: seq<Step>): nat
    requires Feasible(s, steps)
    decreases |steps|
  {
    if steps == [] then 0 else One(Works(s, steps[0])) + WorkCount(Do(s, steps[0]), steps[1..])
  }

  function Intakes(s: State, steps: seq<Step>): nat
    requires Feasible(s, steps)
    decreases |steps|
  {
    if steps == [] then 0 else Intake(s, steps[0]) + Intakes(Do(s, steps[0]), steps[1..])
  }

  /** However threads interleave, they make no more working steps than the potential at the start and what comes in. */
  lemma {:induction false} WorkIsPaidFor(s: State, steps: seq<Step>)
    requires Core(s) && Feasible(s, steps)
    requires forall step :: step in steps ==> !Spurious(step)
    ensures Core(After(s, steps))
    ensures WorkCount(s, steps) + Potential(After(s, steps)) <= Potential(s) + Intakes(s, steps)
    ensures 0 <= Potential(After(s, steps))
    decreases |steps|
  {
    hide Core, Potential, Can, Do, Works, Spurious, Intake;
    if steps != [] {
      assert Bounded(s) by {
        BoundedCore(s);
      }
      hide Bounded;
      StepUses(s, steps[0]);
      StepKeepsCore(s, steps[0]);
      WorkIsPaidFor(Do(s, steps[0]), steps[1..]);
    } else {
      BoundedCore(s);
      PotentialIsNatural(s);
    }
  }

  lemma BoundedCore(s: State)
    requires Core(s)
    ensures Bounded(s)
  {
  }

  lemma PotentialIsNatural(s: State)
    requires Bounded(s)
    ensures 0 <= Potential(s)
  {
    hide WriterWeights;
  }

  // ----- After WSSClient's return nothing comes in

  lemma NothingComesIn(s: State, step: Step)
    requires Closing(s) && s.clientDone && Can(s, step)
    ensures Intake(s, step) == 0 && Do(s, step).clientDone
  {
    hide Num, MayWake;
  }

  /** However the refused minute handler interleaves, a drain has no more working steps than its potential. */
  lemma {:induction false} DrainIsBounded(s: State, steps: seq<Step>)
    requires Draining(s) && Feasible(s, steps)
    requires forall step :: step in steps ==> !Spurious(step)
    ensures Draining(After(s, steps))
    ensures WorkCount(s, steps) + Potential(After(s, steps)) <= Potential(s)
    ensures 0 <= Potential(After(s, steps))
    decreases |steps|
  {
    NothingEverComesIn(s, steps);
    WorkIsPaidFor(s, steps);
  }

  lemma {:induction false} NothingEverComesIn(s: State, steps: seq<Step>)
    requires Draining(s) && Feasible(s, steps)
    ensures Intakes(s, steps) == 0 && Draining(After(s, steps))
    decreases |steps|
  {
    if steps != [] {
      assert Closing(s);
      hide Core, Can, Do, Intake, Closing;
      NothingComesIn(s, steps[0]);
      StepKeepsCore(s, steps[0]);
      NothingEverComesIn(Do(s, steps[0]), steps[1..]);
    }
  }

  // ----- Before any Writer has left, only an empty pipeline stands still

  /** Nobody can do anything: no working step, and nothing left to submit or refuse. */
  ghost predicate Still(s: State) {
    forall step :: Can(s, step) ==> !Works(s, step) && !step.Produce?
  }

  lemma StillWriter(s: State, i: nat)
    requires Still(s) && Tested(s) && Left(s.writers) == 0 && !s.calculator.CParking? && i < |s.writers|
    requires |s.book.hands| == |s.writers|
    requires Num(s.writers, Parking) == 0
    ensures s.writers[i].Parked? || s.writers[i].Blocked?
  {
    Counted(s.writers, i);
    assert Works(s, Write(i, 0));
    assert !Can(s, Write(i, 0));
    hide Num;
  }

  lemma StillCalculator(s: State)
    requires Still(s) && !s.calculator.CGone?
    ensures s.calculator.CParked?
  {
    if s.calculator.CTook? && Num(s.writers, Blocked) > 0 {
      var target := Someone(s.writers, Blocked);
      assert Can(s, Calculate(target)) && Works(s, Calculate(target));
    } else {
      assert Works(s, Calculate(0));
      assert !Can(s, Calculate(0));
    }
  }

  lemma StillProducer(s: State)
    requires Still(s) && Bounded(s) && Num(s.writers, Parking) == 0
    ensures s.producer.Active? ==> s.producer.pc.PBlocked?
  {
    if s.producer.Active? && s.producer.pc.PSignal? && Num(s.writers, Parked) > 0 {
      var target := Someone(s.writers, Parked);
      assert Can(s, Produce(target));
    } else {
      assert !Can(s, Produce(0));
    }
  }

  lemma StillIsEmpty(s: State)
    requires Core(s) && Still(s) && Left(s.writers) == 0
    ensures s.producer.Free? && s.api.Empty() && s.calculation.Empty() && Holding(s.writers) == 0
    ensures s.book.dropped == [] && s.calculator.CParked?
    ensures forall i :: 0 <= i < |s.writers| ==> s.writers[i].Parked?
  {
    if Num(s.writers, Parking) > 0 {
      var i := Someone(s.writers, Parking);
      assert Can(s, Write(i, 0)) && Works(s, Write(i, 0));
    }
    StillCalculator(s);
    StillProducer(s);
    forall i | 0 <= i < |s.writers|
      ensures s.writers[i].Parked? || s.writers[i].Blocked?
    {
      StillWriter(s, i);
    }
    forall pc: WriterPc | !pc.Parked? && !pc.Blocked?
      ensures Num(s.writers, pc) == 0
    {
      if Num(s.writers, pc) > 0 {
        var i := Someone(s.writers, pc);
      }
    }
    assert Num(s.writers, Blocked) == 0;
    forall i | 0 <= i < |s.writers|
      ensures s.writers[i].Parked?
    {
      Counted(s.writers, i);
    }
    Counted(s.writers, 0);
  }

  // ----- With room for all but one Writer, nobody stays blocked behind a Calculator that left

  ghost predicate RoomAfterExit(s: State) {
    CalcLeft(s) && |s.writers| <= s.calculation.capacity + 1 ==>
      Num(s.writers, Blocked) == 0 && s.calculation.Length() + Num(s.writers, Unblocked) <= s.calculation.capacity
  }

  lemma WriterKeepsRoom(s: State, i: nat, target: nat)
    requires Shape(s) && Flags(s) && RoomAfterExit(s) && CanWrite(s, i, target)
    ensures RoomAfterExit(WriterTurn(s, i, target))
  {
    hide Num, Left, MayWake, Wake, Tested;
    if CalcLeft(s) {
      WriterKeepsSize(s, i, target);
      WriterCounts(s, i, target);
    }
  }

  lemma WakeKeepsRoom(s: State, ws: seq<WriterPc>, target: nat)
    requires RoomAfterExit(s) && MayWake(s.writers, Parked, target) && ws == Wake(s.writers, Parked, Woken, target)
    ensures |ws| == |s.writers|
    ensures Num(ws, Blocked) == Num(s.writers, Blocked) && Num(ws, Unblocked) == Num(s.writers, Unblocked)
  {
    hide Num;
    Waken(s.writers, Parked, Woken, target);
  }

  lemma CalculatorKeepsRoom(s: State, target: nat)
    requires Core(s) && RoomAfterExit(s) && CanCalculate(s, target)
    ensures RoomAfterExit(CalculatorTurn(s, target))
  {
    hide Num;
    Partition(s.writers);
    if s.calculator.CTook? {
      Waken(s.writers, Blocked, Unblocked, target);
    }
  }

  lemma SpuriousKeepsRoom(s: State, i: nat)
    requires RoomAfterExit(s) && Can(s, SpuriousWriter(i))
    ensures RoomAfterExit(Do(s, SpuriousWriter(i)))
  {
    hide Num;
    if s.writers[i].Parked? {
      Moved(s.writers, i, Woken);
    } else {
      Moved(s.writers, i, Unblocked);
    }
  }

  lemma StepKeepsRoom(s: State, step: Step)
    requires Core(s) && RoomAfterExit(s) && Can(s, step)
    ensures RoomAfterExit(Do(s, step))
  {
    hide Num, WriterTurn, CanWrite, CalculatorTurn, CanCalculate, Wake;
    hide Wakeups, ExitChain, LossAtExit, LossAtEnd, Closing, Bounded, Tested, Left;
    match step
    case Write(i, target) => WriterKeepsRoom(s, i, target);
    case Calculate(target) => CalculatorKeepsRoom(s, target);
    case Produce(target) =>
      if s.producer.pc.PSignal? {
        WakeKeepsRoom(s, Wake(s.writers, Parked, Woken, target), target);
      }
    case HangUp(target) => WakeKeepsRoom(s, Wake(s.writers, Parked, Woken, target), target);
    case ClientReturns(target) => WakeKeepsRoom(s, Wake(s.writers, Parked, Woken, target), target);
    case SpuriousWriter(i) => SpuriousKeepsRoom(s, i);
    case _ =>
  }

  // ----- Some working step is possible until every Writer has left

  /** Writers that can move as soon as the mutex they want is free. */
  predicate Movable(pc: WriterPc) {
    !pc.Parking? && !pc.Parked? && !pc.Blocked? && !pc.Gone?
  }

  lemma MovableWorks(s: State, i: nat) returns (step: Step)
    requires Draining(s) && i < |s.writers| && Movable(s.writers[i])
    ensures Can(s, step) && Works(s, step)
  {
    hide Num;
    if s.writers[i].Quitting? && Num(s.writers, Parked) > 0 {
      var target := Someone(s.writers, Parked);
      step := Write(i, target);
    } else if s.calculator.CParking? {
      step := Calculate(0);
    } else {
      step := Write(i, 0);
    }
  }

  /** With no movable Writer, those that remain are blocked, and the Calculator still serves them. */
  lemma BlockedWorks(s: State) returns (step: Step)
    requires Draining(s) && RoomAfterExit(s) && |s.writers| <= s.calculation.capacity + 1
    requires forall i :: 0 <= i < |s.writers| ==> !Movable(s.writers[i])
    requires Num(s.writers, Gone) < |s.writers| && !Signalling(s)
    ensures Can(s, step) && Works(s, step)
  {
    Partition(s.writers);
    assert Num(s.writers, Blocked) > 0;
    hide Num;
    if s.calculator.CTook? {
      var target := Someone(s.writers, Blocked);
      step := Calculate(target);
    } else {
      step := Calculate(0);
    }
  }

  lemma DrainProgresses(s: State) returns (step: Step)
    requires Draining(s) && RoomAfterExit(s) && |s.writers| <= s.calculation.capacity + 1
    requires Num(s.writers, Gone) < |s.writers|
    ensures Can(s, step) && Works(s, step)
  {
    hide Num;
    if i :| 0 <= i < |s.writers| && Movable(s.writers[i]) {
      step := MovableWorks(s, i);
    } else if Signalling(s) {
      if Num(s.writers, Parked) > 0 {
        var target := Someone(s.writers, Parked);
        step := Produce(target);
      } else {
        step := Produce(0);
      }
    } else {
      step := BlockedWorks(s);
    }
  }

  // ----- The Calculator leaves exactly if a wake-up reached it after the exit order

  ghost predicate Hearing(s: State) {
    && (s.book.heard ==> s.calculation.exit && !s.calculator.CParking? && !s.calculator.CParked?)
    && (!s.book.heard && Num(s.writers, Gone) > 0 ==> s.calculator.CParking? || s.calculator.CParked?)
  }

  lemma WriterKeepsHearing(s: State, i: nat, target: nat)
    requires Flags(s) && Hearing(s) && CanWrite(s, i, target)
    ensures Hearing(WriterTurn(s, i, target))
  {
    hide Num;
    WriterCounts(s, i, target);
  }

  lemma StepKeepsHearing(s: State, step: Step)
    requires Flags(s) && Hearing(s) && Can(s, step)
    ensures Hearing(Do(s, step))
  {
    hide Num, WriterTurn, CanWrite;
    match step
    case Write(i, target) => WriterKeepsHearing(s, i, target);
    case Produce(target) =>
      if s.producer.pc.PSignal? {
        Waken(s.writers, Parked, Woken, target);
      }
    case HangUp(target) => Waken(s.writers, Parked, Woken, target);
    case ClientReturns(target) => Waken(s.writers, Parked, Woken, target);
    case Calculate(target) =>
      if s.calculator.CTook? {
        Waken(s.writers, Blocked, Unblocked, target);
      }
    case SpuriousWriter(i) =>
      if s.writers[i].Parked? {
        Moved(s.writers, i, Woken);
      } else {
        Moved(s.writers, i, Unblocked);
      }
    case _ =>
  }

  /** All Writers gone and nothing left to do: the Calculator has left if it was heard, and waits for ever if not. */
  lemma CalculatorAtRest(s: State)
    requires Core(s) && Hearing(s) && Num(s.writers, Gone) == |s.writers|
    requires !exists target :: Can(s, Calculate(target))
    ensures s.calculator.CGone? <==> s.book.heard
    ensures s.calculator.CParked? <==> !s.book.heard
  {
    Partition(s.writers);
    hide Num;
    assert !Can(s, Calculate(0));
  }
}
