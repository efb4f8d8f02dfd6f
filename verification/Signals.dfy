/** Condition variables and mutexes, over all steps: who wakes whom, and who can move. */
module Signals {
  import opened WorkItems
  import opened Pipeline
  import opened Totals

  // ----- Who signals which condition variable

  /** api not_empty: a producer after storing, a Writer told to exit, a closed connection, WSSClient's end. */
  predicate SignalsItems(s: State, step: Step) {
    || (step.Produce? && s.producer.Active? && s.producer.pc.PSignal?)
    || (step.Write? && step.i < |s.writers| && s.writers[step.i].Quitting?)
    || step.HangUp?
    || (step.ClientReturns? && |s.api.hist| <= s.api.out)
  }

  /** api not_full: a Writer after removing. */
  predicate SignalsRoom(s: State, step: Step) {
    step.Write? && step.i < |s.writers| && s.writers[step.i].Took?
  }

  /** calculation not_empty: a Writer after storing or after setting the exit flag. */
  predicate SignalsCalculator(s: State, step: Step) {
    step.Write? && step.i < |s.writers| && (s.writers[step.i].Delivered? || s.writers[step.i].Notifying?)
  }

  /** calculation not_full: the Calculator after removing. */
  predicate SignalsBlocked(s: State, step: Step) {
    step.Calculate? && s.calculator.CTook?
  }

  /** A Writer that waits for items leaves its wait only as a woken one, by a signal or by a spurious wake-up. */
  lemma ParkedAreWoken(s: State, step: Step, i: nat)
    requires Can(s, step) && i < |s.writers| && s.writers[i].Parked?
    ensures i < |Do(s, step).writers|
    ensures Do(s, step).writers[i] != Parked ==>
      Do(s, step).writers[i] == Woken && (SignalsItems(s, step) || step == SpuriousWriter(i))
  {
    hide Num, MayWake;
  }

  /** So does one that waits for room. */
  lemma BlockedAreWoken(s: State, step: Step, i: nat)
    requires Can(s, step) && i < |s.writers| && s.writers[i].Blocked?
    ensures i < |Do(s, step).writers|
    ensures Do(s, step).writers[i] != Blocked ==>
      Do(s, step).writers[i] == Unblocked && (SignalsBlocked(s, step) || step == SpuriousWriter(i))
  {
    hide Num, MayWake;
  }

  /** Every signal wakes exactly one Writer if any waits. */
  lemma SignalsWakeOne(s: State, step: Step)
    requires Can(s, step)
    ensures SignalsItems(s, step) && Num(s.writers, Parked) > 0 ==>
      Num(Do(s, step).writers, Parked) == Num(s.writers, Parked) - 1
    ensures SignalsBlocked(s, step) && Num(s.writers, Blocked) > 0 ==>
      Num(Do(s, step).writers, Blocked) == Num(s.writers, Blocked) - 1
  {
    hide Num;
    match step
    case Produce(target) =>
      if s.producer.pc.PSignal? {
        Waken(s.writers, Parked, Woken, target);
      }
    case HangUp(target) => Waken(s.writers, Parked, Woken, target);
    case ClientReturns(target) => Waken(s.writers, Parked, Woken, target);
    case Write(i, target) =>
      if s.writers[i].Quitting? {
        WriterCounts(s, i, target);
      }
    case Calculate(target) =>
      if s.calculator.CTook? {
        Waken(s.writers, Blocked, Unblocked, target);
      }
    case _ =>
  }

  /** The waiting producer and the waiting Calculator leave their waits exactly when signalled or spuriously. */
  lemma SingleWaitersAreWoken(s: State, step: Step)
    requires Can(s, step)
    ensures s.producer.Active? && s.producer.pc.PBlocked? ==>
      Do(s, step).producer ==
        if SignalsRoom(s, step) || step.SpuriousProducer? then s.producer.(pc := PUnblocked) else s.producer
    ensures s.calculator.CParked? ==>
      Do(s, step).calculator ==
        if SignalsCalculator(s, step) || step.SpuriousCalculator? then CWoken else CParked
  {
    hide Num, MayWake, Wake;
  }

  // ----- Who can move

  /** A Writer can take a step exactly unless it waits or has gone, or wants a mutex that is held over a test. */
  lemma WritersMove(s: State, i: nat)
    requires i < |s.writers| == |s.book.hands|
    ensures (exists target :: Can(s, Write(i, target))) <==>
      && !s.writers[i].Parked? && !s.writers[i].Blocked? && !s.writers[i].Gone?
      && (s.writers[i].Ready? || s.writers[i].Woken? ==> Parking !in s.writers)
      && (s.writers[i].Offering? || s.writers[i].Unblocked? ==> !s.calculator.CParking?)
  {
    if s.writers[i].Quitting? && Num(s.writers, Parked) > 0 {
      var target := Someone(s.writers, Parked);
      assert Can(s, Write(i, target));
    } else if Can(s, Write(i, 0)) {
    }
  }

  /** The Calculator can take a step exactly unless it waits or has gone. */
  lemma CalculatorMoves(s: State)
    ensures (exists target :: Can(s, Calculate(target))) <==> !s.calculator.CParked? && !s.calculator.CGone?
  {
    if s.calculator.CTook? && Num(s.writers, Blocked) > 0 {
      var target := Someone(s.writers, Blocked);
      assert Can(s, Calculate(target));
    } else if Can(s, Calculate(0)) {
    }
  }

  /** The holder of the producer lock can take a step exactly unless it waits or wants the api mutex while that is
      held. */
  lemma ProducerMoves(s: State)
    requires s.producer.Active? && (s.producer.pc.PUnblocked? ==> s.producer.rest != [])
    ensures (exists target :: Can(s, Produce(target))) <==>
      && !s.producer.pc.PBlocked?
      && (s.producer.pc.PUnblocked? || (s.producer.pc.PReady? && s.producer.rest != []) ==> Parking !in s.writers)
  {
    if s.producer.pc.PSignal? && Num(s.writers, Parked) > 0 {
      var target := Someone(s.writers, Parked);
      assert Can(s, Produce(target));
    } else if Can(s, Produce(0)) {
    }
  }

  /** From outside: any message while the lock is free and WSSClient runs, a directive of volume -1 while it is free, an
      interrupt while the api mutex is free, and once the exit order is given and no message is being parsed, the
      closing of the connection any number of times before WSSClient's end. */
  lemma OutsideMoves(s: State, trades: seq<WorkItem>, item: WorkItem)
    ensures Can(s, Receive(trades)) <==> s.producer.Free? && !s.clientDone
    ensures Can(s, Tick(item)) <==> s.producer.Free? && item.trade.v == -1.0
    ensures Can(s, Interrupt) <==> Parking !in s.writers
    ensures (exists target :: Can(s, HangUp(target))) <==>
      !s.clientDone && s.api.exit && (s.producer.Active? ==> s.producer.timer)
    ensures (exists target :: Can(s, ClientReturns(target))) <==>
      !s.clientDone && s.api.exit && (s.producer.Active? ==> s.producer.timer) && Parking !in s.writers
  {
    if Num(s.writers, Parked) > 0 {
      var target := Someone(s.writers, Parked);
      assert Can(s, HangUp(target)) || s.clientDone || !s.api.exit || (s.producer.Active? && !s.producer.timer);
      assert Can(s, ClientReturns(target)) <==> Can(s, HangUp(target)) && Parking !in s.writers;
    } else {
      assert Can(s, HangUp(0)) || s.clientDone || !s.api.exit || (s.producer.Active? && !s.producer.timer);
      assert Can(s, ClientReturns(0)) <==> Can(s, HangUp(0)) && Parking !in s.writers;
    }
  }

  /** Any waiting thread can wake up spuriously. */
  lemma SpuriousMoves(s: State, i: nat)
    ensures Can(s, SpuriousWriter(i)) <==> i < |s.writers| && (s.writers[i].Parked? || s.writers[i].Blocked?)
    ensures Can(s, SpuriousProducer) <==> s.producer.Active? && s.producer.pc.PBlocked?
    ensures Can(s, SpuriousCalculator) <==> s.calculator.CParked?
  {
  }
}
