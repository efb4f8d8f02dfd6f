/** What every step of the pipeline keeps: queue shape, wake-ups, exit order, loss. */
module Safety {
  import opened Pipeline
  import opened Totals

  /** A producer past the exit test of queue_add that has not yet stored its item. */
  predicate Past(s: State) {
    s.producer.Active? && (s.producer.pc.PBlocked? || s.producer.pc.PUnblocked?)
  }

  predicate Signalling(s: State) {
    s.producer.Active? && s.producer.pc.PSignal?
  }

  predicate CalcLeft(s: State) {
    s.calculator.CQuitting? || s.calculator.CGone?
  }

  ghost predicate Bounded(s: State) {
    && s.writers != [] && |s.book.hands| == |s.writers|
    && s.api.Valid() && s.calculation.Valid()
    && s.calculation.capacity == s.api.capacity
    && |s.book.carriers| == |s.calculation.hist|
    && (Past(s) ==> s.producer.rest != [])
    && (s.calculator.CTook? || s.calculator.CWorking? ==> s.calculation.out > 0)
  }

  /** A thread between its test and its wait holds the mutex alone and still sees the empty queue it tested. */
  ghost predicate Tested(s: State) {
    && Num(s.writers, Parking) <= 1
    && (Num(s.writers, Parking) > 0 ==> s.api.Empty())
    && (s.calculator.CParking? ==> s.calculation.Empty())
  }

  ghost predicate Shape(s: State) {
    Bounded(s) && Tested(s)
  }

  // ----- No lost wake-up: while threads wait, what they wait for is announced by signals or woken threads.

  /** Writers waiting on api not_empty. */
  ghost predicate ItemsAnnounced(s: State) {
    Num(s.writers, Parked) > 0 ==>
      s.api.Length() <= Num(s.writers, Woken) + Num(s.writers, Quitting) + One(Signalling(s))
  }

  /** The producer waiting on api not_full. */
  ghost predicate RoomAnnounced(s: State) {
    s.producer.Active? && s.producer.pc.PBlocked? ==> s.api.capacity - s.api.Length() <= Num(s.writers, Took)
  }

  /** Writers waiting on calculation not_full. */
  ghost predicate CalcRoomAnnounced(s: State) {
    Num(s.writers, Blocked) > 0 ==>
      s.calculation.capacity - s.calculation.Length() <= Num(s.writers, Unblocked) + One(s.calculator.CTook?)
  }

  /** The Calculator waiting on calculation not_empty. */
  ghost predicate CalcItemsAnnounced(s: State) {
    s.calculator.CParked? ==> s.calculation.Length() <= Num(s.writers, Delivered) + Num(s.writers, Notifying)
  }

  ghost predicate Wakeups(s: State) {
    ItemsAnnounced(s) && RoomAnnounced(s) && CalcRoomAnnounced(s) && CalcItemsAnnounced(s)
  }

  /** Which exit flags are set, given who has left, and conversely. */
  ghost predicate Flags(s: State) {
    && (s.calculation.exit ==> Left(s.writers) > 0)
    && (Left(s.writers) > 0 ==> s.api.exit)
    && (Num(s.writers, Notifying) + Num(s.writers, Gone) > 0 ==> s.calculation.exit)
    && (s.book.dropped != [] ==> s.calculation.exit)
    && (CalcLeft(s) ==> s.calculation.exit)
  }

  /** The producer end after the exit order. */
  ghost predicate Closing(s: State) {
    && (s.clientDone ==> s.api.exit && Num(s.writers, Parking) == 0)
    && (s.book.rejected != [] ==> s.api.exit)
    && (Past(s) ==> s.book.rejected == [])
  }

  ghost predicate Exits(s: State) {
    Flags(s) && Closing(s)
  }

  /** Once WSSClient has returned, waiting Writers have a pending signal or a Writer, perhaps a blocked one, that is
      neither waiting with them nor past its own signal. */
  ghost predicate ExitChain(s: State) {
    s.clientDone && Num(s.writers, Parked) > 0 ==> Awake(s.writers) > 0 || Signalling(s)
  }

  /** Items not yet beyond loss, from the first exit of a Writer on. */
  function Exposed(s: State): int {
    Holding(s.writers) + Loose(s)
  }

  /** Those of them that no Writer holds. */
  function Loose(s: State): int {
    |s.book.dropped| + s.api.Length() + One(Past(s))
  }

  ghost predicate LossAtExit(s: State) {
    Left(s.writers) > 0 ==> Exposed(s) <= |s.writers|
  }

  ghost predicate LossAtEnd(s: State) {
    CalcLeft(s) ==> Exposed(s) + s.calculation.Length() <= |s.writers|
  }

  ghost predicate Core(s: State) {
    Shape(s) && Wakeups(s) && Exits(s) && ExitChain(s) && LossAtExit(s) && LossAtEnd(s)
  }

  /** From the first exit of a Writer on the order is relayed: while Writers wait, more of them have been told to look
      again, or are about to be, than there are items left to look for. */
  ghost predicate Relayed(s: State) {
    Left(s.writers) > 0 ==>
      && Num(s.writers, Parking) == 0
      && (Num(s.writers, Parked) > 0 ==>
            s.api.Length() < Num(s.writers, Woken) + Num(s.writers, Quitting) + One(Signalling(s)))
  }

  // ----- A Writer's turn

  lemma WriterKeepsBounded(s: State, i: nat, target: nat)
    requires Bounded(s) && CanWrite(s, i, target)
    ensures Bounded(WriterTurn(s, i, target))
  {
    hide Num, MayWake, Wake, RemoveTurn, PutCalc, Bounded;
    if s.writers[i].Ready? || s.writers[i].Woken? {
      RemoveKeepsBounded(s, i);
    } else if s.writers[i].Offering? || s.writers[i].Unblocked? {
      PutCalcKeepsBounded(s, i, s.writers[i].Unblocked?);
    } else {
      OtherTurnsKeepBounded(s, i, target);
    }
  }

  lemma RemoveKeepsBounded(s: State, i: nat)
    requires Bounded(s) && i < |s.writers|
    ensures Bounded(RemoveTurn(s, i))
  {
  }

  lemma PutCalcKeepsBounded(s: State, i: nat, resumed: bool)
    requires Bounded(s) && i < |s.writers|
    ensures Bounded(PutCalc(s, i, resumed))
  {
  }

  lemma OtherTurnsKeepBounded(s: State, i: nat, target: nat)
    requires Bounded(s) && CanWrite(s, i, target)
    requires !s.writers[i].Ready? && !s.writers[i].Woken? && !s.writers[i].Offering? && !s.writers[i].Unblocked?
    ensures Bounded(WriterTurn(s, i, target))
  {
    hide Num, MayWake, Wake, RemoveTurn, PutCalc;
    WakeKeepsLength(s.writers[i := Flagging], Parked, Woken, target);
  }

  lemma WriterKeepsSize(s: State, i: nat, target: nat)
    requires CanWrite(s, i, target)
    ensures |WriterTurn(s, i, target).writers| == |s.writers|
  {
    hide Num, WriterTurn, Next;
    WriterGoes(s, i, target);
  }

  lemma WakeKeepsLength(ws: seq<WriterPc>, from: WriterPc, to: WriterPc, target: nat)
    ensures |Wake(ws, from, to, target)| == |ws|
  {
  }

  lemma WriterKeepsTested(s: State, i: nat, target: nat)
    requires Tested(s) && CanWrite(s, i, target)
    ensures Tested(WriterTurn(s, i, target))
  {
    hide Num;
    WriterCounts(s, i, target);
  }

  lemma WriterKeepsItemsAnnounced(s: State, i: nat, target: nat)
    requires Shape(s) && ItemsAnnounced(s) && CanWrite(s, i, target)
    ensures ItemsAnnounced(WriterTurn(s, i, target))
  {
    hide Num;
    WriterCounts(s, i, target);
  }

  lemma WriterKeepsRoomAnnounced(s: State, i: nat, target: nat)
    requires Shape(s) && RoomAnnounced(s) && CanWrite(s, i, target)
    ensures RoomAnnounced(WriterTurn(s, i, target))
  {
    hide Num;
    WriterCounts(s, i, target);
  }

  lemma WriterKeepsCalcRoomAnnounced(s: State, i: nat, target: nat)
    requires Shape(s) && CalcRoomAnnounced(s) && CanWrite(s, i, target)
    ensures CalcRoomAnnounced(WriterTurn(s, i, target))
  {
    hide Num;
    WriterCounts(s, i, target);
  }

  lemma WriterKeepsCalcItemsAnnounced(s: State, i: nat, target: nat)
    requires Shape(s) && CalcItemsAnnounced(s) && CanWrite(s, i, target)
    ensures CalcItemsAnnounced(WriterTurn(s, i, target))
  {
    hide Num;
    WriterCounts(s, i, target);
  }

  /** What a Writer's turn does to the api queue, by where it leads. */
  lemma WriterAtApi(s: State, i: nat, target: nat)
    requires CanWrite(s, i, target)
    ensures var s', from, to := WriterTurn(s, i, target), s.writers[i], Next(s, i, target);
      && s'.api == (if to.Took? then s.api.Take() else s.api)
      && Signalling(s') == Signalling(s)
      && (from.Ready? || from.Woken? <==> to.Took? || to.Quitting? || to.Parking?)
      && (to.Took? || to.Quitting? || to.Parking? ==> ApiFree(s))
      && (to.Quitting? ==> s.api.Empty())
      && (to.Parking? ==> !s.api.exit)
      && (from.Quitting? ==> to.Flagging?)
      && (to.Parked? <==> from.Parking?) && !to.Woken?
      && (HasLeft(to) && !HasLeft(from) ==> to.Quitting?)
  {
    hide Num, MayWake;
  }

  /** A Writer's turn leaves as many items exposed, one fewer if it delivers its own. */
  predicate PassesOn(s: State, i: nat, target: nat)
    requires CanWrite(s, i, target)
  {
    var (s', from, to) := (WriterTurn(s, i, target), s.writers[i], Next(s, i, target));
    && Loose(s') + One(Holds(to)) + One(to.Delivered?) == Loose(s) + One(Holds(from))
    && s'.calculation.Length() == s.calculation.Length() + One(to.Delivered?)
    && CalcLeft(s') == CalcLeft(s)
  }

  lemma RemovePassesOn(s: State, i: nat, target: nat)
    requires CanWrite(s, i, target) && (s.writers[i].Ready? || s.writers[i].Woken?)
    ensures PassesOn(s, i, target)
  {
    hide Num, MayWake, Wake;
  }

  lemma PutPassesOn(s: State, i: nat, target: nat)
    requires CanWrite(s, i, target) && (s.writers[i].Offering? || s.writers[i].Unblocked?)
    ensures PassesOn(s, i, target)
  {
    hide Num, MayWake, Wake;
  }

  lemma OtherPassesOn(s: State, i: nat, target: nat)
    requires CanWrite(s, i, target) && !s.writers[i].Ready? && !s.writers[i].Woken?
    requires !s.writers[i].Offering? && !s.writers[i].Unblocked?
    ensures PassesOn(s, i, target)
  {
    hide Num, MayWake, Wake, RemoveTurn, PutCalc;
  }

  lemma WriterPassesOn(s: State, i: nat, target: nat)
    requires CanWrite(s, i, target)
    ensures PassesOn(s, i, target)
  {
    hide Num, MayWake, PassesOn;
    if s.writers[i].Ready? || s.writers[i].Woken? {
      RemovePassesOn(s, i, target);
    } else if s.writers[i].Offering? || s.writers[i].Unblocked? {
      PutPassesOn(s, i, target);
    } else {
      OtherPassesOn(s, i, target);
    }
  }

  lemma RemoveAtFlags(s: State, i: nat)
    requires i < |s.writers| && i < |s.book.hands|
    ensures var s' := RemoveTurn(s, i);
      && s'.api.exit == s.api.exit && s'.calculation == s.calculation
      && s'.book.dropped == s.book.dropped && s'.calculator == s.calculator
  {
  }

  lemma PutAtFlags(s: State, i: nat, resumed: bool)
    requires i < |s.writers| && i < |s.book.hands|
    ensures var s' := PutCalc(s, i, resumed);
      && s'.api == s.api && s'.calculation.exit == s.calculation.exit && s'.calculator == s.calculator
      && (s'.book.dropped != [] ==> s.book.dropped != [] || s.calculation.exit)
  {
  }

  /** What a Writer's turn does to the exit flags. */
  lemma WriterAtFlags(s: State, i: nat, target: nat)
    requires CanWrite(s, i, target)
    ensures var s', from := WriterTurn(s, i, target), s.writers[i];
      && s'.api.exit == s.api.exit
      && s'.calculation.exit == (s.calculation.exit || from.Flagging?)
      && (s'.book.dropped != [] ==> s.book.dropped != [] || s.calculation.exit)
      && CalcLeft(s') == CalcLeft(s)
  {
    hide Num, MayWake, Wake, RemoveTurn, PutCalc;
    RemoveAtFlags(s, i);
    PutAtFlags(s, i, s.writers[i].Unblocked?);
  }

  /** How Writers come to leave. */
  lemma WriterLeaves(s: State, i: nat, target: nat)
    requires CanWrite(s, i, target)
    ensures var from, to := s.writers[i], Next(s, i, target);
      && (to.Notifying? <==> from.Flagging?) && (to.Gone? <==> from.Notifying?)
      && (HasLeft(to) <==> HasLeft(from) || to.Quitting?)
      && (to.Quitting? ==> s.api.exit)
  {
    hide Num, MayWake, Wake;
  }

  lemma WriterKeepsFlags(s: State, i: nat, target: nat)
    requires Flags(s) && CanWrite(s, i, target)
    ensures Flags(WriterTurn(s, i, target))
  {
    hide Num, Left, WriterTurn, Next, CanWrite;
    WriterAtFlags(s, i, target);
    WriterLeaves(s, i, target);
    WriterCountOf(s, i, target, Notifying);
    WriterCountOf(s, i, target, Gone);
    WriterGroups(s, i, target);
  }

  lemma WriterKeepsClosing(s: State, i: nat, target: nat)
    requires Shape(s) && Closing(s) && CanWrite(s, i, target)
    ensures Closing(WriterTurn(s, i, target))
  {
    hide Num;
    WriterCounts(s, i, target);
  }

  lemma WriterKeepsExitChain(s: State, i: nat, target: nat)
    requires Shape(s) && Exits(s) && ExitChain(s) && CanWrite(s, i, target)
    ensures ExitChain(WriterTurn(s, i, target))
  {
    hide Num, Awake, Left;
    WriterCounts(s, i, target);
    WriterGroups(s, i, target);
  }

  lemma WriterKeepsLossAtExit(s: State, i: nat, target: nat)
    requires Shape(s) && Exits(s) && LossAtExit(s) && CanWrite(s, i, target)
    ensures LossAtExit(WriterTurn(s, i, target))
  {
    hide Num, Holding, Left, WriterTurn, Next, CanWrite;
    WriterAtApi(s, i, target);
    WriterPassesOn(s, i, target);
    WriterKeepsSize(s, i, target);
    WriterGroups(s, i, target);
    Partition(WriterTurn(s, i, target).writers);
  }

  lemma WriterKeepsLossAtEnd(s: State, i: nat, target: nat)
    requires Shape(s) && Exits(s) && LossAtEnd(s) && CanWrite(s, i, target)
    ensures LossAtEnd(WriterTurn(s, i, target))
  {
    hide Num, Holding, Left, WriterTurn, Next, CanWrite;
    WriterAtApi(s, i, target);
    WriterPassesOn(s, i, target);
    WriterKeepsSize(s, i, target);
    WriterGroups(s, i, target);
  }

  lemma WriterKeepsCore(s: State, i: nat, target: nat)
    requires Core(s) && CanWrite(s, i, target)
    ensures Core(WriterTurn(s, i, target))
  {
    hide Num, WriterTurn, CanWrite;
    WriterKeepsBounded(s, i, target);
    WriterKeepsTested(s, i, target);
    WriterKeepsItemsAnnounced(s, i, target);
    WriterKeepsRoomAnnounced(s, i, target);
    WriterKeepsCalcRoomAnnounced(s, i, target);
    WriterKeepsCalcItemsAnnounced(s, i, target);
    WriterKeepsFlags(s, i, target);
    WriterKeepsClosing(s, i, target);
    WriterKeepsExitChain(s, i, target);
    WriterKeepsLossAtExit(s, i, target);
    WriterKeepsLossAtEnd(s, i, target);
  }

  // ----- Everyone else

  lemma ProducerKeepsShape(s: State, target: nat)
    requires Core(s) && CanProduce(s, target)
    ensures Shape(ProducerTurn(s, target))
  {
    hide Num;
    if s.producer.pc.PSignal? {
      Waken(s.writers, Parked, Woken, target);
    }
  }

  lemma ProducerKeepsItemsAnnounced(s: State, target: nat)
    requires Core(s) && CanProduce(s, target)
    ensures ItemsAnnounced(ProducerTurn(s, target))
  {
    hide Num;
    if s.producer.pc.PSignal? {
      Waken(s.writers, Parked, Woken, target);
    }
  }

  lemma ProducerKeepsRoomAnnounced(s: State, target: nat)
    requires Core(s) && CanProduce(s, target)
    ensures RoomAnnounced(ProducerTurn(s, target))
  {
    hide Num;
    if s.producer.pc.PSignal? {
      Waken(s.writers, Parked, Woken, target);
    }
  }

  lemma ProducerKeepsCalcAnnounced(s: State, target: nat)
    requires Core(s) && CanProduce(s, target)
    ensures CalcRoomAnnounced(ProducerTurn(s, target)) && CalcItemsAnnounced(ProducerTurn(s, target))
  {
    hide Num;
    if s.producer.pc.PSignal? {
      Waken(s.writers, Parked, Woken, target);
    }
  }

  lemma ProducerKeepsExits(s: State, target: nat)
    requires Core(s) && CanProduce(s, target)
    ensures Exits(ProducerTurn(s, target))
  {
    hide Num;
    if s.producer.pc.PSignal? {
      Waken(s.writers, Parked, Woken, target);
    }
  }

  lemma ProducerKeepsExitChain(s: State, target: nat)
    requires Core(s) && CanProduce(s, target)
    ensures ExitChain(ProducerTurn(s, target))
  {
    hide Num;
    if s.producer.pc.PSignal? {
      Waken(s.writers, Parked, Woken, target);
    }
  }

  lemma ProducerKeepsLossAtExit(s: State, target: nat)
    requires Core(s) && CanProduce(s, target)
    ensures LossAtExit(ProducerTurn(s, target))
  {
    hide Num;
    if s.producer.pc.PSignal? {
      Waken(s.writers, Parked, Woken, target);
    }
  }

  lemma ProducerKeepsLossAtEnd(s: State, target: nat)
    requires Core(s) && CanProduce(s, target)
    ensures LossAtEnd(ProducerTurn(s, target))
  {
    hide Num;
    if s.producer.pc.PSignal? {
      Waken(s.writers, Parked, Woken, target);
    }
  }

  lemma CalculatorKeepsShape(s: State, target: nat)
    requires Core(s) && CanCalculate(s, target)
    ensures Shape(CalculatorTurn(s, target))
  {
    hide Num;
    if s.calculator.CTook? {
      Waken(s.writers, Blocked, Unblocked, target);
    }
  }

  lemma CalculatorKeepsItemsAnnounced(s: State, target: nat)
    requires ItemsAnnounced(s) && CanCalculate(s, target)
    ensures ItemsAnnounced(CalculatorTurn(s, target))
  {
    hide Num;
    if s.calculator.CTook? {
      Waken(s.writers, Blocked, Unblocked, target);
    }
  }

  lemma CalculatorKeepsRoomAnnounced(s: State, target: nat)
    requires RoomAnnounced(s) && CanCalculate(s, target)
    ensures RoomAnnounced(CalculatorTurn(s, target))
  {
    hide Num;
    if s.calculator.CTook? {
      Waken(s.writers, Blocked, Unblocked, target);
    }
  }

  lemma CalculatorKeepsCalcRoomAnnounced(s: State, target: nat)
    requires Shape(s) && CalcRoomAnnounced(s) && CanCalculate(s, target)
    ensures CalcRoomAnnounced(CalculatorTurn(s, target))
  {
    hide Num;
    if s.calculator.CTook? {
      Waken(s.writers, Blocked, Unblocked, target);
    }
  }

  lemma CalculatorKeepsCalcItemsAnnounced(s: State, target: nat)
    requires Shape(s) && CalcItemsAnnounced(s) && CanCalculate(s, target)
    ensures CalcItemsAnnounced(CalculatorTurn(s, target))
  {
    hide Num;
    if s.calculator.CTook? {
      Waken(s.writers, Blocked, Unblocked, target);
    }
  }

  lemma CalculatorKeepsExits(s: State, target: nat)
    requires Core(s) && CanCalculate(s, target)
    ensures Exits(CalculatorTurn(s, target))
  {
    hide Num;
    if s.calculator.CTook? {
      Waken(s.writers, Blocked, Unblocked, target);
    }
  }

  lemma CalculatorKeepsExitChain(s: State, target: nat)
    requires Core(s) && CanCalculate(s, target)
    ensures ExitChain(CalculatorTurn(s, target))
  {
    hide Num;
    if s.calculator.CTook? {
      Waken(s.writers, Blocked, Unblocked, target);
    }
  }

  lemma CalculatorKeepsLossAtExit(s: State, target: nat)
    requires Core(s) && CanCalculate(s, target)
    ensures LossAtExit(CalculatorTurn(s, target))
  {
    hide Num;
    if s.calculator.CTook? {
      Waken(s.writers, Blocked, Unblocked, target);
    }
  }

  lemma CalculatorKeepsLossAtEnd(s: State, target: nat)
    requires Core(s) && CanCalculate(s, target)
    ensures LossAtEnd(CalculatorTurn(s, target))
  {
    hide Num;
    if s.calculator.CTook? {
      Waken(s.writers, Blocked, Unblocked, target);
    }
  }

  lemma WakeKeepsCore(s: State, target: nat)
    requires Core(s) && MayWake(s.writers, Parked, target)
    ensures Core(s.(writers := Wake(s.writers, Parked, Woken, target)))
  {
    hide Num, Holding, Left, Awake;
    Waken(s.writers, Parked, Woken, target);
    WakenGroups(s.writers, target);
  }

  lemma SpuriousParkedKeepsCore(s: State, i: nat)
    requires Core(s) && Can(s, SpuriousWriter(i)) && s.writers[i].Parked?
    ensures Core(Do(s, SpuriousWriter(i)))
  {
    hide Core, Num;
    WakeKeepsCore(s, i);
  }

  lemma SpuriousBlockedKeepsCore(s: State, i: nat)
    requires Core(s) && Can(s, SpuriousWriter(i)) && s.writers[i].Blocked?
    ensures Core(Do(s, SpuriousWriter(i)))
  {
    hide Num, Holding, Left, Awake;
    Moved(s.writers, i, Unblocked);
    MovedGroups(s.writers, i, Unblocked);
  }

  lemma HangUpKeepsCore(s: State, target: nat)
    requires Core(s) && Can(s, HangUp(target))
    ensures Core(Do(s, HangUp(target)))
  {
    hide Core, Num;
    WakeKeepsCore(s, target);
  }

  lemma ReturnKeepsCore(s: State, target: nat)
    requires Core(s) && Can(s, ClientReturns(target))
    ensures Core(Do(s, ClientReturns(target)))
  {
    hide Num, Holding, Left;
    Waken(s.writers, Parked, Woken, target);
    WakenGroups(s.writers, target);
  }

  lemma OthersKeepCore(s: State, step: Step)
    requires Core(s) && Can(s, step)
    requires step.Receive? || step.Tick? || step.Interrupt? || step.SpuriousProducer? || step.SpuriousCalculator?
    ensures Core(Do(s, step))
  {
    hide Num;
  }

  lemma StepKeepsCore(s: State, step: Step)
    requires Core(s) && Can(s, step)
    ensures Core(Do(s, step))
  {
    hide Num, WriterTurn, CanWrite, ProducerTurn, CanProduce, CalculatorTurn, CanCalculate;
    match step
    case Write(i, target) => WriterKeepsCore(s, i, target);
    case Calculate(target) =>
      CalculatorKeepsShape(s, target);
      CalculatorKeepsItemsAnnounced(s, target);
      CalculatorKeepsRoomAnnounced(s, target);
      CalculatorKeepsCalcRoomAnnounced(s, target);
      CalculatorKeepsCalcItemsAnnounced(s, target);
      CalculatorKeepsExits(s, target);
      CalculatorKeepsExitChain(s, target);
      CalculatorKeepsLossAtExit(s, target);
      CalculatorKeepsLossAtEnd(s, target);
    case Produce(target) =>
      ProducerKeepsShape(s, target);
      ProducerKeepsItemsAnnounced(s, target);
      ProducerKeepsRoomAnnounced(s, target);
      ProducerKeepsCalcAnnounced(s, target);
      ProducerKeepsExits(s, target);
      ProducerKeepsExitChain(s, target);
      ProducerKeepsLossAtExit(s, target);
      ProducerKeepsLossAtEnd(s, target);
    case HangUp(target) => HangUpKeepsCore(s, target);
    case ClientReturns(target) => ReturnKeepsCore(s, target);
    case SpuriousWriter(i) =>
      if s.writers[i].Parked? {
        SpuriousParkedKeepsCore(s, i);
      } else {
        SpuriousBlockedKeepsCore(s, i);
      }
    case _ => OthersKeepCore(s, step);
  }

  // ----- The relayed exit order

  lemma WriterRelays(s: State, i: nat, target: nat)
    requires Flags(s) && Relayed(s) && CanWrite(s, i, target)
    ensures Relayed(WriterTurn(s, i, target))
  {
    hide Num, Left, WriterTurn, Next;
    WriterAtApi(s, i, target);
    WriterCounts(s, i, target);
    WriterGroups(s, i, target);
  }

  lemma ProducerRelays(s: State, target: nat)
    requires Flags(s) && Relayed(s) && CanProduce(s, target)
    ensures Relayed(ProducerTurn(s, target))
  {
    hide Num;
    if s.producer.pc.PSignal? {
      Waken(s.writers, Parked, Woken, target);
    }
  }

  lemma WakeRelays(s: State, target: nat)
    requires Relayed(s) && MayWake(s.writers, Parked, target)
    ensures Relayed(s.(writers := Wake(s.writers, Parked, Woken, target)))
  {
    hide Num;
    Waken(s.writers, Parked, Woken, target);
  }

  lemma UnblockRelays(s: State, target: nat)
    requires Relayed(s) && MayWake(s.writers, Blocked, target)
    ensures Relayed(s.(writers := Wake(s.writers, Blocked, Unblocked, target)))
  {
    hide Num;
    Waken(s.writers, Blocked, Unblocked, target);
  }

  lemma StepRelays(s: State, step: Step)
    requires Flags(s) && Relayed(s) && Can(s, step)
    ensures Relayed(Do(s, step))
  {
    hide Num, WriterTurn, CanWrite, ProducerTurn, CanProduce, Left;
    match step
    case Write(i, target) => WriterRelays(s, i, target);
    case Produce(target) => ProducerRelays(s, target);
    case HangUp(target) => WakeRelays(s, target);
    case ClientReturns(target) => WakeRelays(s, target);
    case Calculate(target) =>
      if s.calculator.CTook? {
        UnblockRelays(s, target);
      }
    case SpuriousWriter(i) =>
      if s.writers[i].Parked? {
        WakeRelays(s, i);
      } else {
        Counted(s.writers, i);
        UnblockRelays(s, i);
      }
    case _ =>
  }

  lemma InitIsCore(w: nat, n: nat)
    requires w >= 1 && n >= 1
    ensures Core(Init(w, n)) && Relayed(Init(w, n))
  {
    InitialCounts(w);
  }

  lemma {:induction false} RunKeepsCore(s: State, steps: seq<Step>)
    requires Core(s) && Feasible(s, steps)
    ensures Core(After(s, steps))
    decreases |steps|
  {
    if steps != [] {
      StepKeepsCore(s, steps[0]);
      RunKeepsCore(Do(s, steps[0]), steps[1..]);
    }
  }
}
