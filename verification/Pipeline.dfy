/** The three-stage pipeline as a machine whose steps are the threads' critical sections and signals. */
module Pipeline {
  import opened WorkItems
  import opened Queues
  import MinuteTimer

  /** Where a Writer stands. */
  datatype WriterPc =
    | Ready        // top of the loop, wants the api mutex
    | Parking      // holds the api mutex: saw an empty queue and no exit order, about to wait
    | Parked       // waits on api not_empty
    | Woken        // signalled, wants the api mutex back
    | Took         // removed an item, still has to signal api not_full
    | Logging      // about to log the item
    | Offering     // wants the calculation mutex, exit flag not yet tested
    | Blocked      // waits on calculation not_full
    | Unblocked    // signalled, wants the calculation mutex back
    | Delivered    // item accepted, still has to signal calculation not_empty
    | Quitting     // told to exit, still has to pass the signal on to api not_empty
    | Flagging     // about to set the calculation exit flag
    | Notifying    // about to signal calculation not_empty
    | Gone

  datatype CalcPc =
    | CReady
    | CParking           // holds the calculation mutex: saw an empty queue and no exit order
    | CParked
    | CWoken
    | CTook              // removed an item, still has to signal calculation not_full
    | CWorking           // about to process the item
    | CQuitting
    | CGone

  /** What one holder of the producer lock submits: a received message or one directive. */
  datatype Batch = Batch(timer: bool, items: seq<WorkItem>)

  datatype ProducerPc =
    | PReady             // next queue_add, or end of the batch
    | PBlocked           // past the exit test, waits on api not_full
    | PUnblocked         // signalled, wants the api mutex back
    | PSignal            // item accepted, still has to signal api not_empty

  /** The holder of the producer lock, if any, with the items it has not yet submitted. */
  datatype Producer = Free | Active(timer: bool, rest: seq<WorkItem>, pc: ProducerPc)

  /** What the run has done so far; items are named by their position in the history of the api queue. */
  datatype Book = Book(
    hands: seq<nat>,           // each Writer's current work item
    carriers: seq<nat>,        // which Writer delivered each entry of the calculation queue's history
    log: seq<nat>,             // items written to the trade logs
    dropped: seq<nat>,         // items refused by the calculation queue
    batches: seq<Batch>,       // everything submitted, in producer-lock order
    rejected: seq<WorkItem>,   // items refused by the api queue
    ticks: nat,                // calls of the minute handler
    directives: nat,           // directives of the minute handler that were accepted
    heard: bool)               // a wake-up of the Calculator, not lost, followed the calculation exit order

  datatype State = State(
    api: Queue<WorkItem>,
    calculation: Queue<nat>,
    writers: seq<WriterPc>,
    calculator: CalcPc,
    producer: Producer,
    clientDone: bool,          // WSSClient has returned
    book: Book)

  function AllReady(w: nat): seq<WriterPc> {
    seq(w, i => Ready)
  }

  function Init(w: nat, n: nat): State {
    State(Queue(n, [], 0, false), Queue(n, [], 0, false), AllReady(w), CReady, Free, false,
          Book(seq(w, i => 0), [], [], [], [], [], 0, 0, false))
  }

  datatype Step =
    | Receive(trades: seq<WorkItem>)
    | Tick(item: WorkItem)
    | Produce(target: nat)
    | Interrupt
    | HangUp(target: nat)
    | ClientReturns(target: nat)
    | Write(i: nat, target: nat)
    | Calculate(target: nat)
    | SpuriousWriter(i: nat)
    | SpuriousProducer
    | SpuriousCalculator

  /** How many Writers stand at pc. */
  function Num(ws: seq<WriterPc>, pc: WriterPc): nat {
    multiset(ws)[pc]
  }

  function One(b: bool): nat {
    if b then 1 else 0
  }

  // ----- Signals

  predicate ApiFree(s: State) {
    Num(s.writers, Parking) == 0
  }

  predicate CalcFree(s: State) {
    s.calculator != CParking
  }

  /** A signal wakes one of the Writers waiting at `from`, if there is one. */
  predicate MayWake(ws: seq<WriterPc>, from: WriterPc, target: nat) {
    Num(ws, from) > 0 ==> target < |ws| && ws[target] == from
  }

  function Wake(ws: seq<WriterPc>, from: WriterPc, to: WriterPc, target: nat): seq<WriterPc> {
    if target < |ws| && ws[target] == from then ws[target := to] else ws
  }

  function WakeProducer(p: Producer): Producer {
    if p.Active? && p.pc.PBlocked? then p.(pc := PUnblocked) else p
  }

  /** A signal on calculation not_empty. It is lost while the Calculator is between its test and its wait. */
  function NotifyCalculator(s: State): State {
    s.(calculator := if s.calculator.CParked? then CWoken else s.calculator,
       book := s.book.(heard := s.book.heard || (s.calculation.exit && s.calculator != CParking)))
  }

  // ----- The producer end

  /** queue_add on the api queue. */
  function PutApi(s: State, resumed: bool): State
    requires s.producer.Active? && s.producer.rest != []
  {
    var (x, rest) := (s.producer.rest[0], s.producer.rest[1..]);
    var (outcome, q) := Added(s.api, x, resumed);
    match outcome
    case Rejected =>
      s.(producer := s.producer.(rest := rest), book := s.book.(rejected := s.book.rejected + [x]))
    case MustWait => s.(producer := s.producer.(pc := PBlocked))
    case Accepted =>
      s.(api := q, producer := s.producer.(rest := rest, pc := PSignal),
         book := s.book.(directives := s.book.directives + One(s.producer.timer)))
  }

  predicate CanProduce(s: State, target: nat) {
    s.producer.Active? &&
    match s.producer.pc
    case PReady => s.producer.rest == [] || ApiFree(s)
    case PBlocked => false
    case PUnblocked => ApiFree(s) && s.producer.rest != []
    case PSignal => MayWake(s.writers, Parked, target)
  }

  /** The end of a batch; the minute handler raises the exit order at the hour limit, without the mutex. */
  function Release(s: State): State
    requires s.producer.Active?
  {
    s.(producer := Free,
       api := if s.producer.timer && MinuteTimer.RaisesExit(s.book.ticks) then s.api.(exit := true) else s.api)
  }

  function ProducerTurn(s: State, target: nat): State
    requires CanProduce(s, target)
  {
    match s.producer.pc
    case PReady => if s.producer.rest == [] then Release(s) else PutApi(s, false)
    case PUnblocked => PutApi(s, true)
    case PSignal => s.(producer := s.producer.(pc := PReady), writers := Wake(s.writers, Parked, Woken, target))
    case PBlocked => s
  }

  // ----- A Writer

  /** queue_add on the calculation queue, whose reply the Writer ignores. */
  function PutCalc(s: State, i: nat, resumed: bool): State
    requires i < |s.writers| && i < |s.book.hands|
  {
    var k := s.book.hands[i];
    var (outcome, q) := Added(s.calculation, k, resumed);
    match outcome
    case Rejected => s.(writers := s.writers[i := Ready], book := s.book.(dropped := s.book.dropped + [k]))
    case MustWait => s.(writers := s.writers[i := Blocked])
    case Accepted =>
      s.(calculation := q, writers := s.writers[i := Delivered], book := s.book.(carriers := s.book.carriers + [i]))
  }

  predicate CanWrite(s: State, i: nat, target: nat) {
    i < |s.writers| && i < |s.book.hands| &&
    match s.writers[i]
    case Ready => ApiFree(s)
    case Woken => ApiFree(s)
    case Offering => CalcFree(s)
    case Unblocked => CalcFree(s)
    case Quitting => MayWake(s.writers, Parked, target)
    case Parked => false
    case Blocked => false
    case Gone => false
    case _ => true
  }

  /** queue_remove on the api queue. */
  function RemoveTurn(s: State, i: nat): State
    requires i < |s.writers| && i < |s.book.hands|
  {
    var (outcome, q) := Removal(s.api);
    match outcome
    case Removed(_) =>
      s.(api := q, writers := s.writers[i := Took], book := s.book.(hands := s.book.hands[i := s.api.out]))
    case ToldToExit => s.(writers := s.writers[i := Quitting])
    case NothingYet => s.(writers := s.writers[i := Parking])
  }

  function LogTurn(s: State, i: nat): State
    requires i < |s.writers| && i < |s.book.hands|
  {
    var k := s.book.hands[i];
    s.(writers := s.writers[i := Offering],
       book := s.book.(log := if k < |s.api.hist| && IsTrade(s.api.hist[k]) then s.book.log + [k] else s.book.log))
  }

  function WriterTurn(s: State, i: nat, target: nat): State
    requires CanWrite(s, i, target)
  {
    match s.writers[i]
    case Ready => RemoveTurn(s, i)
    case Woken => RemoveTurn(s, i)
    case Parking => s.(writers := s.writers[i := Parked])
    case Took => s.(writers := s.writers[i := Logging], producer := WakeProducer(s.producer))
    case Logging => LogTurn(s, i)
    case Offering => PutCalc(s, i, false)
    case Unblocked => PutCalc(s, i, true)
    case Delivered => NotifyCalculator(s.(writers := s.writers[i := Ready]))
    case Quitting => s.(writers := Wake(s.writers[i := Flagging], Parked, Woken, target))
    case Flagging => s.(writers := s.writers[i := Notifying], calculation := s.calculation.(exit := true))
    case Notifying => NotifyCalculator(s.(writers := s.writers[i := Gone]))
    case _ => s
  }

  // ----- The Calculator

  predicate CanCalculate(s: State, target: nat) {
    match s.calculator
    case CParked => false
    case CGone => false
    case CTook => MayWake(s.writers, Blocked, target)
    case _ => true
  }

  function CalculatorTurn(s: State, target: nat): State
    requires CanCalculate(s, target)
  {
    match s.calculator
    case CParking => s.(calculator := CParked)
    case CTook => s.(calculator := CWorking, writers := Wake(s.writers, Blocked, Unblocked, target))
    case CWorking => s.(calculator := CReady)
    case CQuitting => s.(calculator := CGone)
    case _ =>
      var (outcome, q) := Removal(s.calculation);
      match outcome
      case Removed(_) => s.(calculation := q, calculator := CTook)
      case ToldToExit => s.(calculator := CQuitting)
      case NothingYet => s.(calculator := CParking)
  }

  // ----- All steps

  predicate ClientBusy(s: State) {
    s.producer.Active? && !s.producer.timer
  }

  predicate Can(s: State, step: Step) {
    match step
    case Receive(_) => s.producer.Free? && !s.clientDone
    case Tick(item) => s.producer.Free? && item.trade.v == DIRECTIVE_CALCULATE_MINUTE
    case Produce(target) => CanProduce(s, target)
    case Interrupt => ApiFree(s)
    case HangUp(target) => !s.clientDone && !ClientBusy(s) && s.api.exit && MayWake(s.writers, Parked, target)
    case ClientReturns(target) =>
      !s.clientDone && !ClientBusy(s) && s.api.exit && ApiFree(s) && MayWake(s.writers, Parked, target)
    case Write(i, target) => CanWrite(s, i, target)
    case Calculate(target) => CanCalculate(s, target)
    case SpuriousWriter(i) => i < |s.writers| && (s.writers[i].Parked? || s.writers[i].Blocked?)
    case SpuriousProducer => s.producer.Active? && s.producer.pc.PBlocked?
    case SpuriousCalculator => s.calculator.CParked?
  }

  function Submit(s: State, batch: Batch): State {
    s.(producer := Active(batch.timer, batch.items, PReady),
       book := s.book.(batches := s.book.batches + [batch], ticks := s.book.ticks + One(batch.timer)))
  }

  function Do(s: State, step: Step): State
    requires Can(s, step)
  {
    match step
    case Receive(trades) => Submit(s, Batch(false, trades))
    case Tick(item) => Submit(s, Batch(true, [item]))
    case Produce(target) => ProducerTurn(s, target)
    case Interrupt => s.(api := s.api.(exit := true))
    case HangUp(target) => s.(writers := Wake(s.writers, Parked, Woken, target))
    case ClientReturns(target) =>
      s.(clientDone := true,
         writers := if s.api.Empty() then Wake(s.writers, Parked, Woken, target) else s.writers)
    case Write(i, target) => WriterTurn(s, i, target)
    case Calculate(target) => CalculatorTurn(s, target)
    case SpuriousWriter(i) =>
      s.(writers := s.writers[i := if s.writers[i].Parked? then Woken else Unblocked])
    case SpuriousProducer => s.(producer := WakeProducer(s.producer))
    case SpuriousCalculator => NotifyCalculator(s)
  }

  // ----- Runs

  predicate Feasible(s: State, steps: seq<Step>)
    decreases |steps|
  {
    steps == [] || (Can(s, steps[0]) && Feasible(Do(s, steps[0]), steps[1..]))
  }

  function After(s: State, steps: seq<Step>): State
    requires Feasible(s, steps)
    decreases |steps|
  {
    if steps == [] then s else After(Do(s, steps[0]), steps[1..])
  }
}
