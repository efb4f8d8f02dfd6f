/** The producer end: whole batches in order, a clean cut at the exit order, and the minute handler's quota. */
module Submission {
  import opened WorkItems
  import opened Pipeline
  import opened Safety
  import MinuteTimer

  function Flatten(batches: seq<Batch>): seq<WorkItem> {
    if batches == [] then [] else Flatten(batches[..|batches| - 1]) + batches[|batches| - 1].items
  }

  function Rest(p: Producer): seq<WorkItem> {
    if p.Active? then p.rest else []
  }

  /** What was accepted, then what was rejected, then what is still in the producer's hands: all that was submitted. */
  ghost predicate Submitted(s: State) {
    s.api.hist + s.book.rejected + Rest(s.producer) == Flatten(s.book.batches)
  }

  /** The minute handler submits single directives, at most as many as it was called. */
  ghost predicate Quota(s: State) {
    && (forall b :: b in s.book.batches && b.timer ==> |b.items| == 1 && b.items[0].trade.v == -1.0)
    && (!s.api.exit ==> s.book.ticks < 2880 || (s.book.ticks == 2880 && s.producer.Active? && s.producer.timer))
    && (s.producer.Active? && s.producer.timer ==> |s.producer.rest| <= 1)
    && (Past(s) && s.producer.timer ==> s.book.ticks <= 2880)
    && s.book.directives + One(s.producer.Active? && s.producer.timer && s.producer.rest != []) <= s.book.ticks
    && s.book.directives <= 2880
  }

  /** How many directives lie within the first `length` submitted items. */
  function DirectivesWithin(batches: seq<Batch>, length: nat): nat {
    if batches == [] then 0
    else DirectivesWithin(batches[..|batches| - 1], length)
         + One(batches[|batches| - 1].timer && |Flatten(batches)| <= length)
  }

  /** The count of accepted directives is right, and the producer works on the latest batch. */
  ghost predicate DirectivesCounted(s: State) {
    && s.book.directives == DirectivesWithin(s.book.batches, |s.api.hist|)
    && (s.producer.Active? ==>
          && s.book.batches != []
          && |s.producer.rest| <= |s.book.batches[|s.book.batches| - 1].items|
          && s.producer.timer == s.book.batches[|s.book.batches| - 1].timer)
  }

  lemma FlattenAppend(batches: seq<Batch>, b: Batch)
    ensures Flatten(batches + [b]) == Flatten(batches) + b.items
  {
    assert (batches + [b])[..|batches|] == batches;
  }

  lemma ProducerKeepsSubmitted(s: State, target: nat)
    requires Closing(s) && Submitted(s) && CanProduce(s, target)
    ensures Submitted(ProducerTurn(s, target))
  {
    hide Num, MayWake, Flatten;
    var h, r, rest := s.api.hist, s.book.rejected, s.producer.rest;
    if rest != [] {
      var x := [rest[0]];
      assert rest == x + rest[1..];
      assert h + (r + x) + rest[1..] == h + r + rest;
      assert r == [] ==> (h + x) + r + rest[1..] == h + r + rest;
    }
  }

  /** One step submits at most one item: it is accepted or rejected, and the producer goes on with the next. */
  lemma ProducerMovesOne(s: State, target: nat)
    requires CanProduce(s, target)
    ensures var s' := ProducerTurn(s, target);
      || (Rest(s'.producer) == Rest(s.producer)
          && s'.api.hist == s.api.hist && s'.book.rejected == s.book.rejected)
      || (s.producer.rest != [] && Rest(s'.producer) == s.producer.rest[1..]
          && ((s'.api.hist == s.api.hist + [s.producer.rest[0]] && s'.book.rejected == s.book.rejected)
              || (s'.api.hist == s.api.hist && s'.book.rejected == s.book.rejected + [s.producer.rest[0]]
                  && s.api.exit && s.producer.pc.PReady?)))
  {
    hide Num, MayWake, Wake;
  }

  lemma ProducerKeepsQuota(s: State, target: nat)
    requires Quota(s) && CanProduce(s, target)
    ensures Quota(ProducerTurn(s, target))
  {
    hide Num, MayWake, MinuteTimer.RaisesExit;
    MinuteTimer.RaisedFromCall2880(s.book.ticks);
  }

  lemma WriterLeavesSubmission(s: State, i: nat, target: nat)
    requires CanWrite(s, i, target)
    ensures var s' := WriterTurn(s, i, target);
      && s'.api.hist == s.api.hist && s'.api.exit == s.api.exit && Rest(s'.producer) == Rest(s.producer)
      && s'.book.rejected == s.book.rejected && s'.book.batches == s.book.batches
      && s'.book.ticks == s.book.ticks && s'.book.directives == s.book.directives
      && Past(s') == Past(s) && s'.producer.Active? == s.producer.Active?
      && (s.producer.Active? ==> s'.producer.timer == s.producer.timer)
  {
    hide Num, MayWake;
  }

  lemma SubmitKeepsSubmission(s: State, batch: Batch)
    requires Submitted(s) && Quota(s) && s.producer.Free?
    requires batch.timer ==> |batch.items| == 1 && batch.items[0].trade.v == -1.0
    ensures Submitted(Submit(s, batch)) && Quota(Submit(s, batch))
  {
    hide Flatten;
    FlattenAppend(s.book.batches, batch);
  }

  lemma StepKeepsSubmission(s: State, step: Step)
    requires Closing(s) && Submitted(s) && Quota(s) && Can(s, step)
    ensures Submitted(Do(s, step)) && Quota(Do(s, step))
  {
    hide Num, MayWake, CanProduce, ProducerTurn, Flatten, WriterTurn, CanWrite, Submit;
    match step
    case Produce(target) =>
      ProducerKeepsSubmitted(s, target);
      ProducerKeepsQuota(s, target);
    case Receive(trades) => SubmitKeepsSubmission(s, Batch(false, trades));
    case Tick(item) => SubmitKeepsSubmission(s, Batch(true, [item]));
    case Write(i, target) => WriterLeavesSubmission(s, i, target);
    case _ =>
  }

  lemma {:induction false} WithinStable(batches: seq<Batch>, a: nat, b: nat)
    requires |Flatten(batches)| <= a <= b
    ensures DirectivesWithin(batches, a) == DirectivesWithin(batches, b)
  {
    if batches != [] {
      WithinStable(batches[..|batches| - 1], a, b);
    }
  }

  lemma WithinAppend(batches: seq<Batch>, b: Batch, length: nat)
    requires length <= |Flatten(batches)| && (b.timer ==> b.items != [])
    ensures DirectivesWithin(batches + [b], length) == DirectivesWithin(batches, length)
  {
    FlattenAppend(batches, b);
    assert (batches + [b])[..|batches|] == batches;
  }

  /** Accepting one more item counts one more directive exactly if the latest batch is one. */
  lemma LastBatchCounts(batches: seq<Batch>, length: nat, rest: nat)
    requires batches != [] && length + rest == |Flatten(batches)|
    requires 0 < rest <= |batches[|batches| - 1].items|
    requires batches[|batches| - 1].timer ==> |batches[|batches| - 1].items| == 1
    ensures DirectivesWithin(batches, length + 1)
         == DirectivesWithin(batches, length) + One(batches[|batches| - 1].timer)
  {
    var before := batches[..|batches| - 1];
    assert |Flatten(batches)| == |Flatten(before)| + |batches[|batches| - 1].items|;
    WithinStable(before, length, length + 1);
  }

  lemma PutKeepsCount(s: State, resumed: bool)
    requires Submitted(s) && DirectivesCounted(s) && (s.book.rejected != [] ==> s.api.exit && !resumed)
    requires s.producer.Active? && s.producer.rest != []
    requires forall b :: b in s.book.batches && b.timer ==> |b.items| == 1
    ensures DirectivesCounted(PutApi(s, resumed))
  {
    hide Flatten, DirectivesWithin;
    var last := s.book.batches[|s.book.batches| - 1];
    assert last in s.book.batches;
    if s.book.rejected == [] {
      assert |s.api.hist| + |s.producer.rest| == |Flatten(s.book.batches)|;
      LastBatchCounts(s.book.batches, |s.api.hist|, |s.producer.rest|);
    }
  }

  lemma StepKeepsCount(s: State, step: Step)
    requires Closing(s) && Submitted(s) && Quota(s) && DirectivesCounted(s) && Can(s, step)
    ensures DirectivesCounted(Do(s, step))
  {
    hide Num, MayWake, CanWrite, WriterTurn, Flatten, DirectivesWithin, PutApi;
    match step
    case Produce(target) =>
      if s.producer.rest != [] && !s.producer.pc.PSignal? {
        PutKeepsCount(s, s.producer.pc.PUnblocked?);
      }
    case Receive(trades) =>
      assert |s.api.hist| <= |Flatten(s.book.batches)|;
      WithinAppend(s.book.batches, Batch(false, trades), |s.api.hist|);
    case Tick(item) =>
      assert |s.api.hist| <= |Flatten(s.book.batches)|;
      WithinAppend(s.book.batches, Batch(true, [item]), |s.api.hist|);
    case Write(i, target) =>
      WriterLeavesSubmission(s, i, target);
    case _ =>
  }

  /** Once an item has been rejected, the accepted history is final. */
  lemma RejectionIsFinal(s: State, step: Step)
    requires Closing(s) && s.book.rejected != [] && Can(s, step)
    ensures Do(s, step).api.hist == s.api.hist && Do(s, step).book.rejected != []
  {
    hide Num, MayWake, Wake, WriterTurn, CanWrite;
    if step.Write? {
      WriterLeavesSubmission(s, step.i, step.target);
    }
  }

  // ----- What a run submits, read off its steps

  function BatchIn(step: Step): seq<Batch> {
    match step
    case Receive(trades) => [Batch(false, trades)]
    case Tick(item) => [Batch(true, [item])]
    case _ => []
  }

  function BatchesIn(steps: seq<Step>): seq<Batch>
    decreases |steps|
  {
    if steps == [] then [] else BatchIn(steps[0]) + BatchesIn(steps[1..])
  }

  lemma StepSubmits(s: State, step: Step)
    requires Can(s, step)
    ensures Do(s, step).book.batches == s.book.batches + BatchIn(step)
  {
    hide Num, MayWake, Wake, WriterTurn, CanWrite;
    if step.Write? {
      WriterLeavesSubmission(s, step.i, step.target);
    }
  }

  lemma Associate<T>(a: seq<T>, b: seq<T>, c: seq<T>)
    ensures (a + b) + c == a + (b + c)
  {
  }

  lemma {:induction false} RunSubmits(s: State, steps: seq<Step>)
    requires Feasible(s, steps)
    ensures After(s, steps).book.batches == s.book.batches + BatchesIn(steps)
    decreases |steps|
  {
    if steps != [] {
      hide Do, Can, BatchIn;
      StepSubmits(s, steps[0]);
      RunSubmits(Do(s, steps[0]), steps[1..]);
      Associate(s.book.batches, BatchIn(steps[0]), BatchesIn(steps[1..]));
    }
  }
  /** What a run submits, block by block: the items of a received message, or one directive. */
  function Blocks(steps: seq<Step>): seq<seq<WorkItem>>
    decreases |steps|
  {
    if steps == [] then [] else BlockIn(steps[0]) + Blocks(steps[1..])
  }

  function BlockIn(step: Step): seq<seq<WorkItem>> {
    match step
    case Receive(trades) => [trades]
    case Tick(item) => [[item]]
    case _ => []
  }

  function Concat<T>(blocks: seq<seq<T>>): seq<T> {
    if blocks == [] then [] else blocks[0] + Concat(blocks[1..])
  }

  lemma ConcatFirst<T>(first: seq<seq<T>>, rest: seq<seq<T>>)
    requires |first| <= 1
    ensures Concat(first + rest) == (if first == [] then [] else first[0]) + Concat(rest)
  {
    if first == [] {
      assert first + rest == rest;
    } else {
      assert (first + rest)[1..] == rest;
    }
  }

  function ItemsOf(batches: seq<Batch>): seq<seq<WorkItem>> {
    if batches == [] then [] else ItemsOf(batches[..|batches| - 1]) + [batches[|batches| - 1].items]
  }

  lemma {:induction false} ConcatAppend<T>(blocks: seq<seq<T>>, last: seq<T>)
    ensures Concat(blocks + [last]) == Concat(blocks) + last
  {
    if blocks == [] {
      assert (blocks + [last])[1..] == [];
    } else {
      assert (blocks + [last])[1..] == blocks[1..] + [last];
      ConcatAppend(blocks[1..], last);
    }
  }

  lemma {:induction false} FlattenIsConcat(batches: seq<Batch>)
    ensures Flatten(batches) == Concat(ItemsOf(batches))
  {
    if batches != [] {
      var n := |batches| - 1;
      FlattenIsConcat(batches[..n]);
      ConcatAppend(ItemsOf(batches[..n]), batches[n].items);
    }
  }

  lemma {:induction false} ItemsAppend(xs: seq<Batch>, ys: seq<Batch>)
    ensures ItemsOf(xs + ys) == ItemsOf(xs) + ItemsOf(ys)
  {
    if ys == [] {
      assert xs + ys == xs;
    } else {
      var n := |ys| - 1;
      assert (xs + ys)[..|xs| + n] == xs + ys[..n];
      ItemsAppend(xs, ys[..n]);
    }
  }

  lemma {:induction false} BlocksOfBatches(steps: seq<Step>)
    ensures ItemsOf(BatchesIn(steps)) == Blocks(steps)
    decreases |steps|
  {
    if steps != [] {
      BlocksOfBatches(steps[1..]);
      ItemsAppend(BatchIn(steps[0]), BatchesIn(steps[1..]));
      forall b: Batch
        ensures ItemsOf([b]) == [b.items]
      {
        assert [b][..0] == [];
      }
    }
  }

  /** The batches on record are what the steps submit. */
  lemma RunSubmitsBlocks(s: State, steps: seq<Step>)
    requires s.book.batches == [] && Feasible(s, steps)
    ensures After(s, steps).book.batches == BatchesIn(steps)
    ensures Flatten(BatchesIn(steps)) == Concat(Blocks(steps))
  {
    RunSubmits(s, steps);
    BlocksOfBatches(steps);
    FlattenIsConcat(BatchesIn(steps));
  }

  /** The first n blocks and the first j items of the next one. */
  function Cut<T>(blocks: seq<seq<T>>, n: nat, j: nat): seq<T>
    requires n <= |blocks|
    requires n < |blocks| ==> j <= |blocks[n]|
  {
    Concat(blocks[..n]) + if n == |blocks| then [] else blocks[n][..j]
  }

  /** Cutting a concatenation cuts at most one block. */
  lemma {:induction false} CutOfConcat<T>(blocks: seq<seq<T>>, xs: seq<T>) returns (n: nat, j: nat)
    requires xs <= Concat(blocks)
    ensures n <= |blocks| && (n < |blocks| ==> j < |blocks[n]|)
    ensures xs == Cut(blocks, n, j)
    ensures xs == Concat(blocks) ==> n == |blocks|
  {
    if blocks == [] {
      n, j := 0, 0;
    } else if |xs| < |blocks[0]| {
      n, j := 0, |xs|;
      assert xs == blocks[0][..j];
    } else {
      var first := blocks[0];
      assert xs == first + xs[|first|..];
      n, j := CutOfConcat(blocks[1..], xs[|first|..]);
      n := n + 1;
      assert blocks[..n][1..] == blocks[1..][..n - 1];
    }
  }

  // ----- Who orders the exit

  /** How often a run calls the minute handler. */
  function Ticks(steps: seq<Step>): nat
    decreases |steps|
  {
    if steps == [] then 0 else One(steps[0].Tick?) + Ticks(steps[1..])
  }

  /** The exit order is given by an interrupt, or by the minute handler when it releases the producer lock after call
      2880, and by nobody else. */
  ghost predicate Raised(s: State, interrupted: bool) {
    s.api.exit <==>
      || interrupted || s.book.ticks > 2880
      || (s.book.ticks == 2880 && !(s.producer.Active? && s.producer.timer))
  }

  lemma ProducerRaises(s: State, target: nat, interrupted: bool)
    requires Raised(s, interrupted) && CanProduce(s, target)
    ensures Raised(ProducerTurn(s, target), interrupted)
    ensures ProducerTurn(s, target).book.ticks == s.book.ticks
  {
    hide Num, MayWake, Wake, MinuteTimer.RaisesExit;
    MinuteTimer.RaisedFromCall2880(s.book.ticks);
  }

  lemma StepRaises(s: State, step: Step, interrupted: bool)
    requires Raised(s, interrupted) && Can(s, step)
    ensures Raised(Do(s, step), interrupted || step.Interrupt?)
    ensures Do(s, step).book.ticks == s.book.ticks + One(step.Tick?)
  {
    hide Num, MayWake, Wake, CanProduce, ProducerTurn, WriterTurn, CanWrite;
    match step
    case Produce(target) => ProducerRaises(s, target, interrupted);
    case Write(i, target) => WriterLeavesSubmission(s, i, target);
    case _ =>
  }

  lemma {:induction false} RunRaises(s: State, steps: seq<Step>, interrupted: bool)
    requires Raised(s, interrupted) && Feasible(s, steps)
    ensures Raised(After(s, steps), interrupted || Interrupt in steps)
    ensures After(s, steps).book.ticks == s.book.ticks + Ticks(steps)
    decreases |steps|
  {
    if steps != [] {
      hide Do, Can, Raised;
      StepRaises(s, steps[0], interrupted);
      RunRaises(Do(s, steps[0]), steps[1..], interrupted || steps[0].Interrupt?);
      assert Interrupt in steps <==> steps[0].Interrupt? || Interrupt in steps[1..];
    }
  }
}
