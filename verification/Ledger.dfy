/** Where every accepted item is: conservation, logging, order and overtaking. */
module Ledger {
  import opened WorkItems
  import opened Pipeline
  import opened Totals
  import opened Safety

  // ----- Carried items

  predicate PastLog(pc: WriterPc) {
    pc.Offering? || pc.Blocked? || pc.Unblocked?
  }

  function Hand(past: bool, pc: WriterPc, k: nat): multiset<nat> {
    if PastLog(pc) || (Holds(pc) && !past) then multiset{k} else multiset{}
  }

  /** The items carried by Writers: all of them, or only those past the log. */
  function Carried(past: bool, ws: seq<WriterPc>, hands: seq<nat>): multiset<nat>
    requires |ws| == |hands|
  {
    if ws == [] then multiset{}
    else Carried(past, ws[..|ws| - 1], hands[..|ws| - 1]) + Hand(past, ws[|ws| - 1], hands[|ws| - 1])
  }

  lemma AddSame(a: multiset<nat>, b: multiset<nat>, c: multiset<nat>, d: multiset<nat>, e: multiset<nat>)
    requires a + b == c + d
    ensures (a + e) + b == (c + e) + d
  {
    assert (a + e) + b == (a + b) + e;
  }

  lemma {:induction false} CarriedMoves(past: bool, ws: seq<WriterPc>, hands: seq<nat>, i: nat, pc: WriterPc, k: nat)
    requires |ws| == |hands| && i < |ws|
    ensures Carried(past, ws[i := pc], hands[i := k]) + Hand(past, ws[i], hands[i])
         == Carried(past, ws, hands) + Hand(past, pc, k)
  {
    hide Hand;
    var n := |ws| - 1;
    var b, c := Hand(past, ws[i], hands[i]), Hand(past, pc, k);
    if i == n {
      assert ws[i := pc][..n] == ws[..n] && hands[i := k][..n] == hands[..n];
      assert Carried(past, ws[i := pc], hands[i := k]) == Carried(past, ws[..n], hands[..n]) + c;
    } else {
      var e := Hand(past, ws[n], hands[n]);
      var x, y := Carried(past, ws[..n][i := pc], hands[..n][i := k]), Carried(past, ws[..n], hands[..n]);
      CarriedMoves(past, ws[..n], hands[..n], i, pc, k);
      AddSame(x, b, y, c, e);
      assert Carried(past, ws[i := pc], hands[i := k]) == x + e by {
        assert ws[i := pc][..n] == ws[..n][i := pc] && hands[i := k][..n] == hands[..n][i := k];
      }
    }
  }

  lemma {:induction false} CarriedFacts(ws: seq<WriterPc>, hands: seq<nat>)
    requires |ws| == |hands|
    ensures Carried(true, ws, hands) <= Carried(false, ws, hands)
    ensures |Carried(false, ws, hands)| == Holding(ws)
  {
    if ws != [] {
      var n := |ws| - 1;
      hide Holding;
      assert ws == ws[..n] + [ws[n]];
      ExtendedHolding(ws[..n], ws[n]);
      CarriedFacts(ws[..n], hands[..n]);
    } else {
      assert Holding([]) == 0;
    }
  }

  lemma Cancel(a: multiset<nat>, b: multiset<nat>, c: multiset<nat>)
    requires a + c == b + c
    ensures a == b
  {
    assert a == (a + c) - c;
    assert b == (b + c) - c;
  }

  lemma WakeCarries(past: bool, ws: seq<WriterPc>, hands: seq<nat>, from: WriterPc, to: WriterPc, target: nat)
    requires |ws| == |hands|
    requires (from.Parked? && to.Woken?) || (from.Blocked? && to.Unblocked?)
    ensures Carried(past, Wake(ws, from, to, target), hands) == Carried(past, ws, hands)
  {
    hide Carried;
    if target < |ws| && ws[target] == from {
      CarriedMoves(past, ws, hands, target, to, hands[target]);
      assert hands[target := hands[target]] == hands;
      var was := Hand(past, from, hands[target]);
      Cancel(Carried(past, Wake(ws, from, to, target), hands), Carried(past, ws, hands), was);
    }
  }

  // ----- The positions below a bound

  function Range(n: nat): multiset<nat> {
    if n == 0 then multiset{} else Range(n - 1) + multiset{n - 1}
  }

  lemma {:induction false} RangeFacts(n: nat)
    ensures |Range(n)| == n
    ensures forall k: nat :: Range(n)[k] == if k < n then 1 else 0
  {
    if n > 0 {
      RangeFacts(n - 1);
    }
  }

  // ----- Conservation

  /** Items that reached the calculation queue, were dropped there, or are in a Writer's hands. */
  ghost function Handed(past: bool, s: State): multiset<nat>
    requires |s.writers| == |s.book.hands|
  {
    multiset(s.calculation.hist) + multiset(s.book.dropped) + Carried(past, s.writers, s.book.hands)
  }

  predicate Takes(s: State, i: nat, target: nat)
    requires CanWrite(s, i, target)
  {
    Next(s, i, target).Took?
  }

  predicate Delivers(s: State, i: nat, target: nat)
    requires CanWrite(s, i, target)
  {
    Next(s, i, target).Delivered?
  }

  predicate Drops(s: State, i: nat, target: nat)
    requires CanWrite(s, i, target)
  {
    s.writers[i].Offering? && Next(s, i, target).Ready?
  }

  lemma NobodyWoken(ws: seq<WriterPc>)
    ensures Wake(ws, Parked, Woken, |ws|) == ws
  {
  }

  /** Where a Writer's turns lead. */
  lemma WriterPath(s: State, i: nat, target: nat)
    requires CanWrite(s, i, target)
    ensures var from, to := s.writers[i], Next(s, i, target);
      && (to.Took? ==> from.Ready? || from.Woken?)
      && (to.Logging? <==> from.Took?)
      && (to.Offering? <==> from.Logging?)
      && (to.Blocked? || to.Delivered? ==> from.Offering? || from.Unblocked?)
      && (from.Offering? || from.Unblocked? ==> to.Blocked? || to.Delivered? || Drops(s, i, target))
      && !to.Unblocked?
  {
    hide Num, MayWake, Wake;
  }

  /** Everything a Writer's turn does to queues and book, in terms of where it leads. */
  lemma WriterEffect(s: State, i: nat, target: nat)
    requires CanWrite(s, i, target)
    ensures var s', to, k := WriterTurn(s, i, target), Next(s, i, target), s.book.hands[i];
      && |s'.writers| == |s.writers|
      && s'.writers == Wake(s.writers[i := to], Parked, Woken, if s.writers[i].Quitting? then target else |s.writers|)
      && s'.book.hands == (if Takes(s, i, target) then s.book.hands[i := s.api.out] else s.book.hands)
      && s'.api.out == s.api.out + One(Takes(s, i, target))
      && s'.api.hist == s.api.hist
      && (if Delivers(s, i, target)
          then s'.calculation.hist == s.calculation.hist + [k] && s'.book.carriers == s.book.carriers + [i]
          else s'.calculation.hist == s.calculation.hist && s'.book.carriers == s.book.carriers)
      && s'.book.dropped == (if Drops(s, i, target) then s.book.dropped + [k] else s.book.dropped)
      && s'.book.log == (if s.writers[i].Logging? && k < |s.api.hist| && IsTrade(s.api.hist[k])
                         then s.book.log + [k] else s.book.log)
  {
    hide Wake, MayWake, Num;
    WriterGoes(s, i, target);
    NobodyWoken(s.writers[i := Next(s, i, target)]);
    WakeKeepsLength(s.writers[i := Next(s, i, target)], Parked, Woken, target);
  }

  lemma WriterCarries(past: bool, s: State, i: nat, target: nat)
    requires |s.writers| == |s.book.hands| && CanWrite(s, i, target)
    ensures var s', to := WriterTurn(s, i, target), Next(s, i, target);
      && |s'.writers| == |s'.book.hands|
      && Carried(past, s'.writers, s'.book.hands) + Hand(past, s.writers[i], s.book.hands[i])
         == Carried(past, s.writers, s.book.hands) + Hand(past, to, s'.book.hands[i])
  {
    hide Carried, WriterTurn, Next, Hand;
    WriterEffect(s, i, target);
    var s', to := WriterTurn(s, i, target), Next(s, i, target);
    CarriedMoves(past, s.writers, s.book.hands, i, to, s'.book.hands[i]);
    assert s.book.hands[i := s'.book.hands[i]] == s'.book.hands;
    if s.writers[i].Quitting? {
      WakeCarries(past, s.writers[i := to], s'.book.hands, Parked, Woken, target);
    }
  }

  /** What a Writer's turn adds to the items handed on: the item it takes, or the item it logs. */
  function Gain(past: bool, s: State, i: nat, target: nat): multiset<nat>
    requires CanWrite(s, i, target)
  {
    if past then if s.writers[i].Logging? then multiset{s.book.hands[i]} else multiset{}
    else if Takes(s, i, target) then multiset{s.api.out} else multiset{}
  }

  lemma HandTurns(past: bool, s: State, i: nat, target: nat)
    requires |s.writers| == |s.book.hands| && CanWrite(s, i, target)
    ensures |WriterTurn(s, i, target).book.hands| == |s.book.hands|
    ensures var s', to, k := WriterTurn(s, i, target), Next(s, i, target), s.book.hands[i];
      var h, h' := Hand(past, s.writers[i], k), Hand(past, to, s'.book.hands[i]);
      if Delivers(s, i, target) || Drops(s, i, target)
      then h == multiset{k} && h' == multiset{} && Gain(past, s, i, target) == multiset{}
      else h' == h + Gain(past, s, i, target)
  {
    hide WriterTurn, Next, Wake, MayWake, Num;
    WriterPath(s, i, target);
    WriterEffect(s, i, target);
  }

  lemma WriterHands(past: bool, s: State, i: nat, target: nat)
    requires |s.writers| == |s.book.hands| && CanWrite(s, i, target)
    ensures |WriterTurn(s, i, target).writers| == |WriterTurn(s, i, target).book.hands|
    ensures Handed(past, WriterTurn(s, i, target)) == Handed(past, s) + Gain(past, s, i, target)
  {
    hide Carried, WriterTurn, Next, Hand, Gain, Takes, Wake, MayWake, Num;
    WriterEffect(s, i, target);
    WriterCarries(past, s, i, target);
    HandTurns(past, s, i, target);
    var s', to, k := WriterTurn(s, i, target), Next(s, i, target), s.book.hands[i];
    var x, x' := Carried(past, s.writers, s.book.hands), Carried(past, s'.writers, s'.book.hands);
    var g := Gain(past, s, i, target);
    if Delivers(s, i, target) || Drops(s, i, target) {
      assert x == x' + multiset{k};
      assert multiset(s'.calculation.hist) + multiset(s'.book.dropped)
          == multiset(s.calculation.hist) + multiset(s.book.dropped) + multiset{k};
    } else {
      Cancel(x', x + g, Hand(past, s.writers[i], k));
    }
  }

  function SignalTarget(step: Step): nat {
    match step
    case Produce(t) => t
    case HangUp(t) => t
    case ClientReturns(t) => t
    case Calculate(t) => t
    case Write(_, t) => t
    case SpuriousWriter(i) => i
    case _ => 0
  }

  /** A step that moves Writers by a signal only and leaves the hands alone. */
  predicate Untouched(s: State, s': State, target: nat) {
    && s'.api.out == s.api.out && s.api.hist <= s'.api.hist
    && s'.calculation.hist == s.calculation.hist
    && s'.book.hands == s.book.hands && s'.book.carriers == s.book.carriers
    && s'.book.dropped == s.book.dropped && s'.book.log == s.book.log
    && (s'.writers == s.writers || s'.writers == Wake(s.writers, Parked, Woken, target)
        || s'.writers == Wake(s.writers, Blocked, Unblocked, target))
  }

  lemma ProducerEffect(s: State, target: nat)
    requires CanProduce(s, target)
    ensures Untouched(s, ProducerTurn(s, target), target)
  {
    hide Num, MayWake, Wake;
  }

  lemma CalculatorEffect(s: State, target: nat)
    requires CanCalculate(s, target)
    ensures Untouched(s, CalculatorTurn(s, target), target)
  {
    hide Num, MayWake, Wake;
  }

  /** Every step but a Writer's is one. */
  lemma OtherEffect(s: State, step: Step)
    requires Can(s, step) && !step.Write?
    ensures Untouched(s, Do(s, step), SignalTarget(step))
  {
    hide Num, MayWake, ProducerTurn, CanProduce, CalculatorTurn, CanCalculate;
    match step
    case Produce(target) => ProducerEffect(s, target);
    case Calculate(target) => CalculatorEffect(s, target);
    case _ =>
  }

  lemma OtherHands(past: bool, s: State, step: Step)
    requires |s.writers| == |s.book.hands| && Can(s, step) && !step.Write?
    ensures |Do(s, step).writers| == |Do(s, step).book.hands|
    ensures Handed(past, Do(s, step)) == Handed(past, s)
  {
    hide Carried, Do, Can;
    var target := SignalTarget(step);
    OtherEffect(s, step);
    WakeCarries(past, s.writers, s.book.hands, Parked, Woken, target);
    WakeCarries(past, s.writers, s.book.hands, Blocked, Unblocked, target);
  }

  /** Every item taken from the api queue is in exactly one place. */
  ghost predicate Conserved(s: State) {
    && |s.writers| == |s.book.hands|
    && Range(s.api.out) == Handed(false, s)
  }

  /** The logs hold every trade handed on by a Writer, once, and nothing else. */
  ghost predicate Logged(s: State) {
    && |s.writers| == |s.book.hands|
    && forall k: nat :: multiset(s.book.log)[k] ==
         if k < |s.api.hist| && s.api.hist[k].trade.v > -1.0 then Handed(true, s)[k] else 0
  }

  lemma WriterConserves(s: State, i: nat, target: nat)
    requires Conserved(s) && CanWrite(s, i, target)
    ensures Conserved(WriterTurn(s, i, target))
  {
    hide Handed, WriterTurn, Next;
    WriterEffect(s, i, target);
    WriterHands(false, s, i, target);
  }

  lemma StepConserves(s: State, step: Step)
    requires Bounded(s) && Conserved(s) && Can(s, step)
    ensures Conserved(Do(s, step))
  {
    hide Handed, Range, WriterTurn, CanWrite;
    match step
    case Write(i, target) => WriterConserves(s, i, target);
    case _ => OtherHands(false, s, step);
  }

  /** Nothing is handed on before it is taken. */
  lemma HandedBelow(s: State, k: nat)
    requires Bounded(s) && Conserved(s) && k >= s.api.out
    ensures Handed(true, s)[k] == 0
  {
    CarriedFacts(s.writers, s.book.hands);
    RangeFacts(s.api.out);
    assert Handed(true, s) <= Handed(false, s);
  }

  lemma WriterLogs(s: State, i: nat, target: nat)
    requires Logged(s) && CanWrite(s, i, target)
    ensures Logged(WriterTurn(s, i, target))
  {
    hide Handed, WriterTurn, Next, Carried;
    WriterPath(s, i, target);
    WriterEffect(s, i, target);
    WriterHands(true, s, i, target);
  }

  lemma StepLogs(s: State, step: Step)
    requires Bounded(s) && Conserved(s) && Logged(s) && Can(s, step)
    ensures Logged(Do(s, step))
  {
    hide Handed, Range, WriterTurn, CanWrite, Do, Can;
    if step.Write? {
      assert CanWrite(s, step.i, step.target) && Do(s, step) == WriterTurn(s, step.i, step.target) by {
        StepIsTurn(s, step);
      }
      WriterLogs(s, step.i, step.target);
    } else {
      OtherEffect(s, step);
      OtherHands(true, s, step);
      forall k: nat | k >= |s.api.hist|
        ensures Handed(true, s)[k] == 0
      {
        HandedBelow(s, k);
      }
    }
  }

  lemma StepIsTurn(s: State, step: Step)
    requires Can(s, step) && step.Write?
    ensures CanWrite(s, step.i, step.target) && Do(s, step) == WriterTurn(s, step.i, step.target)
  {
  }

  // ----- Order

  ghost predicate Indexed(s: State) {
    && |s.writers| == |s.book.hands|
    && |s.book.carriers| == |s.calculation.hist|
    && forall n :: 0 <= n < |s.book.carriers| ==> s.book.carriers[n] < |s.writers|
  }

  /** Each Writer's deliveries, and the item it still holds, are in api order. */
  ghost predicate Ordered(s: State)
    requires Indexed(s)
  {
    && (forall m, n :: 0 <= m < n < |s.calculation.hist| && s.book.carriers[m] == s.book.carriers[n] ==>
          s.calculation.hist[m] < s.calculation.hist[n])
    && (forall n :: 0 <= n < |s.calculation.hist| && Holds(s.writers[s.book.carriers[n]]) ==>
          s.calculation.hist[n] < s.book.hands[s.book.carriers[n]])
    && (forall n :: 0 <= n < |s.calculation.hist| ==> s.calculation.hist[n] < s.api.out)
    && (forall i :: 0 <= i < |s.writers| && Holds(s.writers[i]) ==> s.book.hands[i] < s.api.out)
  }

  lemma WriterKeepsOrder(s: State, i: nat, target: nat)
    requires Indexed(s) && Ordered(s) && CanWrite(s, i, target)
    ensures Indexed(WriterTurn(s, i, target)) && Ordered(WriterTurn(s, i, target))
  {
    hide WriterTurn, Next, Num, MayWake;
    WriterPath(s, i, target);
    WriterEffect(s, i, target);
  }

  lemma StepKeepsOrder(s: State, step: Step)
    requires Indexed(s) && Ordered(s) && Can(s, step)
    ensures Indexed(Do(s, step)) && Ordered(Do(s, step))
  {
    hide Do, Can, WriterTurn, CanWrite;
    if step.Write? {
      StepIsTurn(s, step);
      WriterKeepsOrder(s, step.i, step.target);
    } else {
      OtherEffect(s, step);
    }
  }

  // ----- Overtaking

  /** Items accepted before the n-th delivery's item that had not been delivered before it. */
  function Missing(hist: seq<nat>, n: nat): set<nat>
    requires n < |hist|
  {
    set k | 0 <= k < hist[n] && k !in hist[..n]
  }

  /** Those of them that have not been dropped either. */
  function Late(s: State, n: nat): set<nat>
    requires n < |s.calculation.hist|
  {
    Missing(s.calculation.hist, n) - set k | k in s.book.dropped
  }

  /** How far a delivery can run ahead of older items. */
  ghost predicate BoundedOvertaking(s: State) {
    forall n :: 0 <= n < |s.calculation.hist| ==>
      && s.calculation.hist[n] <= n + |s.writers| - 1 + |s.book.dropped|
      && |Late(s, n)| <= |s.writers| - 1
  }

  lemma SetInBag(xs: set<nat>, b: multiset<nat>)
    requires forall k :: k in xs ==> k in b
    ensures |xs| <= |b|
  {
    assert multiset(xs) <= b;
    assert b == multiset(xs) + (b - multiset(xs));
  }

  /** The books balance. */
  lemma AccountSize(s: State)
    requires Conserved(s)
    ensures s.api.out == |s.calculation.hist| + |s.book.dropped| + Holding(s.writers)
  {
    hide Carried, Range, Holding;
    RangeFacts(s.api.out);
    CarriedFacts(s.writers, s.book.hands);
  }

  lemma Whereabouts(s: State, k: nat)
    requires Conserved(s)
    ensures k < s.api.out <==>
      k in s.calculation.hist || k in s.book.dropped || k in Carried(false, s.writers, s.book.hands)
  {
    hide Carried, Range;
    RangeFacts(s.api.out);
    assert k in Range(s.api.out) <==> k in Handed(false, s);
  }

  lemma HoldingBound(ws: seq<WriterPc>, i: nat)
    requires i < |ws| && ws[i].Delivered?
    ensures Holding(ws) <= |ws| - 1
  {
    Counted(ws, i);
    hide Num, Holding, Left;
    Partition(ws);
  }

  /** The delivery just made: what is older and undelivered is dropped or in other hands. */
  lemma DeliveryBounds(s: State, i: nat)
    requires Conserved(s) && i < |s.writers| && s.writers[i].Delivered? && s.calculation.hist != []
    ensures var n := |s.calculation.hist| - 1;
      && s.calculation.hist[n] <= n + |s.writers| - 1 + |s.book.dropped|
      && |Late(s, n)| <= |s.writers| - 1
  {
    hide Carried, Range, Holding, Handed;
    var hist := s.calculation.hist;
    var n := |hist| - 1;
    AccountSize(s);
    Whereabouts(s, hist[n]);
    HoldingBound(s.writers, i);
    forall k | k in Late(s, n)
      ensures k in Carried(false, s.writers, s.book.hands)
    {
      Whereabouts(s, k);
      assert hist == hist[..n] + [hist[n]];
    }
    SetInBag(Late(s, n), Carried(false, s.writers, s.book.hands));
    CarriedFacts(s.writers, s.book.hands);
  }

  lemma StepKeepsOvertaking(s: State, step: Step)
    requires Bounded(s) && Conserved(s) && BoundedOvertaking(s) && Can(s, step)
    ensures BoundedOvertaking(Do(s, step))
  {
    hide Do, Can, WriterTurn, CanWrite, Next, Conserved;
    var s' := Do(s, step);
    StepConserves(s, step);
    if step.Write? {
      StepIsTurn(s, step);
      WriterEffect(s, step.i, step.target);
      if Delivers(s, step.i, step.target) {
        assert s'.writers[step.i].Delivered?;
        DeliveryBounds(s', step.i);
      }
    } else {
      OtherEffect(s, step);
    }
    forall n | 0 <= n < |s.calculation.hist|
      ensures s'.calculation.hist[n] <= n + |s'.writers| - 1 + |s'.book.dropped|
      ensures |Late(s', n)| <= |s'.writers| - 1
    {
      assert s'.calculation.hist[..n] == s.calculation.hist[..n];
      assert Late(s', n) <= Late(s, n);
      Subset(Late(s', n), Late(s, n));
    }
  }

  lemma Subset(a: set<nat>, b: set<nat>)
    requires a <= b
    ensures |a| <= |b|
  {
    assert b == a + (b - a);
  }

  // ----- A single Writer

  /** Only another Writer's exit makes a Writer's delivery fail. */
  ghost predicate SoleWriterDelivers(s: State) {
    |s.writers| == 1 ==> s.book.dropped == []
  }

  lemma NobodyDropsAlone(s: State, i: nat, target: nat)
    requires Flags(s) && |s.writers| == 1 && CanWrite(s, i, target)
    ensures !Drops(s, i, target)
  {
    Partition(s.writers);
    Counted(s.writers, i);
  }

  lemma StepKeepsSole(s: State, step: Step)
    requires Flags(s) && SoleWriterDelivers(s) && Can(s, step)
    ensures SoleWriterDelivers(Do(s, step))
  {
    hide Do, Can, WriterTurn, CanWrite, Next, Num;
    if step.Write? {
      StepIsTurn(s, step);
      WriterEffect(s, step.i, step.target);
      if |s.writers| == 1 {
        NobodyDropsAlone(s, step.i, step.target);
      }
    } else {
      OtherEffect(s, step);
    }
  }
}
