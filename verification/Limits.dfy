/** Runs that show where the shutdown guarantees end: the lost signal, and queues with too little room. */
module Limits {
  import opened WorkItems
  import opened Pipeline
  import opened Totals
  import opened Drain

  predicate Plain(steps: seq<Step>) {
    forall step :: step in steps ==> !Spurious(step)
  }

  /** t follows s by some run without spurious wake-ups. */
  ghost predicate Reaches(s: State, t: State) {
    exists steps :: Plain(steps) && Feasible(s, steps) && After(s, steps) == t
  }

  lemma OneStep(s: State, step: Step)
    requires Can(s, step) && !Spurious(step)
    ensures Reaches(s, Do(s, step))
  {
    hide Can, Do;
    var t := Do(s, step);
    assert [step][1..] == [];
    assert Plain([step]) && Feasible(s, [step]) && After(s, [step]) == t;
  }

  lemma {:induction false} Joined(s: State, xs: seq<Step>, ys: seq<Step>)
    requires Feasible(s, xs) && Feasible(After(s, xs), ys)
    ensures Feasible(s, xs + ys) && After(s, xs + ys) == After(After(s, xs), ys)
    decreases |xs|
  {
    hide Can, Do;
    if xs == [] {
      assert xs + ys == ys;
    } else {
      assert (xs + ys)[0] == xs[0] && (xs + ys)[1..] == xs[1..] + ys;
      Joined(Do(s, xs[0]), xs[1..], ys);
    }
  }

  lemma Chain(a: State, b: State, c: State)
    requires Reaches(a, b) && Reaches(b, c)
    ensures Reaches(a, c)
  {
    hide Feasible, After;
    var xs :| Plain(xs) && Feasible(a, xs) && After(a, xs) == b;
    var ys :| Plain(ys) && Feasible(b, ys) && After(b, ys) == c;
    Joined(a, xs, ys);
    assert Plain(xs + ys);
  }

  lemma Onward(a: State, b: State, step: Step)
    requires Reaches(a, b) && Can(b, step) && !Spurious(step)
    ensures Reaches(a, Do(b, step))
  {
    hide Reaches, Can, Do;
    OneStep(b, step);
    Chain(a, b, Do(b, step));
  }

  lemma Absent(ws: seq<WriterPc>, pc: WriterPc)
    requires pc !in ws
    ensures Num(ws, pc) == 0
  {
  }

  // ----- The lost signal

  function SomeGone(w: nat, k: nat): seq<WriterPc>
    requires k <= w
  {
    seq(w, i => if i < k then Gone else Ready)
  }

  /** The Calculator tested its queue before the exit order and has not yet begun to wait; k Writers have left. */
  function WindowOpen(w: nat, n: nat, k: nat): State
    requires k <= w
  {
    var s := Init(w, n);
    s.(api := s.api.(exit := true), calculation := s.calculation.(exit := k > 0), clientDone := true,
       calculator := CParking, writers := SomeGone(w, k))
  }

  lemma WindowOpens(w: nat, n: nat)
    ensures Reaches(Init(w, n), WindowOpen(w, n, 0))
  {
    hide Reaches, Num;
    Absent(AllReady(w), Parking);
    Absent(AllReady(w), Parked);
    var s0 := Init(w, n);
    OneStep(s0, Calculate(0));
    var s1 := Do(s0, Calculate(0));
    Onward(s0, s1, Interrupt);
    var s2 := Do(s1, Interrupt);
    Onward(s0, s2, ClientReturns(0));
    assert SomeGone(w, 0) == AllReady(w);
    assert Do(s2, ClientReturns(0)) == WindowOpen(w, n, 0);
  }

  /** One more Writer leaves; its signal finds the Calculator not yet waiting. */
  lemma OneMoreLeaves(w: nat, n: nat, k: nat)
    requires k < w
    ensures Reaches(WindowOpen(w, n, k), WindowOpen(w, n, k + 1))
  {
    hide Reaches, Num;
    var s0 := WindowOpen(w, n, k);
    Absent(s0.writers, Parking);
    var step := Write(k, w);
    OneStep(s0, step);
    var s1 := Do(s0, step);
    Absent(s1.writers, Parked);
    Onward(s0, s1, step);
    var s2 := Do(s1, step);
    Onward(s0, s2, step);
    var s3 := Do(s2, step);
    Onward(s0, s3, step);
    assert s0.writers[k := Quitting][k := Flagging][k := Notifying][k := Gone] == SomeGone(w, k + 1);
  }

  lemma {:induction false} ManyLeave(w: nat, n: nat, k: nat)
    requires k <= w
    ensures Reaches(Init(w, n), WindowOpen(w, n, k))
  {
    hide Reaches;
    if k == 0 {
      WindowOpens(w, n);
    } else {
      ManyLeave(w, n, k - 1);
      OneMoreLeaves(w, n, k - 1);
      Chain(Init(w, n), WindowOpen(w, n, k - 1), WindowOpen(w, n, k));
    }
  }

  /** Every Writer gone, every signal lost, the Calculator waiting. */
  function Stranded(w: nat, n: nat): State {
    WindowOpen(w, n, w).(calculator := CParked)
  }

  lemma SignalCanBeLost(w: nat, n: nat)
    ensures Reaches(Init(w, n), Stranded(w, n))
    ensures Num(Stranded(w, n).writers, Gone) == w && Stranded(w, n).calculator.CParked?
  {
    hide Reaches;
    ManyLeave(w, n, w);
    Onward(Init(w, n), WindowOpen(w, n, w), Calculate(0));
    AllGone(w);
  }

  lemma {:induction false} AllGone(w: nat)
    ensures Num(SomeGone(w, w), Gone) == w
  {
    if w > 0 {
      assert SomeGone(w, w) == SomeGone(w - 1, w - 1) + [Gone];
      AllGone(w - 1);
    } else {
      assert SomeGone(0, 0) == [];
    }
  }

  lemma StaysStranded(s: State, step: Step)
    requires Num(s.writers, Gone) == |s.writers| && s.calculator.CParked?
    requires Can(s, step) && !Spurious(step)
    ensures Do(s, step).calculator.CParked? && Do(s, step).writers == s.writers
  {
    hide Num;
    EveryoneGone(s.writers);
  }

  /** With every Writer gone nobody signals a waiting Calculator any more. */
  lemma {:induction false} StrandedForEver(s: State, steps: seq<Step>)
    requires Num(s.writers, Gone) == |s.writers| && s.calculator.CParked?
    requires Plain(steps) && Feasible(s, steps)
    ensures After(s, steps).calculator.CParked?
    decreases |steps|
  {
    if steps != [] {
      hide Num, Do, Can;
      assert steps[0] in steps;
      StaysStranded(s, steps[0]);
      StrandedForEver(Do(s, steps[0]), steps[1..]);
    }
  }

  lemma {:induction false} EveryoneGone(ws: seq<WriterPc>)
    requires Num(ws, Gone) == |ws|
    ensures forall i :: 0 <= i < |ws| ==> ws[i] == Gone
  {
    if ws != [] {
      var n := |ws| - 1;
      assert ws == ws[..n] + [ws[n]];
      assert Num(ws[..n], Gone) <= n by {
        Partition(ws[..n]);
      }
      EveryoneGone(ws[..n]);
    }
  }

  // ----- Too little room: with n + 2 Writers or more, one can stay blocked behind a Calculator that has left

  function Item(): WorkItem {
    WorkItem(Trade(1.0, 0, 0, 1.0), 0)
  }

  function Items(k: nat): seq<WorkItem> {
    seq(k, i => Item())
  }

  /** WSSClient is in the middle of a message; nobody has been told to exit. */
  ghost predicate Feeding(s: State, n: nat, ws: seq<WriterPc>, length: nat, rest: nat) {
    && s.writers == ws && |s.book.hands| == |ws| && Parked !in ws && Parking !in ws
    && s.api.capacity == n && s.api.Empty() && s.api.out == |s.api.hist| && !s.api.exit
    && s.calculation.capacity == n && s.calculation.Length() == length && !s.calculation.exit
    && s.calculation.out == 0
    && s.calculator == CReady && s.producer == Active(false, Items(rest), PReady) && !s.clientDone
  }

  /** Writer i takes the next item of the message as far as its queue_add. */
  lemma Feed(s: State, n: nat, ws: seq<WriterPc>, i: nat, length: nat, rest: nat) returns (t: State)
    requires n >= 1 && rest > 0 && Feeding(s, n, ws, length, rest) && i < |ws| && ws[i].Ready?
    ensures Reaches(s, t) && Feeding(t, n, ws[i := Offering], length, rest - 1)
    ensures |t.api.hist| == |s.api.hist| + 1
  {
    hide Reaches, Num;
    Absent(ws, Parking);
    Absent(ws, Parked);
    assert Items(rest)[1..] == Items(rest - 1);
    OneStep(s, Produce(0));
    var s1 := Do(s, Produce(0));
    var s2 := FeedSignal(s, s1);
    var s3 := Do(s2, Write(i, 0));
    Onward(s, s2, Write(i, 0));
    var s4 := Do(s3, Write(i, 0));
    Onward(s, s3, Write(i, 0));
    t := Do(s4, Write(i, 0));
    Onward(s, s4, Write(i, 0));
    assert ws[i := Took][i := Logging][i := Offering] == ws[i := Offering];
  }

  lemma FeedSignal(s: State, s1: State) returns (s2: State)
    requires Reaches(s, s1) && s1.producer.Active? && s1.producer.pc.PSignal? && Parked !in s1.writers
    ensures Reaches(s, s2) && s2 == s1.(producer := s1.producer.(pc := PReady))
  {
    hide Reaches, Num;
    Absent(s1.writers, Parked);
    Onward(s, s1, Produce(|s1.writers|));
    s2 := Do(s1, Produce(|s1.writers|));
  }

  function SomeBlocked(w: nat, m: nat): seq<WriterPc> {
    seq(w, i => if 1 <= i <= m then Blocked else Ready)
  }

  lemma Begin(w: nat, n: nat, items: nat) returns (t: State)
    requires w >= 1 && n >= 1
    ensures Reaches(Init(w, n), t) && Feeding(t, n, SomeBlocked(w, 0), 0, items) && t.api.hist == []
  {
    hide Reaches;
    OneStep(Init(w, n), Receive(Items(items)));
    t := Do(Init(w, n), Receive(Items(items)));
    assert SomeBlocked(w, 0) == AllReady(w);
  }

  /** Writer 0 fills the calculation queue. */
  lemma {:induction false} Fill(w: nat, n: nat, k: nat, items: nat) returns (t: State)
    requires w >= 1 && n >= 1 && k <= n && k <= items
    ensures Reaches(Init(w, n), t) && Feeding(t, n, SomeBlocked(w, 0), k, items - k)
  {
    hide Reaches, Num;
    if k == 0 {
      t := Begin(w, n, items);
    } else {
      var s := Fill(w, n, k - 1, items);
      var s1 := Feed(s, n, s.writers, 0, k - 1, items - k + 1);
      Chain(Init(w, n), s, s1);
      Onward(Init(w, n), s1, Write(0, 0));
      var s2 := Do(s1, Write(0, 0));
      Onward(Init(w, n), s2, Write(0, 0));
      t := Do(s2, Write(0, 0));
      assert s.writers[0 := Offering][0 := Delivered][0 := Ready] == s.writers;
    }
  }

  /** Writers 1 to m block on the full queue. */
  lemma {:induction false} BlockUp(w: nat, n: nat, m: nat, items: nat) returns (t: State)
    requires n >= 1 && m < w && n + m <= items
    ensures Reaches(Init(w, n), t) && Feeding(t, n, SomeBlocked(w, m), n, items - n - m)
  {
    hide Reaches, Num;
    if m == 0 {
      t := Fill(w, n, n, items);
    } else {
      var s := BlockUp(w, n, m - 1, items);
      var s1 := Feed(s, n, s.writers, m, n, items - n - m + 1);
      Chain(Init(w, n), s, s1);
      Onward(Init(w, n), s1, Write(m, 0));
      t := Do(s1, Write(m, 0));
      assert s.writers[m := Offering][m := Blocked] == SomeBlocked(w, m);
    }
  }

  // ----- Everyone waiting: before the first exit the order can rest with a Writer that waits itself

  function SomeParked(w: nat, m: nat): seq<WriterPc> {
    seq(w, i => if i < m then Parked else Ready)
  }

  /** The calculation queue is full, the api queue empty, and m Writers wait for items. */
  ghost predicate Idling(s: State, w: nat, n: nat, m: nat) {
    && s.writers == SomeParked(w, m) && |s.book.hands| == w
    && s.api.capacity == n && s.api.Empty() && s.api.out == |s.api.hist| && !s.api.exit
    && s.calculation.Full() && !s.calculation.exit && s.calculator == CReady
    && s.producer == Active(false, Items(1), PReady) && !s.clientDone
  }

  lemma {:induction false} Park(w: nat, n: nat, m: nat) returns (t: State)
    requires w >= 1 && n >= 1 && m <= w
    ensures Reaches(Init(w, n), t) && Idling(t, w, n, m)
  {
    hide Reaches, Num;
    if m == 0 {
      t := Fill(w, n, n, n + 1);
      assert SomeBlocked(w, 0) == SomeParked(w, 0);
    } else {
      var s := Park(w, n, m - 1);
      Absent(s.writers, Parking);
      Onward(Init(w, n), s, Write(m - 1, 0));
      var s1 := Do(s, Write(m - 1, 0));
      Onward(Init(w, n), s1, Write(m - 1, 0));
      t := Do(s1, Write(m - 1, 0));
      assert s.writers[m - 1 := Parking][m - 1 := Parked] == SomeParked(w, m);
    }
  }

  /** WSSClient has returned and signalled nobody; Writer 0 waits for room, all others for items. */
  ghost predicate AllWaiting(s: State, w: nat)
    requires w >= 1
  {
    && s.writers == SomeParked(w, w)[0 := Blocked]
    && s.clientDone && s.producer.Free? && s.api.exit && !s.calculation.exit && s.calculator == CReady
  }

  /** The last item wakes Writer 0 before the exit order. */
  lemma LastItemWakes(w: nat, n: nat) returns (t: State)
    requires w >= 2 && n >= 1
    ensures Reaches(Init(w, n), t)
    ensures t.writers == SomeParked(w, w)[0 := Woken] && |t.book.hands| == w
    ensures !t.api.Empty() && t.api.exit && t.calculation.Full() && !t.calculation.exit
    ensures t.calculator == CReady && t.producer.Free? && !t.clientDone
  {
    hide Reaches, Num;
    var s0 := Init(w, n);
    var s := Park(w, n, w);
    Absent(s.writers, Parking);
    Onward(s0, s, Produce(0));
    var s1 := Do(s, Produce(0));
    Onward(s0, s1, Produce(0));
    var s2 := Do(s1, Produce(0));
    Onward(s0, s2, Produce(0));
    var s3 := Do(s2, Produce(0));
    Absent(s3.writers, Parking);
    Onward(s0, s3, Interrupt);
    t := Do(s3, Interrupt);
  }

  /** For every size with two Writers or more, a run after which nobody runs or is woken among the Writers. */
  lemma AllCanWait(w: nat, n: nat) returns (t: State)
    requires w >= 2 && n >= 1
    ensures Reaches(Init(w, n), t) && AllWaiting(t, w)
  {
    hide Reaches, Num;
    var s0 := Init(w, n);
    var s := LastItemWakes(w, n);
    Absent(s.writers, Parking);
    assert s.writers[1] == Parked;
    Counted(s.writers, 1);
    Onward(s0, s, ClientReturns(1));
    var s1 := Do(s, ClientReturns(1));
    Onward(s0, s1, Write(0, 0));
    var s2 := Do(s1, Write(0, 0));
    Onward(s0, s2, Write(0, 0));
    var s3 := Do(s2, Write(0, 0));
    Onward(s0, s3, Write(0, 0));
    var s4 := Do(s3, Write(0, 0));
    Onward(s0, s4, Write(0, 0));
    t := Do(s4, Write(0, 0));
    assert s.writers[0 := Took][0 := Logging][0 := Offering][0 := Blocked] == SomeParked(w, w)[0 := Blocked];
  }

  /** Writer 0 has set the calculation exit flag; the Calculator has served j blocked Writers. */
  function SomeServed(w: nat, n: nat, j: nat): seq<WriterPc>
    requires w >= 1
  {
    seq(w, i => if 1 <= i <= j then Unblocked else if 1 <= i <= n + 1 then Blocked else Ready)[0 := Notifying]
  }

  ghost predicate Serving(s: State, w: nat, n: nat, j: nat)
    requires w >= 1
  {
    && s.writers == SomeServed(w, n, j) && s.calculator == CReady
    && s.calculation.exit && s.calculation.Length() == n - j
  }

  lemma ExitBegins(w: nat, n: nat) returns (t: State)
    requires n >= 1 && n + 2 <= w
    ensures Reaches(Init(w, n), t) && Serving(t, w, n, 0)
  {
    hide Reaches, Num;
    var s0 := Init(w, n);
    var s := BlockUp(w, n, n + 1, 2 * n + 1);
    Absent(s.writers, Parking);
    Absent(s.writers, Parked);
    Onward(s0, s, Produce(0));
    var s1 := Do(s, Produce(0));
    Onward(s0, s1, Interrupt);
    var s2 := Do(s1, Interrupt);
    Onward(s0, s2, ClientReturns(0));
    var s3 := Do(s2, ClientReturns(0));
    Onward(s0, s3, Write(0, w));
    var s4 := Do(s3, Write(0, w));
    Absent(s4.writers, Parked);
    Onward(s0, s4, Write(0, w));
    var s5 := Do(s4, Write(0, w));
    Onward(s0, s5, Write(0, w));
    t := Do(s5, Write(0, w));
    assert s.writers[0 := Quitting][0 := Flagging][0 := Notifying] == SomeServed(w, n, 0);
  }

  lemma {:induction false} Serve(w: nat, n: nat, j: nat) returns (t: State)
    requires n >= 1 && n + 2 <= w && j <= n
    ensures Reaches(Init(w, n), t) && Serving(t, w, n, j)
  {
    hide Reaches, Num;
    if j == 0 {
      t := ExitBegins(w, n);
    } else {
      var s0 := Init(w, n);
      var s := Serve(w, n, j - 1);
      Onward(s0, s, Calculate(0));
      var s1 := Do(s, Calculate(0));
      Onward(s0, s1, Calculate(j));
      var s2 := Do(s1, Calculate(j));
      Onward(s0, s2, Calculate(0));
      t := Do(s2, Calculate(0));
      assert s.writers[j := Unblocked] == SomeServed(w, n, j);
    }
  }

  /** A Writer that waits for room in a queue nobody drains any more. */
  ghost predicate Forsaken(s: State, i: nat) {
    i < |s.writers| && s.writers[i].Blocked? && s.calculator.CGone?
  }

  lemma WriterCanBeForsaken(w: nat, n: nat) returns (t: State)
    requires n >= 1 && n + 2 <= w
    ensures Reaches(Init(w, n), t) && Forsaken(t, n + 1)
  {
    hide Reaches, Num;
    var s0 := Init(w, n);
    var s := Serve(w, n, n);
    Onward(s0, s, Calculate(0));
    var s1 := Do(s, Calculate(0));
    Onward(s0, s1, Calculate(0));
    t := Do(s1, Calculate(0));
  }

  lemma StaysForsaken(s: State, i: nat, step: Step)
    requires Forsaken(s, i) && Can(s, step) && !Spurious(step)
    ensures Forsaken(Do(s, step), i)
  {
    hide Num;
  }

  lemma {:induction false} ForsakenForEver(s: State, i: nat, steps: seq<Step>)
    requires Forsaken(s, i) && Plain(steps) && Feasible(s, steps)
    ensures Forsaken(After(s, steps), i)
    decreases |steps|
  {
    if steps != [] {
      hide Do, Can, Forsaken;
      assert steps[0] in steps;
      StaysForsaken(s, i, steps[0]);
      ForsakenForEver(Do(s, steps[0]), i, steps[1..]);
    }
  }
}
