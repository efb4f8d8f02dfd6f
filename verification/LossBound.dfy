/** For every number of Writers and every capacity, a shutdown that loses as many items as it has Writers. */
module LossBound {
  import opened Pipeline
  import opened Limits

  /** Writers 1 to m have an item in hand. */
  function SomeArmed(w: nat, m: nat): seq<WriterPc> {
    seq(w, i => if 1 <= i <= m then Offering else Ready)
  }

  lemma {:induction false} Arm(w: nat, n: nat, m: nat, items: nat) returns (t: State)
    requires n >= 1 && m < w && m <= items
    ensures Reaches(Init(w, n), t) && Feeding(t, n, SomeArmed(w, m), 0, items - m) && |t.api.hist| == m
  {
    hide Reaches, Num;
    if m == 0 {
      t := Begin(w, n, items);
      assert SomeArmed(w, 0) == SomeBlocked(w, 0);
    } else {
      var s := Arm(w, n, m - 1, items);
      t := Feed(s, n, s.writers, m, 0, items - m + 1);
      Chain(Init(w, n), s, t);
      assert s.writers[m := Offering] == SomeArmed(w, m);
    }
  }

  /** The producer has put j more items into the api queue, which nobody removes. */
  ghost predicate Stocked(s: State, w: nat, n: nat, j: nat, rest: nat)
    requires w >= 1
  {
    && s.writers == SomeArmed(w, w - 1) && |s.book.hands| == w
    && s.api.capacity == n && s.api.Length() == j && |s.api.hist| == w - 1 + j && !s.api.exit
    && s.calculation.capacity == n && s.calculation.Empty() && !s.calculation.exit && s.calculation.out == 0
    && s.calculator == CReady && s.producer == Active(false, Items(rest), PReady)
  }

  lemma {:induction false} Stock(w: nat, n: nat, j: nat) returns (t: State)
    requires w >= 1 && n >= 1 && j <= n
    ensures Reaches(Init(w, n), t) && Stocked(t, w, n, j, n + 1 - j)
  {
    hide Reaches, Num;
    if j == 0 {
      t := Arm(w, n, w - 1, w + n);
    } else {
      var s := Stock(w, n, j - 1);
      Absent(s.writers, Parking);
      assert Items(n + 2 - j)[1..] == Items(n + 1 - j);
      Onward(Init(w, n), s, Produce(0));
      t := FeedSignal(Init(w, n), Do(s, Produce(0)));
    }
  }

  /** The exit order finds the producer past its exit test; Writer 0 has since passed j items on. */
  ghost predicate Emptying(s: State, w: nat, n: nat, j: nat)
    requires w >= 1
  {
    && s.writers == SomeArmed(w, w - 1) && |s.book.hands| == w
    && s.api.capacity == n && s.api.Length() == n - j && |s.api.hist| == w - 1 + n && s.api.exit
    && s.calculation.capacity == n && s.calculation.Length() == j && !s.calculation.exit && s.calculation.out == 0
    && s.calculator == CReady
    && s.producer == Active(false, Items(1), if j == 0 then PBlocked else PUnblocked)
  }

  lemma ExitFindsProducer(w: nat, n: nat) returns (t: State)
    requires w >= 1 && n >= 1
    ensures Reaches(Init(w, n), t) && Emptying(t, w, n, 0)
  {
    hide Reaches, Num;
    var s := Stock(w, n, n);
    Absent(s.writers, Parking);
    Onward(Init(w, n), s, Produce(0));
    var s1 := Do(s, Produce(0));
    Onward(Init(w, n), s1, Interrupt);
    t := Do(s1, Interrupt);
  }

  lemma {:induction false} Empty(w: nat, n: nat, j: nat) returns (t: State)
    requires w >= 1 && n >= 1 && j <= n
    ensures Reaches(Init(w, n), t) && Emptying(t, w, n, j)
  {
    hide Reaches, Num;
    if j == 0 {
      t := ExitFindsProducer(w, n);
    } else {
      var s := Empty(w, n, j - 1);
      Absent(s.writers, Parking);
      var s1 := PassOn(Init(w, n), s);
      t := s1;
    }
  }

  /** Writer 0 carries one item from the api queue to the calculation queue. */
  lemma PassOn(s0: State, s: State) returns (t: State)
    requires Reaches(s0, s) && s.writers != [] && |s.book.hands| == |s.writers|
    requires s.writers[0] == Ready && Num(s.writers, Parking) == 0
    requires !s.api.Empty() && !s.calculation.exit && !s.calculation.Full() && s.calculator == CReady
    ensures Reaches(s0, t)
    ensures t.writers == s.writers && t.book.hands == s.book.hands[0 := s.api.out]
    ensures t.api == s.api.Take() && t.calculation == s.calculation.Append(s.api.out)
    ensures t.calculator == CReady && t.producer == WakeProducer(s.producer) && t.clientDone == s.clientDone
    ensures t.book.ticks == s.book.ticks && t.book.directives == s.book.directives && t.book.dropped == s.book.dropped
  {
    hide Reaches, Num;
    Onward(s0, s, Write(0, 0));
    var s1 := Do(s, Write(0, 0));
    Onward(s0, s1, Write(0, 0));
    var s2 := Do(s1, Write(0, 0));
    Onward(s0, s2, Write(0, 0));
    var s3 := Do(s2, Write(0, 0));
    Onward(s0, s3, Write(0, 0));
    var s4 := Do(s3, Write(0, 0));
    Onward(s0, s4, Write(0, 0));
    t := Do(s4, Write(0, 0));
    assert s.writers[0 := Took][0 := Logging][0 := Offering][0 := Delivered][0 := Ready] == s.writers;
  }

  /** Writers up to k have gone; the others still hold their item. */
  function SomeLeft(w: nat, k: nat): seq<WriterPc> {
    seq(w, i => if i <= k then Gone else Offering)
  }

  ghost predicate Leaving(s: State, w: nat, n: nat, k: nat) {
    && s.writers == SomeLeft(w, k) && |s.book.hands| == w
    && s.api.capacity == n && s.api.Empty() && |s.api.hist| == w - 1 + n && s.api.out == |s.api.hist| && s.api.exit
    && s.calculation.Length() == n && s.calculation.exit && s.calculation.out == 0
    && s.calculator == CReady && s.producer == Active(false, Items(1), PUnblocked)
  }

  /** A Writer that finds the api queue empty after the exit order leaves. */
  lemma Leave(s0: State, s: State, i: nat) returns (t: State)
    requires Reaches(s0, s) && i < |s.writers| && |s.book.hands| == |s.writers|
    requires s.writers[i] == Ready && Parking !in s.writers && Parked !in s.writers
    requires s.api.Empty() && s.api.exit && s.calculator == CReady
    ensures Reaches(s0, t) && t.writers == s.writers[i := Gone] && t.calculation == s.calculation.(exit := true)
    ensures t.api == s.api && t.calculator == CReady && t.producer == s.producer && t.book.hands == s.book.hands
  {
    hide Reaches, Num;
    Absent(s.writers, Parking);
    var step := Write(i, |s.writers|);
    Onward(s0, s, step);
    var s1 := Do(s, step);
    Absent(s1.writers, Parked);
    Onward(s0, s1, step);
    var s2 := Do(s1, step);
    Onward(s0, s2, step);
    var s3 := Do(s2, step);
    Onward(s0, s3, step);
    t := Do(s3, step);
    assert s.writers[i := Quitting][i := Flagging][i := Notifying][i := Gone] == s.writers[i := Gone];
  }

  lemma {:induction false} AllLeave(w: nat, n: nat, k: nat) returns (t: State)
    requires n >= 1 && k < w
    ensures Reaches(Init(w, n), t) && Leaving(t, w, n, k)
  {
    hide Reaches, Num;
    if k == 0 {
      var s := Empty(w, n, n);
      t := Leave(Init(w, n), s, 0);
      assert s.writers[0 := Gone] == SomeLeft(w, 0);
    } else {
      var s := AllLeave(w, n, k - 1);
      Onward(Init(w, n), s, Write(k, 0));
      var s1 := Do(s, Write(k, 0));
      t := Leave(Init(w, n), s1, k);
      assert s.writers[k := Ready][k := Gone] == SomeLeft(w, k);
    }
  }

  ghost predicate Finishing(s: State, w: nat, n: nat, j: nat)
    requires w >= 1
  {
    && s.writers == SomeLeft(w, w - 1) && |s.api.hist| == w + n
    && s.calculation.exit && s.calculation.out == j && s.calculation.Length() == n - j && s.calculator == CReady
  }

  /** The producer's last item goes where nobody looks any more; the Calculator finishes what it has. */
  lemma {:induction false} Finish(w: nat, n: nat, j: nat) returns (t: State)
    requires w >= 1 && n >= 1 && j <= n
    ensures Reaches(Init(w, n), t) && Finishing(t, w, n, j)
  {
    hide Reaches, Num;
    if j == 0 {
      var s := AllLeave(w, n, w - 1);
      Absent(s.writers, Parking);
      Onward(Init(w, n), s, Produce(0));
      t := Do(s, Produce(0));
    } else {
      var s := Finish(w, n, j - 1);
      Absent(s.writers, Blocked);
      Onward(Init(w, n), s, Calculate(w));
      var s1 := Do(s, Calculate(w));
      Onward(Init(w, n), s1, Calculate(w));
      var s2 := Do(s1, Calculate(w));
      Onward(Init(w, n), s2, Calculate(w));
      t := Do(s2, Calculate(w));
    }
  }

  /** Everyone has left, and w accepted items never reached the Calculator. */
  lemma LossIsAttained(w: nat, n: nat) returns (t: State)
    requires w >= 1 && n >= 1
    ensures Reaches(Init(w, n), t)
    ensures Num(t.writers, Gone) == w && t.calculator.CGone?
    ensures |t.api.hist| - t.calculation.out == w
  {
    hide Reaches, Num;
    var s := Finish(w, n, n);
    Onward(Init(w, n), s, Calculate(0));
    var s1 := Do(s, Calculate(0));
    Onward(Init(w, n), s1, Calculate(0));
    t := Do(s1, Calculate(0));
    assert SomeLeft(w, w - 1) == SomeGone(w, w);
    AllGone(w);
  }
}
