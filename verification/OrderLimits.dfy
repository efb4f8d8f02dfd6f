/** Runs that show how far order can be lost: the overtaking bound is attained, and a directive can be held back while
    any number of later trades pass it. */
module OrderLimits {
  import opened WorkItems
  import opened Queues
  import opened Pipeline
  import opened Ledger
  import opened Limits
  import opened LossBound
  import Theorems
  import MinuteTimer

  // ----- Older items missing

  /** All Writers but Writer 0 hold an older item when Writer 0's item enters the calculation queue. */
  lemma OvertakingIsAttained(w: nat, n: nat) returns (t: State)
    requires w >= 1 && n >= 1
    ensures Reaches(Init(w, n), t) && !t.calculation.exit
    ensures t.calculation.hist == [w - 1] && t.book.dropped == [] && |Late(t, 0)| == w - 1
  {
    hide Reaches, Num;
    var s := Arm(w, n, w - 1, w);
    Absent(s.writers, Parking);
    Onward(Init(w, n), s, Produce(0));
    var s1 := FeedSignal(Init(w, n), Do(s, Produce(0)));
    t := PassOn(Init(w, n), s1);
    FirstMissing(t.calculation.hist);
    NothingDropped(w, n, t);
    assert Late(t, 0) == Missing(t.calculation.hist, 0);
  }

  lemma NothingDropped(w: nat, n: nat, t: State)
    requires w >= 1 && n >= 1 && Reaches(Init(w, n), t) && !t.calculation.exit
    ensures t.book.dropped == []
  {
    assert Theorems.Reachable(w, n, t);
    hide Reaches, Theorems.Reachable;
    Theorems.Overtaking(w, n, t);
  }

  lemma FirstMissing(hist: seq<nat>)
    requires hist != []
    ensures |Missing(hist, 0)| == hist[0]
  {
    BelowFacts(hist[0]);
    assert Missing(hist, 0) == Below(hist[0]);
  }

  function Below(m: nat): set<nat> {
    if m == 0 then {} else Below(m - 1) + {m - 1}
  }

  lemma {:induction false} BelowFacts(m: nat)
    ensures |Below(m)| == m
    ensures forall k: nat :: k in Below(m) <==> k < m
  {
    if m > 0 {
      BelowFacts(m - 1);
    }
  }

  // ----- Younger items early

  function MinuteDirective(): WorkItem {
    WorkItem(Trade(0.0, 0, 0, -1.0), 0)
  }

  function From1(k: nat): seq<nat> {
    seq(k, m => m + 1)
  }

  /** Writer 1 holds the directive, the first item of all; k trades accepted after it have been through. */
  ghost predicate HeldBack(s: State, w: nat, n: nat, k: nat, rest: nat) {
    && w >= 2 && s.writers == AllReady(w)[1 := Offering] && |s.book.hands| == w && s.book.hands[1] == 0
    && s.api.capacity == n && s.api.hist == [MinuteDirective()] + Items(k) && s.api.out == k + 1 && !s.api.exit
    && s.calculation == Queue(n, From1(k), k, false)
    && s.calculator == CReady && s.producer == Active(false, Items(rest), PReady)
  }

  lemma TakeDirective(w: nat, n: nat, rest: nat) returns (t: State)
    requires w >= 2 && n >= 1
    ensures Reaches(Init(w, n), t) && HeldBack(t, w, n, 0, rest)
  {
    hide Reaches, Num;
    var s0 := Init(w, n);
    Absent(s0.writers, Parking);
    OneStep(s0, Tick(MinuteDirective()));
    var s1 := Do(s0, Tick(MinuteDirective()));
    Onward(s0, s1, Produce(0));
    var s2 := FeedSignal(s0, Do(s1, Produce(0)));
    Onward(s0, s2, Produce(0));
    var s3 := Do(s2, Produce(0));
    Onward(s0, s3, Receive(Items(rest)));
    var s4 := Do(s3, Receive(Items(rest)));
    Absent(s4.writers, Parking);
    Onward(s0, s4, Write(1, 0));
    var s5 := Do(s4, Write(1, 0));
    Onward(s0, s5, Write(1, 0));
    var s6 := Do(s5, Write(1, 0));
    Onward(s0, s6, Write(1, 0));
    t := Do(s6, Write(1, 0));
    assert s4.writers[1 := Took][1 := Logging][1 := Offering] == AllReady(w)[1 := Offering];
  }

  /** One trade goes all the way from the producer to the Calculator. */
  lemma LetPass(w: nat, n: nat, s: State, k: nat, rest: nat) returns (t: State)
    requires n >= 1 && rest >= 1 && Reaches(Init(w, n), s) && HeldBack(s, w, n, k, rest)
    ensures Reaches(Init(w, n), t) && HeldBack(t, w, n, k + 1, rest - 1)
  {
    hide Reaches, Num;
    var s0 := Init(w, n);
    Absent(s.writers, Parking);
    Absent(s.writers, Blocked);
    assert Items(rest)[1..] == Items(rest - 1);
    Onward(s0, s, Produce(0));
    var s1 := FeedSignal(s0, Do(s, Produce(0)));
    var s2 := PassOn(s0, s1);
    Onward(s0, s2, Calculate(w));
    var s3 := Do(s2, Calculate(w));
    Onward(s0, s3, Calculate(w));
    var s4 := Do(s3, Calculate(w));
    Onward(s0, s4, Calculate(w));
    t := Do(s4, Calculate(w));
    assert s.api.hist + [Item()] == [MinuteDirective()] + Items(k + 1);
    assert From1(k) + [k + 1] == From1(k + 1);
  }

  lemma {:induction false} ManyPass(w: nat, n: nat, k: nat, rest: nat) returns (t: State)
    requires w >= 2 && n >= 1
    ensures Reaches(Init(w, n), t) && HeldBack(t, w, n, k, rest)
  {
    if k == 0 {
      t := TakeDirective(w, n, rest);
    } else {
      var s := ManyPass(w, n, k - 1, rest + 1);
      t := LetPass(w, n, s, k - 1, rest + 1);
    }
  }

  /** With two Writers or more, any number of trades accepted after a directive can enter the calculation queue, and be
      counted by the Calculator, before it; so its minute can take in any number of later trades. */
  lemma DirectiveCanBeLate(w: nat, n: nat, k: nat) returns (t: State)
    requires w >= 2 && n >= 1
    ensures Reaches(Init(w, n), t) && !t.calculation.exit
    ensures t.calculation.hist == From1(k) + [0] && t.calculation.out == k
    ensures |t.api.hist| == k + 1 && t.api.hist[0].trade.v == -1.0
    ensures forall m :: 0 < m <= k ==> t.api.hist[m].trade.v > -1.0
  {
    hide Reaches, Num;
    var s := ManyPass(w, n, k, 0);
    Onward(Init(w, n), s, Write(1, 0));
    t := Do(s, Write(1, 0));
  }
  // ----- The last minute

  /** An empty pipeline at work: h items have been through, d of them directives. */
  ghost predicate Idle(s: State, w: nat, n: nat, h: nat, d: nat) {
    && s.writers == AllReady(w) && |s.book.hands| == w && s.book.dropped == []
    && s.api.capacity == n && |s.api.hist| == h && s.api.out == h && !s.api.exit
    && s.calculation.capacity == n && |s.calculation.hist| == h && s.calculation.out == h && !s.calculation.exit
    && s.calculator == CReady && s.producer == Free && !s.clientDone
    && s.book.ticks == d && s.book.directives == d
  }

  function Single(timer: bool): Step {
    if timer then Tick(MinuteDirective()) else Receive([Item()])
  }

  function SingleItem(timer: bool): WorkItem {
    if timer then MinuteDirective() else Item()
  }

  /** A producer submits a single item, and still holds the lock. */
  lemma Enter(s0: State, w: nat, n: nat, s: State, h: nat, d: nat, timer: bool) returns (t: State)
    requires n >= 1 && Reaches(s0, s) && Idle(s, w, n, h, d)
    ensures Reaches(s0, t)
    ensures t.writers == s.writers && t.api == s.api.Append(SingleItem(timer)) && t.calculation == s.calculation
    ensures t.calculator == CReady && t.producer == Active(timer, [], PReady) && !t.clientDone
    ensures t.book.hands == s.book.hands && t.book.dropped == []
    ensures t.book.ticks == d + One(timer) && t.book.directives == d + One(timer)
  {
    hide Reaches, Num;
    Absent(s.writers, Parking);
    Onward(s0, s, Single(timer));
    var s1 := Do(s, Single(timer));
    Onward(s0, s1, Produce(0));
    t := FeedSignal(s0, Do(s1, Produce(0)));
  }

  /** A single item goes all the way, and the producer's lock is released without an exit order. */
  lemma GoThrough(w: nat, n: nat, s: State, h: nat, d: nat, timer: bool) returns (t: State)
    requires w >= 1 && n >= 1 && Reaches(Init(w, n), s) && Idle(s, w, n, h, d) && d + One(timer) < 2880
    ensures Reaches(Init(w, n), t) && Idle(t, w, n, h + 1, d + One(timer))
    ensures t.api.hist == s.api.hist + [SingleItem(timer)] && t.calculation.hist == s.calculation.hist + [h]
  {
    hide Reaches, Num, MinuteTimer.RaisesExit;
    var s0 := Init(w, n);
    MinuteTimer.RaisedFromCall2880(d + One(timer));
    var s1 := Enter(s0, w, n, s, h, d, timer);
    Absent(s1.writers, Parking);
    Absent(s1.writers, Blocked);
    var s2 := PassOn(s0, s1);
    Onward(s0, s2, Produce(0));
    var s3 := Do(s2, Produce(0));
    Onward(s0, s3, Calculate(w));
    var s4 := Do(s3, Calculate(w));
    Onward(s0, s4, Calculate(w));
    var s5 := Do(s4, Calculate(w));
    Onward(s0, s5, Calculate(w));
    t := Do(s5, Calculate(w));
  }

  lemma {:induction false} ManyMinutes(w: nat, n: nat, d: nat) returns (t: State)
    requires w >= 1 && n >= 1 && d < 2880
    ensures Reaches(Init(w, n), t) && Idle(t, w, n, d, d)
  {
    if d == 0 {
      t := Init(w, n);
      Nowhere(t);
    } else {
      var s := ManyMinutes(w, n, d - 1);
      t := GoThrough(w, n, s, d - 1, d - 1, true);
    }
  }

  lemma Nowhere(s: State)
    ensures Reaches(s, s)
  {
    assert Plain([]) && Feasible(s, []) && After(s, []) == s;
  }

  /** The directive that raises the exit order is the last item accepted, and has been dropped. */
  ghost predicate LastDirectiveDropped(s: State) {
    && s.book.directives == 2880 && s.api.exit
    && s.api.hist != [] && s.api.hist[|s.api.hist| - 1].trade.v == -1.0 && |s.api.hist| - 1 in s.book.dropped
  }

  /** Writer 1 holds the directive of call 2880; Writer 0 finds the exit order it raised and passes it on first. */
  lemma LastMinuteIsLost(w: nat, n: nat) returns (t: State)
    requires w >= 2 && n >= 1
    ensures Reaches(Init(w, n), t) && LastDirectiveDropped(t)
    ensures |t.api.hist| == 2881 && t.api.hist[2879].trade.v > -1.0 && 2879 in t.calculation.hist
  {
    hide Reaches, Num, MinuteTimer.RaisesExit;
    var s0 := Init(w, n);
    MinuteTimer.RaisedFromCall2880(2880);
    var before := ManyMinutes(w, n, 2879);
    var s := GoThrough(w, n, before, 2879, 2879, false);
    var s1 := Enter(s0, w, n, s, 2880, 2879, true);
    var s2 := Hold(s0, s1);
    Onward(s0, s2, Produce(0));
    var s3 := Do(s2, Produce(0));
    var s4 := Leave0(s0, s3);
    Onward(s0, s4, Write(1, 0));
    t := Do(s4, Write(1, 0));
    assert t.book.dropped == [2880];
    assert t.calculation.hist[2879] == 2879;
  }

  /** Writer 1 takes the only item as far as its queue_add. */
  lemma Hold(s0: State, s: State) returns (t: State)
    requires Reaches(s0, s) && s.writers == AllReady(|s.writers|) && |s.writers| >= 2
    requires |s.book.hands| == |s.writers| && !s.api.Empty() && s.producer.Active? && s.producer.pc.PReady?
    ensures Reaches(s0, t) && t.writers == s.writers[1 := Offering]
    ensures t.book == s.book.(hands := s.book.hands[1 := s.api.out], log := t.book.log)
    ensures t.api == s.api.Take() && t.calculation == s.calculation && t.calculator == s.calculator
    ensures t.producer == s.producer
  {
    hide Reaches, Num;
    Absent(s.writers, Parking);
    Onward(s0, s, Write(1, 0));
    var s1 := Do(s, Write(1, 0));
    Onward(s0, s1, Write(1, 0));
    var s2 := Do(s1, Write(1, 0));
    Onward(s0, s2, Write(1, 0));
    t := Do(s2, Write(1, 0));
    assert s.writers[1 := Took][1 := Logging][1 := Offering] == s.writers[1 := Offering];
  }

  /** Writer 0 leaves as far as the calculation exit flag. */
  lemma Leave0(s0: State, s: State) returns (t: State)
    requires Reaches(s0, s) && |s.writers| >= 2 && |s.book.hands| == |s.writers| && s.api.Empty() && s.api.exit
    requires s.writers[0] == Ready && Parking !in s.writers && Parked !in s.writers
    ensures Reaches(s0, t) && t.writers == s.writers[0 := Notifying]
    ensures t == s.(writers := t.writers, calculation := s.calculation.(exit := true))
  {
    hide Reaches, Num;
    Absent(s.writers, Parking);
    var step := Write(0, |s.writers|);
    Onward(s0, s, step);
    var s1 := Do(s, step);
    Absent(s1.writers, Parked);
    Onward(s0, s1, step);
    var s2 := Do(s1, step);
    Onward(s0, s2, step);
    t := Do(s2, step);
    assert s.writers[0 := Quitting][0 := Flagging][0 := Notifying] == s.writers[0 := Notifying];
  }

  /** The directive that closes the last minute can be lost exactly if there are several Writers. */
  lemma LastMinuteCanBeLost(w: nat, n: nat)
    requires w >= 1 && n >= 1
    ensures w >= 2 <==> exists s :: Reaches(Init(w, n), s) && LastDirectiveDropped(s)
  {
    hide Reaches;
    if w >= 2 {
      var t := LastMinuteIsLost(w, n);
    } else if s :| Reaches(Init(w, n), s) && LastDirectiveDropped(s) {
      NothingDroppedAlone(n, s);
      assert false;
    }
  }

  lemma NothingDroppedAlone(n: nat, s: State)
    requires n >= 1 && Reaches(Init(1, n), s)
    ensures s.book.dropped == []
  {
    assert Theorems.Reachable(1, n, s);
    hide Reaches, Theorems.Reachable, Theorems.Good;
    Theorems.ReachableIsGood(1, n, s);
    SoleGood(s);
  }

  lemma SoleGood(s: State)
    requires Theorems.Good(s) && |s.writers| == 1
    ensures s.book.dropped == []
  {
  }
}
