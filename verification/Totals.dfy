/** Counting over the Writers: how the counts and the carried items change when a Writer moves. */
module Totals {
  import opened Pipeline

  lemma Moved(ws: seq<WriterPc>, i: nat, to: WriterPc)
    requires i < |ws|
    ensures forall pc :: Num(ws[i := to], pc) == Num(ws, pc) - One(pc == ws[i]) + One(pc == to)
    ensures Num(ws, ws[i]) >= 1
  {
    assert ws == ws[..i] + [ws[i]] + ws[i + 1..];
    assert ws[i := to] == ws[..i] + [to] + ws[i + 1..];
  }

  lemma Counted(ws: seq<WriterPc>, i: nat)
    requires i < |ws|
    ensures Num(ws, ws[i]) >= 1
  {
  }

  lemma Someone(ws: seq<WriterPc>, pc: WriterPc) returns (i: nat)
    requires Num(ws, pc) > 0
    ensures i < |ws| && ws[i] == pc
  {
    assert pc in ws;
    i :| i < |ws| && ws[i] == pc;
  }

  function Holding(ws: seq<WriterPc>): nat {
    Num(ws, Took) + Num(ws, Logging) + Num(ws, Offering) + Num(ws, Blocked) + Num(ws, Unblocked)
  }

  function Left(ws: seq<WriterPc>): nat {
    Num(ws, Quitting) + Num(ws, Flagging) + Num(ws, Notifying) + Num(ws, Gone)
  }

  lemma Extended(ws: seq<WriterPc>, last: WriterPc)
    ensures forall pc :: Num(ws + [last], pc) == Num(ws, pc) + One(pc == last)
  {
  }

  function Elsewhere(ws: seq<WriterPc>): nat {
    Num(ws, Ready) + Num(ws, Parking) + Num(ws, Parked) + Num(ws, Woken) + Num(ws, Delivered)
  }

  lemma ExtendedHolding(ws: seq<WriterPc>, last: WriterPc)
    ensures Holding(ws + [last])
         == Holding(ws) + One(Holds(last))
  {
    hide Num;
    Extended(ws, last);
  }

  lemma ExtendedLeft(ws: seq<WriterPc>, last: WriterPc)
    ensures Left(ws + [last]) == Left(ws) + One(HasLeft(last))
  {
    hide Num;
    Extended(ws, last);
  }

  lemma ExtendedElsewhere(ws: seq<WriterPc>, last: WriterPc)
    ensures Elsewhere(ws + [last])
         == Elsewhere(ws) + One(last.Ready? || last.Parking? || last.Parked? || last.Woken? || last.Delivered?)
  {
    hide Num;
    Extended(ws, last);
  }

  predicate Holds(pc: WriterPc) {
    pc.Took? || pc.Logging? || pc.Offering? || pc.Blocked? || pc.Unblocked?
  }

  predicate HasLeft(pc: WriterPc) {
    pc.Quitting? || pc.Flagging? || pc.Notifying? || pc.Gone?
  }

  /** Writers that will test the api queue again or pass the exit signal on, those blocked elsewhere included. */
  function Awake(ws: seq<WriterPc>): nat {
    Num(ws, Ready) + Num(ws, Parking) + Num(ws, Woken) + Num(ws, Delivered) + Num(ws, Quitting) + Holding(ws)
  }

  predicate IsAwake(pc: WriterPc) {
    pc.Ready? || pc.Parking? || pc.Woken? || pc.Delivered? || pc.Quitting? || Holds(pc)
  }

  lemma MovedHolding(ws: seq<WriterPc>, i: nat, to: WriterPc)
    requires i < |ws|
    ensures Holding(ws[i := to]) == Holding(ws) - One(Holds(ws[i])) + One(Holds(to))
  {
    hide Num;
    Moved(ws, i, to);
  }

  lemma MovedLeft(ws: seq<WriterPc>, i: nat, to: WriterPc)
    requires i < |ws|
    ensures Left(ws[i := to]) == Left(ws) - One(HasLeft(ws[i])) + One(HasLeft(to))
  {
    hide Num;
    Moved(ws, i, to);
  }

  lemma MovedAwake(ws: seq<WriterPc>, i: nat, to: WriterPc)
    requires i < |ws|
    ensures Awake(ws[i := to]) == Awake(ws) - One(IsAwake(ws[i])) + One(IsAwake(to))
  {
    hide Num, Holding;
    Moved(ws, i, to);
    MovedHolding(ws, i, to);
  }

  lemma MovedGroups(ws: seq<WriterPc>, i: nat, to: WriterPc)
    requires i < |ws|
    ensures Holding(ws[i := to]) == Holding(ws) - One(Holds(ws[i])) + One(Holds(to))
    ensures Left(ws[i := to]) == Left(ws) - One(HasLeft(ws[i])) + One(HasLeft(to))
    ensures Awake(ws[i := to]) == Awake(ws) - One(IsAwake(ws[i])) + One(IsAwake(to))
  {
    hide Holding, Left, Awake;
    MovedHolding(ws, i, to);
    MovedLeft(ws, i, to);
    MovedAwake(ws, i, to);
  }

  /** Every Writer stands somewhere. */
  lemma {:induction false} Partition(ws: seq<WriterPc>)
    ensures Elsewhere(ws) + Holding(ws) + Left(ws) == |ws|
  {
    if ws != [] {
      hide Elsewhere, Holding, Left;
      var n := |ws| - 1;
      assert ws == ws[..n] + [ws[n]];
      ExtendedElsewhere(ws[..n], ws[n]);
      ExtendedHolding(ws[..n], ws[n]);
      ExtendedLeft(ws[..n], ws[n]);
      Partition(ws[..n]);
    } else {
      assert Elsewhere([]) + Holding([]) + Left([]) == 0;
    }
  }

  lemma InitialCounts(w: nat)
    ensures forall pc :: pc != Ready ==> Num(AllReady(w), pc) == 0
  {
    var ws := AllReady(w);
    forall pc | pc != Ready
      ensures Num(ws, pc) == 0
    {
      assert pc !in ws;
    }
  }

  // ----- Wakes and turns

  lemma Waken(ws: seq<WriterPc>, from: WriterPc, to: WriterPc, target: nat)
    requires MayWake(ws, from, target) && from != to
    ensures forall pc :: Num(Wake(ws, from, to, target), pc)
                      == Num(ws, pc) + (if Num(ws, from) == 0 then 0 else One(pc == to) - One(pc == from))
  {
    hide Num;
    if target < |ws| && ws[target] == from {
      Moved(ws, target, to);
    }
  }

  lemma WakenGroups(ws: seq<WriterPc>, target: nat)
    requires MayWake(ws, Parked, target)
    ensures Holding(Wake(ws, Parked, Woken, target)) == Holding(ws)
    ensures Left(Wake(ws, Parked, Woken, target)) == Left(ws)
    ensures Awake(Wake(ws, Parked, Woken, target)) == Awake(ws) + One(Num(ws, Parked) > 0)
  {
    hide Holding, Left, Awake;
    if target < |ws| && ws[target] == Parked {
      Counted(ws, target);
      MovedGroups(ws, target, Woken);
    }
  }

  /** Where a Writer's turn takes the Writer itself. */
  function Next(s: State, i: nat, target: nat): WriterPc
    requires CanWrite(s, i, target)
  {
    if s.writers[i].Quitting? then Flagging else WriterTurn(s, i, target).writers[i]
  }

  /** A turn moves its Writer and, when the Writer quits, wakes another one. */
  lemma WriterGoes(s: State, i: nat, target: nat)
    requires CanWrite(s, i, target)
    ensures WriterTurn(s, i, target).writers ==
      if s.writers[i].Quitting? then Wake(s.writers[i := Next(s, i, target)], Parked, Woken, target)
      else s.writers[i := Next(s, i, target)]
    ensures s.writers[i].Quitting? ==>
      && Next(s, i, target) == Flagging
      && MayWake(s.writers[i := Flagging], Parked, target)
      && Num(s.writers[i := Flagging], Parked) == Num(s.writers, Parked)
  {
    hide Num;
    if s.writers[i].Quitting? {
      Moved(s.writers, i, Flagging);
    }
  }

  lemma WriterCounts(s: State, i: nat, target: nat)
    requires CanWrite(s, i, target)
    ensures Num(s.writers, s.writers[i]) >= 1
    ensures forall pc :: Num(WriterTurn(s, i, target).writers, pc)
                      == Num(s.writers, pc) - One(pc == s.writers[i]) + One(pc == Next(s, i, target))
                       + (if s.writers[i].Quitting? && Num(s.writers, Parked) > 0
                          then One(pc == Woken) - One(pc == Parked) else 0)
  {
    hide Num, WriterTurn, Next;
    WriterGoes(s, i, target);
    Moved(s.writers, i, Next(s, i, target));
    if s.writers[i].Quitting? {
      Waken(s.writers[i := Flagging], Parked, Woken, target);
    }
  }

  lemma WriterCountOf(s: State, i: nat, target: nat, pc: WriterPc)
    requires CanWrite(s, i, target) && !pc.Parked? && !pc.Woken?
    ensures Num(WriterTurn(s, i, target).writers, pc)
         == Num(s.writers, pc) - One(pc == s.writers[i]) + One(pc == Next(s, i, target))
  {
    hide WriterTurn, Next, Num;
    WriterCounts(s, i, target);
  }

  lemma WriterGroups(s: State, i: nat, target: nat)
    requires CanWrite(s, i, target)
    ensures var ws', from, to := WriterTurn(s, i, target).writers, s.writers[i], Next(s, i, target);
      && Holding(ws') == Holding(s.writers) - One(Holds(from)) + One(Holds(to))
      && Left(ws') == Left(s.writers) - One(HasLeft(from)) + One(HasLeft(to))
      && Awake(ws') == Awake(s.writers) - One(IsAwake(from)) + One(IsAwake(to))
                       + One(from.Quitting? && Num(s.writers, Parked) > 0)
    ensures Holds(s.writers[i]) ==> Holding(s.writers) > 0
    ensures HasLeft(s.writers[i]) ==> Left(s.writers) > 0
  {
    InGroup(s.writers, i);
    hide Holding, Left, Awake, WriterTurn, Next, Num;
    WriterGoes(s, i, target);
    MovedGroups(s.writers, i, Next(s, i, target));
    if s.writers[i].Quitting? {
      WakenGroups(s.writers[i := Flagging], target);
    }
  }

  lemma InGroup(ws: seq<WriterPc>, i: nat)
    requires i < |ws|
    ensures Holds(ws[i]) ==> Holding(ws) > 0
    ensures HasLeft(ws[i]) ==> Left(ws) > 0
  {
    Counted(ws, i);
    hide Num;
  }
}
