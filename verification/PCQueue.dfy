/** The ring buffer behind the queue, and the FIFO law over whole histories of calls. */
module PCQueue {
  import opened Queues

  /** The j-th place from head in a ring of n places. */
  function Slot(n: nat, head: nat, j: nat): nat
    requires head < n && j <= n
    ensures Slot(n, head, j) < n
  {
    if head + j < n then head + j else head + j - n
  }

  lemma NextSlot(n: nat, head: nat, j: nat)
    requires head < n && j < n
    ensures (Slot(n, head, j) + 1) % n == Slot(n, head, j + 1)
  {
    if Slot(n, head, j) + 1 == n {
      assert n % n == 0;
    }
  }

  lemma ShiftHead(n: nat, head: nat, j: nat)
    requires head < n && j < n
    ensures (head + 1) % n < n && Slot(n, (head + 1) % n, j) == Slot(n, head, j + 1)
  {
    NextSlot(n, head, 0);
  }

  lemma DistinctSlots(n: nat, head: nat, i: nat, j: nat)
    requires head < n && i < j < n
    ensures Slot(n, head, i) != Slot(n, head, j)
  {
  }

  /** The critical sections of queue_add and queue_remove; waiting and signalling belong to the pipeline's steps. */
  class PCQueue<T(0)> {
    const buffer: array<T>
    var head: nat
    var tail: nat
    var full: bool
    var empty: bool
    var exitFlag: bool
    ghost var hist: seq<T>
    ghost var out: nat

    ghost predicate Valid()
      reads this, buffer
    {
      && head < buffer.Length && tail < buffer.Length
      && out <= |hist| <= out + buffer.Length
      && (empty <==> |hist| == out)
      && (full <==> |hist| == out + buffer.Length)
      && tail == Slot(buffer.Length, head, |hist| - out)
      && forall j :: 0 <= j < |hist| - out ==> buffer[Slot(buffer.Length, head, j)] == hist[out + j]
    }

    ghost function Model(): Queue<T>
      reads this
    {
      Queue(buffer.Length, hist, out, exitFlag)
    }

    constructor (size: nat)
      requires size >= 1
      ensures Valid() && fresh(buffer) && Model() == Queue(size, [], 0, false)
    {
      buffer := new T[size];
      head, tail := 0, 0;
      empty, full := true, false;
      exitFlag := false;
      hist, out := [], 0;
    }

    /** queue_add from the lock, or, when resumed, from the return of the wait, to the unlock or the next wait. */
    method Add(item: T, resumed: bool) returns (outcome: AddOutcome)
      requires Valid()
      modifies this, buffer
      ensures Valid()
      ensures (outcome, Model()) == Added(old(Model()), item, resumed)
    {
      if exitFlag && !resumed {
        return Rejected;
      }
      if full {
        return MustWait;
      }
      NextSlot(buffer.Length, head, |hist| - out);
      forall j | 0 <= j < |hist| - out
        ensures Slot(buffer.Length, head, j) != tail
      {
        DistinctSlots(buffer.Length, head, j, |hist| - out);
      }
      buffer[tail] := item;
      tail := (tail + 1) % buffer.Length;
      if tail == head {
        full := true;
      }
      empty := false;
      hist := hist + [item];
      outcome := Accepted;
    }

    /** queue_remove from the lock or the return of the wait to the unlock or the next wait. */
    method Remove() returns (outcome: RemoveOutcome<T>)
      requires Valid()
      modifies this
      ensures Valid()
      ensures (outcome, Model()) == Removal(old(Model()))
    {
      if empty {
        if exitFlag {
          return ToldToExit;
        }
        return NothingYet;
      }
      assert buffer[Slot(buffer.Length, head, 0)] == hist[out];
      outcome := Removed(buffer[head]);
      var next := (head + 1) % buffer.Length;
      forall j | 0 <= j < |hist| - out
        ensures next < buffer.Length && Slot(buffer.Length, next, j) == Slot(buffer.Length, head, j + 1)
      {
        ShiftHead(buffer.Length, head, j);
      }
      ShiftHead(buffer.Length, head, |hist| - out - 1);
      head := next;
      if tail == head {
        empty := true;
      }
      full := false;
      out := out + 1;
    }

    method OrderExit()
      requires Valid()
      modifies this`exitFlag
      ensures Valid() && Model() == old(Model()).(exit := true)
    {
      exitFlag := true;
    }
  }

  // ----- Histories of calls

  datatype Call<T> = AddCall(item: T, resumed: bool) | RemoveCall | ExitCall

  datatype Reply<T> = AddReply(added: AddOutcome) | RemoveReply(removed: RemoveOutcome<T>) | Done

  ghost function Handle<T>(q: Queue<T>, call: Call<T>): (Reply<T>, Queue<T>)
    requires q.Valid()
  {
    match call
    case AddCall(x, resumed) => var (o, q') := Added(q, x, resumed); (AddReply(o), q')
    case RemoveCall => var (o, q') := Removal(q); (RemoveReply(o), q')
    case ExitCall => (Done, q.(exit := true))
  }

  /** A bounded FIFO that knows only what it holds. */
  function Fifo<T>(contents: seq<T>, capacity: nat, exit: bool, call: Call<T>): (Reply<T>, seq<T>, bool) {
    match call
    case AddCall(x, resumed) =>
      if exit && !resumed then (AddReply(Rejected), contents, exit)
      else if |contents| == capacity then (AddReply(MustWait), contents, exit)
      else (AddReply(Accepted), contents + [x], exit)
    case RemoveCall =>
      if contents != [] then (RemoveReply(Removed(contents[0])), contents[1..], exit)
      else (RemoveReply(if exit then ToldToExit else NothingYet), contents, exit)
    case ExitCall => (Done, contents, true)
  }

  function FifoReplies<T>(contents: seq<T>, capacity: nat, exit: bool, calls: seq<Call<T>>): (seq<Reply<T>>, seq<T>)
    decreases |calls|
  {
    if calls == [] then ([], contents) else
      var (reply, contents', exit') := Fifo(contents, capacity, exit, calls[0]);
      var (replies, rest) := FifoReplies(contents', capacity, exit', calls[1..]);
      ([reply] + replies, rest)
  }

  /** One call on the queue value is the FIFO's. */
  lemma HandleIsFifo<T>(q: Queue<T>, call: Call<T>)
    requires q.Valid()
    ensures var (reply, q') := Handle(q, call);
      q'.Valid() && q'.capacity == q.capacity &&
      (reply, q'.Contents(), q'.exit) == Fifo(q.Contents(), q.capacity, q.exit, call)
  {
    if call.AddCall? {
      assert !q.Full() ==> q.Append(call.item).Contents() == q.Contents() + [call.item];
    }
  }

  /** The items accepted, read off the calls and their replies. */
  function AcceptedItems<T>(calls: seq<Call<T>>, replies: seq<Reply<T>>): seq<T>
    requires |calls| == |replies|
  {
    if calls == [] then [] else
      Taken(calls[0], replies[0]) + AcceptedItems(calls[1..], replies[1..])
  }

  function RemovedItems<T>(replies: seq<Reply<T>>): seq<T> {
    if replies == [] then [] else
      Given(replies[0]) + RemovedItems(replies[1..])
  }

  lemma Reassociate<T>(held: seq<T>, x: seq<T>, y: seq<T>, held': seq<T>, acc: seq<T>, rem: seq<T>, rest: seq<T>)
    requires held + x == y + held' && held' + acc == rem + rest
    ensures held + (x + acc) == (y + rem) + rest
  {
    assert held + (x + acc) == (held + x) + acc;
    assert (y + held') + acc == y + (held' + acc);
    assert y + (rem + rest) == (y + rem) + rest;
  }

  function Taken<T>(call: Call<T>, reply: Reply<T>): seq<T> {
    if call.AddCall? && reply == AddReply(Accepted) then [call.item] else []
  }

  function Given<T>(reply: Reply<T>): seq<T> {
    if reply.RemoveReply? && reply.removed.Removed? then [reply.removed.item] else []
  }

  lemma OneCall<T>(contents: seq<T>, capacity: nat, exit: bool, call: Call<T>)
    requires |contents| <= capacity
    ensures var (reply, contents', _) := Fifo(contents, capacity, exit, call);
      |contents'| <= capacity && contents + Taken(call, reply) == Given(reply) + contents'
  {
  }

  /** First in, first out: what was held and accepted is what was removed, in the same order, and what is held now. */
  lemma {:induction false} FirstInFirstOut<T>(contents: seq<T>, capacity: nat, exit: bool, calls: seq<Call<T>>)
    requires |contents| <= capacity
    ensures var (replies, rest) := FifoReplies(contents, capacity, exit, calls);
      && |replies| == |calls| && |rest| <= capacity
      && contents + AcceptedItems(calls, replies) == RemovedItems(replies) + rest
    decreases |calls|
  {
    if calls != [] {
      var (reply, contents', exit') := Fifo(contents, capacity, exit, calls[0]);
      OneCall(contents, capacity, exit, calls[0]);
      FirstInFirstOut(contents', capacity, exit', calls[1..]);
      var (replies, rest) := FifoReplies(contents', capacity, exit', calls[1..]);
      hide Fifo, Taken, Given;
      assert ([reply] + replies)[1..] == replies;
      Reassociate(contents, Taken(calls[0], reply), Given(reply), contents',
                  AcceptedItems(calls[1..], replies), RemovedItems(replies), rest);
    }
  }

  /** Any history of calls on a ring: it replies as the bounded FIFO does, and hands out in order what it was given. */
  method Drive<T(0)>(ring: PCQueue<T>, calls: seq<Call<T>>) returns (replies: seq<Reply<T>>)
    requires ring.Valid()
    modifies ring, ring.buffer
    ensures ring.Valid() && |replies| == |calls|
    ensures (replies, ring.Model().Contents())
         == FifoReplies(old(ring.Model().Contents()), ring.buffer.Length, old(ring.exitFlag), calls)
    ensures old(ring.Model().Contents()) + AcceptedItems(calls, replies)
         == RemovedItems(replies) + ring.Model().Contents()
    decreases |calls|
  {
    FirstInFirstOut(ring.Model().Contents(), ring.buffer.Length, ring.exitFlag, calls);
    if calls == [] {
      return [];
    }
    HandleIsFifo(ring.Model(), calls[0]);
    var reply: Reply<T>;
    match calls[0] {
      case AddCall(item, resumed) =>
        var outcome := ring.Add(item, resumed);
        reply := AddReply(outcome);
      case RemoveCall =>
        var outcome := ring.Remove();
        reply := RemoveReply(outcome);
      case ExitCall =>
        ring.OrderExit();
        reply := Done;
    }
    var rest := Drive(ring, calls[1..]);
    replies := [reply] + rest;
  }
}
