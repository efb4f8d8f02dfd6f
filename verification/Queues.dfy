/** The producer-consumer queue, as a value and as the ring buffer that implements it. */
module Queues {

  /** A bounded FIFO with everything it ever accepted in `hist`, the first `out` of which have been removed. */
  datatype Queue<T> = Queue(capacity: nat, hist: seq<T>, out: nat, exit: bool) {

    ghost predicate Valid() {
      1 <= capacity && out <= |hist| <= out + capacity
    }

    function Length(): int {
      |hist| - out
    }

    predicate Empty() {
      Length() <= 0
    }

    predicate Full() {
      Length() >= capacity
    }

    ghost function Contents(): seq<T>
      requires out <= |hist|
    {
      hist[out..]
    }

    function Append(x: T): Queue<T> {
      this.(hist := hist + [x])
    }

    function Take(): Queue<T> {
      this.(out := out + 1)
    }
  }

  datatype AddOutcome = Accepted | Rejected | MustWait

  datatype RemoveOutcome<T> = Removed(item: T) | ToldToExit | NothingYet

  /** The critical section of queue_add; when resumed, from the return of the wait on. */
  function Added<T>(q: Queue<T>, x: T, resumed: bool): (AddOutcome, Queue<T>) {
    if q.exit && !resumed then (Rejected, q)
    else if q.Full() then (MustWait, q)
    else (Accepted, q.Append(x))
  }

  /** The critical section of queue_remove. */
  function Removal<T>(q: Queue<T>): (RemoveOutcome<T>, Queue<T>) {
    if !q.Empty() then (Removed(q.hist[q.out]), q.Take())
    else if q.exit then (ToldToExit, q)
    else (NothingYet, q)
  }
}
