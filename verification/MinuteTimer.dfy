/** The minute handler's counters and the moment it raises the exit order. */
module MinuteTimer {

  const PROGRAM_MAX_HOUR_LIMIT := 48

  datatype Counters = Counters(minute: nat, hour: nat)

  /** What one call of the handler does to its static counters. */
  function Advance(c: Counters): Counters {
    Counters((c.minute + 1) % 60, c.hour + (c.minute + 1) / 60)
  }

  function CountersAfter(calls: nat): Counters {
    if calls == 0 then Counters(0, 0) else Advance(CountersAfter(calls - 1))
  }

  /** Whether the call numbered `calls` ends by raising the exit order. */
  predicate RaisesExit(calls: nat) {
    CountersAfter(calls).hour == PROGRAM_MAX_HOUR_LIMIT
  }

  lemma {:induction false} CountersAreTime(calls: nat)
    ensures var c := CountersAfter(calls); c.minute < 60 && 60 * c.hour + c.minute == calls
  {
    if calls > 0 {
      CountersAreTime(calls - 1);
    }
  }

  /** The exit order is raised by call 2880 and by no earlier one. */
  lemma RaisedFromCall2880(calls: nat)
    ensures RaisesExit(calls) <==> 2880 <= calls < 2940
  {
    CountersAreTime(calls);
  }

  /** The minute handler with its static counters. */
  class MinuteHandler {
    var minuteCounter: nat
    var hourCounter: nat
    ghost var calls: nat

    ghost predicate Valid()
      reads this
    {
      Counters(minuteCounter, hourCounter) == CountersAfter(calls)
    }

    constructor ()
      ensures Valid() && calls == 0
    {
      minuteCounter, hourCounter := 0, 0;
      calls := 0;
    }

    /** One call; `limitReached` tells whether it raises the exit order after queuing its directive. */
    method OnAlarm() returns (limitReached: bool)
      requires Valid()
      modifies this
      ensures Valid() && calls == old(calls) + 1
      ensures minuteCounter < 60 && 60 * hourCounter + minuteCounter == calls
      ensures limitReached <==> RaisesExit(calls)
      ensures limitReached <==> 2880 <= calls < 2940
    {
      minuteCounter := minuteCounter + 1;
      hourCounter := hourCounter + minuteCounter / 60;
      minuteCounter := minuteCounter % 60;
      calls := calls + 1;
      CountersAreTime(calls);
      limitReached := hourCounter == PROGRAM_MAX_HOUR_LIMIT;
    }
  }
}
