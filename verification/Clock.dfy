/** Points in time at which something is due, and the clock that the code reads. */
module Clock {
  datatype Deadline = Never | At(time: nat) {
    predicate Due(now: nat) {
      At? && time <= now
    }

    predicate Before(other: Deadline) {
      At? && (other.Never? || time < other.time)
    }
  }

  /** The earlier of two deadlines; neither is hidden by the other. */
  function Earlier(a: Deadline, b: Deadline): (r: Deadline)
    ensures r == a || r == b
    ensures a.At? ==> r.At? && r.time <= a.time
    ensures b.At? ==> r.At? && r.time <= b.time
  {
    if b.Before(a) then b else a
  }

  /** A clock that never goes back. */
  class SteadyClock {
    var now: nat

    constructor ()
    {
      now := 0;
    }

    method Read() returns (time: nat)
      modifies this
      ensures old(now) <= now == time
    {
      var elapsed: nat :| true;
      now := now + elapsed;
      time := now;
    }
  }
}
