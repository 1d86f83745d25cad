/** The worker's timer wheel: one deadline per connection, held weakly. */
module TimerWheel {
  import opened Clock

  /** The finite entries of `entries` whose connection still exists. */
  ghost predicate LiveEntry(entries: map<nat, nat>, live: set<nat>, id: nat) {
    id in entries && id in live
  }

  /** `next` is the earliest deadline of a live entry. */
  ghost predicate IsNext(entries: map<nat, nat>, live: set<nat>, next: Deadline) {
    && (forall id :: LiveEntry(entries, live, id) ==> next.At? && next.time <= entries[id])
    && (next.At? ==> exists id :: LiveEntry(entries, live, id) && entries[id] == next.time)
  }

  lemma NextUnique(entries: map<nat, nat>, live: set<nat>, a: Deadline, b: Deadline)
    requires IsNext(entries, live, a) && IsNext(entries, live, b)
    ensures a == b
  {
    if a.At? {
      var id :| LiveEntry(entries, live, id) && entries[id] == a.time;
      assert b.At?;
    }
    if b.At? {
      var id :| LiveEntry(entries, live, id) && entries[id] == b.time;
      assert a.At?;
    }
  }

  /** The entries after Update. */
  function Updated(entries: map<nat, nat>, id: nat, expiry: Deadline): map<nat, nat> {
    if expiry.At? then entries[id := expiry.time] else entries - {id}
  }

  /** What an update means for the worker's next wake-up: the connection's former deadline no longer
      counts, its new one does if the connection still exists, and the others are as before. */
  lemma UpdateDecidesNext(entries: map<nat, nat>, live: set<nat>, id: nat, expiry: Deadline,
                          others: Deadline, next: Deadline)
    requires IsNext(entries - {id}, live, others)
    requires IsNext(Updated(entries, id, expiry), live, next)
    ensures next == if id in live then Earlier(expiry, others) else others
  {
    var expected := if id in live then Earlier(expiry, others) else others;
    var updated := Updated(entries, id, expiry);
    forall k | LiveEntry(updated, live, k) ensures expected.At? && expected.time <= updated[k] {
      if k != id {
        assert LiveEntry(entries - {id}, live, k);
      }
    }
    if expected.At? && !(id in live && expected == expiry) {
      var k :| LiveEntry(entries - {id}, live, k) && entries[k] == others.time;
      assert LiveEntry(updated, live, k);
    } else if expected.At? {
      assert LiveEntry(updated, live, id);
    }
    NextUnique(updated, live, next, expected);
  }

  class TimerWheel {
    var entries: map<nat, nat>

    constructor ()
      ensures entries == map[]
    {
      entries := map[];
    }

    /** Sets the deadline of a connection; Never takes it out.  See `UpdateDecidesNext`. */
    method Update(id: nat, expiry: Deadline)
      modifies this
      ensures entries == Updated(old(entries), id, expiry)
    {
      if expiry.Never? {
        Remove(id);
        return;
      }
      entries := entries[id := expiry.time];
    }

    method Remove(id: nat)
      modifies this
      ensures entries == old(entries) - {id}
    {
      entries := entries - {id};
    }

    /** `live` are the connections whose weak pointer can still be locked. */
    method GetNextExpiry(live: set<nat>) returns (next: Deadline)
      ensures IsNext(entries, live, next)
    {
      next := Never;
      var rest := entries.Keys;
      while rest != {}
        invariant rest <= entries.Keys
        invariant forall id :: LiveEntry(entries, live, id) && id !in rest ==> next.At? && next.time <= entries[id]
        invariant next.At? ==> exists id :: LiveEntry(entries, live, id) && entries[id] == next.time
        decreases |rest|
      {
        var id: nat :| id in rest;
        rest := rest - {id};
        if id !in live {
          continue;
        }
        if At(entries[id]).Before(next) {
          assert LiveEntry(entries, live, id);
          next := At(entries[id]);
        }
      }
    }

    /** Takes out exactly the live entries that are due, each once, and forgets the dead ones. */
    method TakeExpired(now: nat, live: set<nat>) returns (expired: seq<nat>)
      modifies this
      ensures forall id :: id in expired <==> LiveEntry(old(entries), live, id) && old(entries)[id] <= now
      ensures forall i, j :: 0 <= i < j < |expired| ==> expired[i] != expired[j]
      ensures entries == map id | id in old(entries) && id in live && old(entries)[id] > now :: old(entries)[id]
      ensures forall next :: IsNext(entries, live, next) && next.At? ==> next.time > now
    {
      expired := [];
      var rest := entries.Keys;
      ghost var before := entries;
      while rest != {}
        invariant rest <= before.Keys && entries.Keys <= before.Keys
        invariant forall id :: id in rest ==> id in entries
        invariant forall id :: id in entries ==> entries[id] == before[id]
        invariant forall id :: id in before && id !in rest ==> (id in entries <==> id in live && before[id] > now)
        invariant forall id :: id in expired <==> id !in rest && LiveEntry(before, live, id) && before[id] <= now
        invariant forall i, j :: 0 <= i < j < |expired| ==> expired[i] != expired[j]
        decreases |rest|
      {
        var id: nat :| id in rest;
        rest := rest - {id};
        if id !in live {
          entries := entries - {id};
        } else if entries[id] <= now {
          expired := expired + [id];
          entries := entries - {id};
        }
      }
    }
  }
}
