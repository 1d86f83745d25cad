/** When a stopped connection can come to hold an ngtcp2 connection again. */
module RuntimeStop {
  import opened Counting
  import opened Runtime
  import opened RuntimeScheduling
  import opened RuntimeTimers
  import opened RuntimeRuns
  import opened RuntimeTraps

  /** Standing between the check and the push of an operation that opens a connection. */
  function Opening(pc: Pc, role: Role): nat {
    Bit(pc.Push? && OpensConnection(role, pc.op))
  }

  function OpeningOf(role: Role): Pc -> nat {
    pc => Opening(pc, role)
  }

  /** Somebody is about to queue an operation that will open a connection. */
  predicate CanOpen(s: State) {
    Unlocked(s.core) && exists i :: 0 <= i < |s.threads| && Opening(s.threads[i], s.core.role) > 0
  }

  predicate Opens(role: Role, queue: seq<Operation>) {
    exists k :: 0 <= k < |queue| && OpensConnection(role, queue[k])
  }

  /** Stopped, without a connection, and with nothing that could open one: whatever is still queued
      is about to be thrown away. */
  predicate Sealed(s: Core, opening: nat) {
    && s.stopped && !s.conn && !(s.role == Server && s.worker.Feeding?)
    && (Unlocked(s) ==>
         && opening == 0 && !(s.worker.Exec? && OpensConnection(s.role, s.worker.op))
         && (s.worker.After? || s.worker.Draining? || !Opens(s.role, s.sched.queue)))
  }

  lemma SealedThread(s: Core, pc: Pc, worker: bool, step: ThreadStep, others: nat)
    requires Sealed(s, others + Opening(pc, s.role)) && ThreadEnabled(s, pc, worker, step)
    ensures var r := ThreadOutcome(s, pc, worker, step);
            r.core.role == s.role && Sealed(r.core, others + Opening(r.pc, s.role))
  {
    hide ReadOutcome;
  }

  lemma SealedLoop(s: Core, step: LoopStep, others: nat)
    requires Sealed(s, others) && LoopEnabled(s, step)
    ensures var r := LoopOutcome(s, step);
            r.core.role == s.role && Sealed(r.core, others + Opening(r.pc, s.role))
  {
  }

  lemma SealedOperation(s: Core, step: OperationStep, others: nat)
    requires Sealed(s, others) && OperationEnabled(s, step)
    ensures var r := OperationOutcome(s, step);
            r.core.role == s.role && Sealed(r.core, others + Opening(r.pc, s.role))
  {
    hide FlagsMove; hide KeepsReceived; hide KeepsInbox;
  }

  ghost predicate SealedState(s: State) {
    s.threads != [] && Sealed(s.core, Total(OpeningOf(s.core.role), s.threads))
  }

  lemma SealedMoves(s: State, s': State)
    requires SealedState(s) && Moves(s, s')
    ensures SealedState(s')
  {
    var step :| Enabled(s, step) && s' == Apply(s, step);
    var role := s.core.role;
    match step
    case Thread(i, t) =>
      var others := Others(OpeningOf(role), s.threads, i, ThreadOutcome(s.core, s.threads[i], i == 0, t).pc);
      SealedThread(s.core, s.threads[i], i == 0, t, others);
    case Loop(l) =>
      var others := Others(OpeningOf(role), s.threads, 0, LoopOutcome(s.core, l).pc);
      SealedLoop(s.core, l, others);
    case Operate(o) =>
      var others := Others(OpeningOf(role), s.threads, 0, OperationOutcome(s.core, o).pc);
      SealedOperation(s.core, o, others);
    case Tick(_) =>
  }

  lemma {:induction false} SealedForever(states: seq<State>, k: nat)
    requires Path(states) && k < |states| && SealedState(states[0])
    ensures SealedState(states[k])
  {
    hide SealedState; hide Moves;
    if k > 0 {
      SealedForever(states, k - 1);
      var before := k - 1;
      assert Moves(states[before], states[before + 1]);
      SealedMoves(states[k - 1], states[k]);
    }
  }

  /** From the stop on, if nobody is about to queue an opening operation, no continuation ever holds
      a connection: the stopping run throws away what is queued. */
  lemma StopIsClean(s: State, t: State)
    requires Reachable(s) && s.core.stopped && !s.core.conn && !CanOpen(s) && From(s, t)
    requires s.core.worker.After? || s.core.worker.Draining? || AtRest(s)
    ensures !t.core.conn
  {
    ReachableInv(s);
    if Unlocked(s.core) {
      NobodyOpens(s);
    }
    var states :| Path(states) && states[0] == s && states[|states| - 1] == t;
    SealedForever(states, |states| - 1);
  }

  lemma NobodyOpens(s: State)
    requires !CanOpen(s) && Unlocked(s.core)
    ensures Total(OpeningOf(s.core.role), s.threads) == 0
  {
    TotalZero(OpeningOf(s.core.role), s.threads);
  }

  /** The exact condition: a stopped connection at rest without an ngtcp2 connection can come to hold
      one again if and only if some thread stands between the check and the push of an operation
      that opens one, and the client was never started or the server has datagrams left over. */
  lemma ConnectionAfterStop(s: State)
    requires Reachable(s) && AtRest(s) && s.core.stopped && !s.core.conn
    ensures (exists t :: From(s, t) && t.core.conn) <==> CanOpen(s)
  {
    if CanOpen(s) {
      var i :| 0 <= i < |s.threads| && Opening(s.threads[i], s.core.role) > 0;
      ReachableInv(s);
      FromItself(s);
      var t := LateOpen(s, s, i);
      assert From(s, t) && t.core.conn;
    } else {
      forall t | From(s, t) ensures !t.core.conn {
        StopIsClean(s, t);
      }
    }
  }

  /** A client that was started, and a server without left-over datagrams, stay clean. */
  lemma StartedClientStaysClosed(s: State, t: State)
    requires Reachable(s) && AtRest(s) && s.core.stopped && !s.core.conn && From(s, t)
    requires if s.core.role == Client then s.core.started else s.core.inbox.batch == []
    ensures !t.core.conn
  {
    StopIsClean(s, t);
  }
}
