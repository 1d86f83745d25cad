/** The scheduling protocol: one schedule token, no lost wake-up, and flags that count the queued
    flushes exactly.  Each invariant speaks of the core and of sums over the threads; in the step
    lemmas `others` is the sum over the threads that do not move. */
module RuntimeScheduling {
  import opened Counting
  import opened Runtime

  function Enqueuing(pc: Pc): nat {
    Bit(pc.Enqueue?)
  }

  function Casing(pc: Pc): nat {
    Bit(pc.Cas?)
  }

  function Signalling(pc: Pc): nat {
    Bit(pc.Signal?)
  }

  /** In queueOperation with this operation, before it is in the queue. */
  function Holding(pc: Pc, op: Operation): nat {
    Bit((pc.Check? || pc.Push?) && pc.op == op)
  }

  function HoldingOf(op: Operation): Pc -> nat {
    pc => Holding(pc, op)
  }

  /** Queued is one token: in the run queue, held by the thread that won the exchange, or popped by
      the worker and not begun.  Processing is the worker's alone. */
  ghost predicate Token(s: Core, enqueuing: nat) {
    && Count(s.sched.runQueue, Mine) + enqueuing + Bit(s.worker.Begin?) == Bit(s.sched.state == Queued)
    && (s.sched.state == Processing <==> Processes(s.worker))
  }

  lemma TokenThread(s: Core, pc: Pc, worker: bool, step: ThreadStep, others: nat)
    requires Token(s, others + Enqueuing(pc)) && ThreadEnabled(s, pc, worker, step)
    ensures var r := ThreadOutcome(s, pc, worker, step); Token(r.core, others + Enqueuing(r.pc))
  {
    hide Count;
    CountPush(s.sched.runQueue, if pc.Enqueue? then Mine else Other, Mine);
  }

  lemma TokenLoop(s: Core, step: LoopStep, others: nat)
    requires Token(s, others) && LoopEnabled(s, step)
    ensures var r := LoopOutcome(s, step); Token(r.core, others + Enqueuing(r.pc))
  {
    hide OutsideRun; hide Count; hide GotoPublished; hide Halt; hide TimersOutcome; hide WheelOutcome;
    if step.PopConnection? && s.sched.runQueue != [] {
      CountPop(s.sched.runQueue, Mine);
    }
  }

  lemma TokenOperation(s: Core, step: OperationStep, others: nat)
    requires Token(s, others) && OperationEnabled(s, step)
    ensures var r := OperationOutcome(s, step); Token(r.core, others + Enqueuing(r.pc))
  {
    hide OperationOutcome; hide OperationEnabled;
  }

  /** A waiting operation of an idle connection has a thread about to schedule it. */
  ghost predicate Attended(s: Core, casing: nat) {
    s.sched.queue != [] && s.sched.state == Idle ==> casing > 0 || s.worker.RecheckEmpty?
  }

  lemma AttendedThread(s: Core, pc: Pc, worker: bool, step: ThreadStep, others: nat)
    requires Attended(s, others + Casing(pc)) && ThreadEnabled(s, pc, worker, step)
    ensures var r := ThreadOutcome(s, pc, worker, step); Attended(r.core, others + Casing(r.pc))
  {
  }

  lemma AttendedLoop(s: Core, step: LoopStep, others: nat)
    requires Attended(s, others) && LoopEnabled(s, step)
    ensures var r := LoopOutcome(s, step); Attended(r.core, others + Casing(r.pc))
  {
  }

  lemma AttendedOperation(s: Core, step: OperationStep, others: nat)
    requires Attended(s, others) && OperationEnabled(s, step)
    ensures var r := OperationOutcome(s, step); Attended(r.core, others + Casing(r.pc))
  {
    hide OperationOutcome; hide OperationEnabled;
  }

  /** The worker does not sleep over a run queue entry. */
  ghost predicate Awake(s: Core, signalling: nat) {
    s.worker.Sleep? && s.sched.runQueue != [] ==> s.sched.ready || signalling > 0
  }

  lemma AwakeThread(s: Core, pc: Pc, worker: bool, step: ThreadStep, others: nat)
    requires Awake(s, others + Signalling(pc)) && ThreadEnabled(s, pc, worker, step)
    ensures var r := ThreadOutcome(s, pc, worker, step); Awake(r.core, others + Signalling(r.pc))
  {
  }

  lemma AwakeLoop(s: Core, step: LoopStep, others: nat)
    requires Awake(s, others) && LoopEnabled(s, step)
    ensures var r := LoopOutcome(s, step); Awake(r.core, others + Signalling(r.pc))
  {
  }

  lemma AwakeOperation(s: Core, step: OperationStep, others: nat)
    requires Awake(s, others) && OperationEnabled(s, step)
    ensures var r := OperationOutcome(s, step); Awake(r.core, others + Signalling(r.pc))
  {
    hide OperationOutcome; hide OperationEnabled;
  }

  /** The number of the operation in the current run. */
  predicate Budgeted(s: Core) {
    match s.worker
    case Next(n) => n <= OPERATION_BUDGET
    case Exec(_, n) => n < OPERATION_BUDGET
    case Feeding(_, n) => n < OPERATION_BUDGET
    case Recheck(n) => n < OPERATION_BUDGET
    case PublishSend(n) => n < OPERATION_BUDGET
    case StopNow(n) => n < OPERATION_BUDGET
    case After(n) => n < OPERATION_BUDGET
    case _ => true
  }

  lemma BudgetedThread(s: Core, pc: Pc, worker: bool, step: ThreadStep)
    requires Budgeted(s) && ThreadEnabled(s, pc, worker, step)
    ensures Budgeted(ThreadOutcome(s, pc, worker, step).core)
  {
    hide ReadOutcome;
  }

  lemma BudgetedLoop(s: Core, step: LoopStep)
    requires Budgeted(s) && LoopEnabled(s, step)
    ensures Budgeted(LoopOutcome(s, step).core)
  {
    hide OutsideRun;
  }

  lemma BudgetedOperation(s: Core, step: OperationStep)
    requires Budgeted(s) && OperationEnabled(s, step)
    ensures Budgeted(OperationOutcome(s, step).core)
  {
    hide InsideRun; hide FlagsMove;
  }

  // ---------------------------------------------------------------------------------------------
  // Coalescing.

  /** How many of `op` are queued, about to be queued or just popped. */
  ghost function Outstanding(s: Core, op: Operation, holding: nat): nat {
    Count(s.sched.queue, op) + holding + Executing(s, op)
  }

  function Executing(s: Core, op: Operation): nat {
    Bit(s.worker.Exec? && s.worker.op == op)
  }

  /** The operations that a flag (or, for the credit, a non-zero counter) keeps unique. */
  predicate Flagged(op: Operation) {
    op.FlushSend? || op.FlushStreamRecv? || op.FlushRecv? || op.ReleaseStreamRecvCredit?
  }

  predicate Flag(s: Core, op: Operation)
    requires Flagged(op)
  {
    match op
    case FlushSend => s.out.sendPending
    case FlushStreamRecv => s.pipe.streamPending
    case FlushRecv => s.inbox.pending
    case ReleaseStreamRecvCredit => s.credit.releasable > 0
  }

  /** While not stopped, one operation is outstanding if and only if its flag is set. */
  ghost predicate Coalesced(s: Core, op: Operation, holding: nat)
    requires Flagged(op)
  {
    !s.stopped ==> Outstanding(s, op, holding) == Bit(Flag(s, op))
  }

  /** Operations are thrown away only after the stop. */
  predicate Halted(s: Core) {
    s.worker.Draining? ==> s.stopped
  }

  /** A step asks for an operation exactly when it sets the flag. */
  lemma CoalescedThread(s: Core, pc: Pc, worker: bool, step: ThreadStep, op: Operation, others: nat)
    requires Flagged(op) && Coalesced(s, op, others + Holding(pc, op)) && ThreadEnabled(s, pc, worker, step)
    ensures var r := ThreadOutcome(s, pc, worker, step); Coalesced(r.core, op, others + Holding(r.pc, op))
  {
    hide ThreadOutcome; hide Outstanding;
    FlagThread(s, pc, worker, step, op);
    if !s.stopped {
      OutstandingThread(s, pc, worker, step, op, others);
    }
  }

  lemma FlagThread(s: Core, pc: Pc, worker: bool, step: ThreadStep, op: Operation)
    requires Flagged(op) && ThreadEnabled(s, pc, worker, step)
    ensures var r := ThreadOutcome(s, pc, worker, step);
            r.core.stopped == s.stopped && Bit(Flag(r.core, op)) == Bit(Flag(s, op)) + Bit(r.pc == Check(op))
  {
    hide ReadOutcome;
  }

  lemma OutstandingThread(s: Core, pc: Pc, worker: bool, step: ThreadStep, op: Operation, others: nat)
    requires ThreadEnabled(s, pc, worker, step) && !s.stopped
    ensures var r := ThreadOutcome(s, pc, worker, step);
            Outstanding(r.core, op, others + Holding(r.pc, op))
            == Outstanding(s, op, others + Holding(pc, op)) + Bit(r.pc == Check(op))
  {
    hide ReadOutcome; hide Count;
    if step.DoPush? {
      CountPush(s.sched.queue, pc.op, op);
    }
  }

  lemma CoalescedLoop(s: Core, step: LoopStep, op: Operation, others: nat)
    requires Flagged(op) && Coalesced(s, op, others) && Halted(s) && LoopEnabled(s, step)
    ensures var r := LoopOutcome(s, step); Coalesced(r.core, op, others + Holding(r.pc, op)) && Halted(r.core)
  {
    hide LoopOutcome; hide Count;
    OutstandingLoop(s, step, op, others);
  }

  lemma OutstandingLoop(s: Core, step: LoopStep, op: Operation, others: nat)
    requires LoopEnabled(s, step) && Halted(s)
    ensures var r := LoopOutcome(s, step);
            !r.core.stopped ==> Outstanding(r.core, op, others) == Outstanding(s, op, others)
    ensures Halted(LoopOutcome(s, step).core)
  {
    hide LoopOutcome; hide Count;
    HaltedLoop(s, step);
    if step.PopOperation? {
      OutstandingPop(s, op, others);
    }
  }

  lemma OutstandingPop(s: Core, op: Operation, others: nat)
    requires LoopEnabled(s, PopOperation)
    ensures var r := LoopOutcome(s, PopOperation); Outstanding(r.core, op, others) == Outstanding(s, op, others)
  {
    hide Count;
    if s.sched.queue != [] {
      CountPop(s.sched.queue, op);
    }
  }

  lemma HaltedLoop(s: Core, step: LoopStep)
    requires LoopEnabled(s, step) && Halted(s)
    ensures var r := LoopOutcome(s, step).core;
            Halted(r) && (step.DrainOne? ==> r.stopped) && (step.Fail? ==> r.stopped)
    ensures var r := LoopOutcome(s, step).core;
            step.PopOperation? || step.DrainOne? || (r.sched.queue == s.sched.queue && !r.worker.Exec?)
  {
    hide OutsideRun; hide GotoPublished; hide Halt; hide TimersOutcome; hide WheelOutcome;
  }

  lemma CoalescedOperation(s: Core, step: OperationStep, op: Operation, others: nat)
    requires Flagged(op) && Coalesced(s, op, others) && Halted(s) && OperationEnabled(s, step)
    ensures var r := OperationOutcome(s, step); Coalesced(r.core, op, others + Holding(r.pc, op)) && Halted(r.core)
  {
    hide Count; hide OperationOutcome;
    if !s.stopped {
      FlagOperation(s, step, op);
    }
  }

  /** The flag is cleared by the operation it stands for, and set only when a new one is asked for. */
  lemma FlagOperation(s: Core, step: OperationStep, op: Operation)
    requires Flagged(op) && OperationEnabled(s, step) && Executing(s, op) <= Bit(Flag(s, op))
    ensures var r := OperationOutcome(s, step);
            Bit(Flag(r.core, op)) + Executing(s, op) == Bit(Flag(s, op)) + Holding(r.pc, op)
  {
    hide OperationOutcome;
  }

  /** The same for the timer, whose operation has no flag: none is lost. */
  lemma TimerOutstandingThread(s: Core, pc: Pc, worker: bool, step: ThreadStep, others: nat)
    requires ThreadEnabled(s, pc, worker, step) && !s.stopped
    ensures var r := ThreadOutcome(s, pc, worker, step);
            Outstanding(r.core, TimerExpired, others + Holding(r.pc, TimerExpired))
            == Outstanding(s, TimerExpired, others + Holding(pc, TimerExpired))
  {
    hide ReadOutcome; hide Outstanding;
    OutstandingThread(s, pc, worker, step, TimerExpired, others);
  }
}
