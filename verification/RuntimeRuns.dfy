/** Every invariant on every run, and what follows from them. */
module RuntimeRuns {
  import opened Counting
  import opened Runtime
  import opened RuntimeScheduling
  import opened RuntimeStreams
  import opened RuntimeTimers

  /** The scheduling protocol. */
  ghost predicate Scheduled(s: State) {
    && Token(s.core, Total(Enqueuing, s.threads))
    && Attended(s.core, Total(Casing, s.threads))
    && Awake(s.core, Total(Signalling, s.threads))
    && Budgeted(s.core)
  }

  /** The coalescing flags. */
  ghost predicate FlagsExact(s: State) {
    && Halted(s.core)
    && CoalescedIn(s, FlushSend) && CoalescedIn(s, FlushStreamRecv)
    && CoalescedIn(s, FlushRecv) && CoalescedIn(s, ReleaseStreamRecvCredit)
  }

  ghost predicate CoalescedIn(s: State, op: Operation)
    requires Flagged(op)
  {
    Coalesced(s.core, op, Total(HoldingOf(op), s.threads))
  }

  /** The byte streams and the datagrams. */
  ghost predicate Streaming(s: State) {
    && Piped(s.core, Total(ReadingAgain, s.threads))
    && Funded(s.core, Total(CountedBy, s.threads))
    && Carried(s.core, Total(InFlight, s.threads))
    && Fed(s.core) && Chained(s.core) && Settled(s.core) && Behind(s.core) && Faithful(s.core)
    && forall op: Operation :: CalledIn(s, op)
  }

  ghost predicate CalledIn(s: State, op: Operation) {
    Called(s.core, op, Total(CarryingOf(op), s.threads))
  }

  /** Retries and timers. */
  ghost predicate Timed(s: State) {
    && Armed(s.core)
    && Wheeled(s.core, Total(HoldingOf(TimerExpired), s.threads))
  }

  ghost predicate Inv(s: State) {
    |s.threads| > 0 && Scheduled(s) && FlagsExact(s) && Streaming(s) && Timed(s)
  }

  /** The sum over the threads that stay where they are. */
  lemma Others(weight: Pc -> nat, threads: seq<Pc>, i: nat, pc: Pc) returns (others: nat)
    requires i < |threads|
    ensures Total(weight, threads) == others + weight(threads[i])
    ensures Total(weight, threads[i := pc]) == others + weight(pc)
  {
    TotalUpdate(weight, threads, i, pc);
    others := Total(weight, threads) - weight(threads[i]);
  }

  lemma TokenStep(s: State, step: Step)
    requires |s.threads| > 0 && Token(s.core, Total(Enqueuing, s.threads)) && Enabled(s, step)
    ensures var s' := Apply(s, step); Token(s'.core, Total(Enqueuing, s'.threads))
  {
    match step
    case Thread(i, t) =>
      var others := Others(Enqueuing, s.threads, i, ThreadOutcome(s.core, s.threads[i], i == 0, t).pc);
      TokenThread(s.core, s.threads[i], i == 0, t, others);
    case Loop(l) =>
      var others := Others(Enqueuing, s.threads, 0, LoopOutcome(s.core, l).pc);
      TokenLoop(s.core, l, others);
    case Operate(o) =>
      var others := Others(Enqueuing, s.threads, 0, OperationOutcome(s.core, o).pc);
      TokenOperation(s.core, o, others);
    case Tick(_) =>
  }

  lemma AttendedStep(s: State, step: Step)
    requires |s.threads| > 0 && Attended(s.core, Total(Casing, s.threads)) && Enabled(s, step)
    ensures var s' := Apply(s, step); Attended(s'.core, Total(Casing, s'.threads))
  {
    match step
    case Thread(i, t) =>
      var others := Others(Casing, s.threads, i, ThreadOutcome(s.core, s.threads[i], i == 0, t).pc);
      AttendedThread(s.core, s.threads[i], i == 0, t, others);
    case Loop(l) =>
      var others := Others(Casing, s.threads, 0, LoopOutcome(s.core, l).pc);
      AttendedLoop(s.core, l, others);
    case Operate(o) =>
      var others := Others(Casing, s.threads, 0, OperationOutcome(s.core, o).pc);
      AttendedOperation(s.core, o, others);
    case Tick(_) =>
  }

  lemma AwakeStep(s: State, step: Step)
    requires |s.threads| > 0 && Awake(s.core, Total(Signalling, s.threads)) && Enabled(s, step)
    ensures var s' := Apply(s, step); Awake(s'.core, Total(Signalling, s'.threads))
  {
    match step
    case Thread(i, t) =>
      var others := Others(Signalling, s.threads, i, ThreadOutcome(s.core, s.threads[i], i == 0, t).pc);
      AwakeThread(s.core, s.threads[i], i == 0, t, others);
    case Loop(l) =>
      var others := Others(Signalling, s.threads, 0, LoopOutcome(s.core, l).pc);
      AwakeLoop(s.core, l, others);
    case Operate(o) =>
      var others := Others(Signalling, s.threads, 0, OperationOutcome(s.core, o).pc);
      AwakeOperation(s.core, o, others);
    case Tick(_) =>
  }

  lemma PipedStep(s: State, step: Step)
    requires |s.threads| > 0 && Piped(s.core, Total(ReadingAgain, s.threads)) && Enabled(s, step)
    ensures var s' := Apply(s, step); Piped(s'.core, Total(ReadingAgain, s'.threads))
  {
    match step
    case Thread(i, t) =>
      var others := Others(ReadingAgain, s.threads, i, ThreadOutcome(s.core, s.threads[i], i == 0, t).pc);
      PipedThread(s.core, s.threads[i], i == 0, t, others);
    case Loop(l) =>
      var others := Others(ReadingAgain, s.threads, 0, LoopOutcome(s.core, l).pc);
      PipedLoop(s.core, l, others);
    case Operate(o) =>
      var others := Others(ReadingAgain, s.threads, 0, OperationOutcome(s.core, o).pc);
      PipedOperation(s.core, o, others);
    case Tick(_) =>
  }

  lemma FundedStep(s: State, step: Step)
    requires |s.threads| > 0 && Funded(s.core, Total(CountedBy, s.threads)) && Conserved(s.core.pipe) && Enabled(s, step)
    ensures var s' := Apply(s, step); Funded(s'.core, Total(CountedBy, s'.threads))
  {
    match step
    case Thread(i, t) =>
      var others := Others(CountedBy, s.threads, i, ThreadOutcome(s.core, s.threads[i], i == 0, t).pc);
      FundedThread(s.core, s.threads[i], i == 0, t, others);
    case Loop(l) =>
      var others := Others(CountedBy, s.threads, 0, LoopOutcome(s.core, l).pc);
      FundedLoop(s.core, l, others);
    case Operate(o) =>
      var others := Others(CountedBy, s.threads, 0, OperationOutcome(s.core, o).pc);
      FundedOperation(s.core, o, others);
    case Tick(_) =>
  }

  lemma CarriedStep(s: State, step: Step)
    requires |s.threads| > 0 && Carried(s.core, Total(InFlight, s.threads)) && Halted(s.core) && Enabled(s, step)
    ensures var s' := Apply(s, step); Carried(s'.core, Total(InFlight, s'.threads))
  {
    match step
    case Thread(i, t) =>
      var others := Others(InFlight, s.threads, i, ThreadOutcome(s.core, s.threads[i], i == 0, t).pc);
      CarriedThread(s.core, s.threads[i], i == 0, t, others);
    case Loop(l) =>
      var others := Others(InFlight, s.threads, 0, LoopOutcome(s.core, l).pc);
      CarriedLoop(s.core, l, others);
    case Operate(o) =>
      var others := Others(InFlight, s.threads, 0, OperationOutcome(s.core, o).pc);
      CarriedOperation(s.core, o, others);
    case Tick(_) =>
  }

  lemma BudgetedStep(s: State, step: Step)
    requires Budgeted(s.core) && Enabled(s, step)
    ensures Budgeted(Apply(s, step).core)
  {
    match step
    case Thread(i, t) => BudgetedThread(s.core, s.threads[i], i == 0, t);
    case Loop(l) => BudgetedLoop(s.core, l);
    case Operate(o) => BudgetedOperation(s.core, o);
    case Tick(_) =>
  }

  lemma FedStep(s: State, step: Step)
    requires Fed(s.core) && Enabled(s, step)
    ensures Fed(Apply(s, step).core)
  {
    match step
    case Thread(i, t) => FedThread(s.core, s.threads[i], i == 0, t);
    case Loop(l) => FedLoop(s.core, l);
    case Operate(o) => FedOperation(s.core, o);
    case Tick(_) =>
  }

  lemma ChainedStep(s: State, step: Step)
    requires Chained(s.core) && Settled(s.core) && Enabled(s, step)
    ensures Chained(Apply(s, step).core) && Settled(Apply(s, step).core)
    ensures !Apply(s, step).core.stopped ==> Grows(s.core.tx.published, Apply(s, step).core.tx.published)
  {
    match step
    case Thread(i, t) => ChainedThread(s.core, s.threads[i], i == 0, t);
    case Loop(l) => ChainedLoop(s.core, l);
    case Operate(o) => ChainedOperation(s.core, o);
    case Tick(_) =>
  }

  lemma BehindStep(s: State, step: Step)
    requires Behind(s.core) && Enabled(s, step)
    ensures Behind(Apply(s, step).core)
  {
    match step
    case Thread(i, t) => BehindThread(s.core, s.threads[i], i == 0, t);
    case Loop(l) => BehindLoop(s.core, l);
    case Operate(o) => BehindOperation(s.core, o);
    case Tick(_) =>
  }

  lemma FaithfulStep(s: State, step: Step)
    requires Faithful(s.core) && Halted(s.core) && Enabled(s, step)
    ensures Faithful(Apply(s, step).core)
  {
    match step
    case Thread(i, t) => FaithfulThread(s.core, s.threads[i], i == 0, t);
    case Loop(l) => FaithfulLoop(s.core, l);
    case Operate(o) => FaithfulOperation(s.core, o);
    case Tick(_) =>
  }

  lemma CalledStep(s: State, step: Step, op: Operation)
    requires |s.threads| > 0 && CalledIn(s, op) && Enabled(s, step)
    ensures CalledIn(Apply(s, step), op)
  {
    match step
    case Thread(i, t) =>
      var others := Others(CarryingOf(op), s.threads, i, ThreadOutcome(s.core, s.threads[i], i == 0, t).pc);
      CalledThread(s.core, s.threads[i], i == 0, t, op, others);
    case Loop(l) =>
      var others := Others(CarryingOf(op), s.threads, 0, LoopOutcome(s.core, l).pc);
      CalledLoop(s.core, l, op, others);
    case Operate(o) =>
      var others := Others(CarryingOf(op), s.threads, 0, OperationOutcome(s.core, o).pc);
      CalledOperation(s.core, o, op, others);
    case Tick(_) =>
  }

  lemma ArmedStep(s: State, step: Step)
    requires Armed(s.core) && Enabled(s, step)
    ensures Armed(Apply(s, step).core)
  {
    match step
    case Thread(i, t) => ArmedThread(s.core, s.threads[i], i == 0, t);
    case Loop(l) => ArmedLoop(s.core, l);
    case Operate(o) => ArmedOperation(s.core, o);
    case Tick(_) =>
  }

  lemma WheeledStep(s: State, step: Step)
    requires |s.threads| > 0 && Wheeled(s.core, Total(HoldingOf(TimerExpired), s.threads)) && Halted(s.core)
    requires Enabled(s, step)
    ensures var s' := Apply(s, step); Wheeled(s'.core, Total(HoldingOf(TimerExpired), s'.threads))
  {
    match step
    case Thread(i, t) =>
      var others := Others(HoldingOf(TimerExpired), s.threads, i, ThreadOutcome(s.core, s.threads[i], i == 0, t).pc);
      WheeledThread(s.core, s.threads[i], i == 0, t, others);
    case Loop(l) =>
      var others := Others(HoldingOf(TimerExpired), s.threads, 0, LoopOutcome(s.core, l).pc);
      WheeledLoop(s.core, l, others);
    case Operate(o) =>
      var others := Others(HoldingOf(TimerExpired), s.threads, 0, OperationOutcome(s.core, o).pc);
      WheeledOperation(s.core, o, others);
    case Tick(_) =>
  }

  lemma CoalescedStep(s: State, step: Step, op: Operation)
    requires |s.threads| > 0 && Flagged(op) && CoalescedIn(s, op) && Halted(s.core) && Enabled(s, step)
    ensures CoalescedIn(Apply(s, step), op) && Halted(Apply(s, step).core)
  {
    match step
    case Thread(i, t) =>
      var others := Others(HoldingOf(op), s.threads, i, ThreadOutcome(s.core, s.threads[i], i == 0, t).pc);
      CoalescedThread(s.core, s.threads[i], i == 0, t, op, others);
    case Loop(l) =>
      var others := Others(HoldingOf(op), s.threads, 0, LoopOutcome(s.core, l).pc);
      CoalescedLoop(s.core, l, op, others);
    case Operate(o) =>
      var others := Others(HoldingOf(op), s.threads, 0, OperationOutcome(s.core, o).pc);
      CoalescedOperation(s.core, o, op, others);
    case Tick(_) =>
  }

  lemma InvStep(s: State, step: Step)
    requires Inv(s) && Enabled(s, step)
    ensures Inv(Apply(s, step))
  {
    TokenStep(s, step);
    AttendedStep(s, step);
    AwakeStep(s, step);
    BudgetedStep(s, step);
    CoalescedStep(s, step, FlushSend);
    CoalescedStep(s, step, FlushStreamRecv);
    CoalescedStep(s, step, FlushRecv);
    CoalescedStep(s, step, ReleaseStreamRecvCredit);
    PipedStep(s, step);
    FundedStep(s, step);
    CarriedStep(s, step);
    FedStep(s, step);
    ChainedStep(s, step);
    BehindStep(s, step);
    FaithfulStep(s, step);
    forall op: Operation ensures CalledIn(Apply(s, step), op) {
      CalledStep(s, step, op);
    }
    ArmedStep(s, step);
    WheeledStep(s, step);
  }

  lemma InvInit(s: State)
    requires Init(s)
    ensures Inv(s)
  {
    TotalZero(Enqueuing, s.threads);
    TotalZero(Casing, s.threads);
    TotalZero(Signalling, s.threads);
    TotalZero(ReadingAgain, s.threads);
    TotalZero(CountedBy, s.threads);
    TotalZero(InFlight, s.threads);
    TotalZero(HoldingOf(FlushSend), s.threads);
    TotalZero(HoldingOf(FlushStreamRecv), s.threads);
    TotalZero(HoldingOf(FlushRecv), s.threads);
    TotalZero(HoldingOf(ReleaseStreamRecvCredit), s.threads);
    TotalZero(HoldingOf(TimerExpired), s.threads);
    forall op: Operation ensures CalledIn(s, op) {
      TotalZero(CarryingOf(op), s.threads);
    }
  }

  /** Every invariant holds in every state of every run, for any number of threads and any
      behaviour of ngtcp2, the transport and the clock that their contracts allow. */
  lemma {:induction false} EveryRun(states: seq<State>, k: nat)
    requires Run(states) && k < |states|
    ensures Inv(states[k])
  {
    if k == 0 {
      InvInit(states[0]);
    } else {
      EveryRun(states, k - 1);
      RunMoves(states, k);
      var step :| Enabled(states[k - 1], step) && states[k] == Apply(states[k - 1], step);
      InvStep(states[k - 1], step);
    }
  }

  lemma RunMoves(states: seq<State>, k: nat)
    requires Run(states) && 0 < k < |states|
    ensures Moves(states[k - 1], states[k])
  {
    var before := k - 1;
    assert Moves(states[before], states[before + 1]);
  }

  lemma ReachableInv(s: State)
    requires Reachable(s)
    ensures Inv(s)
  {
    var states :| Run(states) && states[|states| - 1] == s;
    EveryRun(states, |states| - 1);
  }
}
