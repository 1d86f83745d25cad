/** Retries and timers of a running connection. */
module RuntimeTimers {
  import opened Clock
  import opened Runtime
  import opened RuntimeScheduling

  /** Refused bytes always have a retry deadline or a flush on its way, and a retry deadline always
      has refused bytes.  Whatever else ngtcp2 was given to send has one of the two as well, at the
      latest when the packets being fed to it are done. */
  predicate Armed(s: Core) {
    !s.stopped ==>
      && (s.out.pending > 0 ==> s.out.retry.At? || s.out.sendPending)
      && (s.out.retry.At? ==> s.out.pending > 0)
      && (!s.conn ==> s.out.pending == 0 && !s.out.owed)
      && (s.out.owed ==> s.out.retry.At? || s.out.sendPending || s.worker.Feeding?)
  }

  lemma ArmedThread(s: Core, pc: Pc, worker: bool, step: ThreadStep)
    requires Armed(s) && ThreadEnabled(s, pc, worker, step)
    ensures Armed(ThreadOutcome(s, pc, worker, step).core)
  {
  }

  lemma ArmedLoop(s: Core, step: LoopStep)
    requires Armed(s) && LoopEnabled(s, step)
    ensures Armed(LoopOutcome(s, step).core)
  {
  }

  lemma ArmedOperation(s: Core, step: OperationStep)
    requires Armed(s) && OperationEnabled(s, step)
    ensures Armed(OperationOutcome(s, step).core)
  {
  }

  /** From the update of the wheel at the end of a run to the start of the next run. */
  predicate BetweenRuns(worker: WorkerPc) {
    worker.StoreIdle? || !Processes(worker)
  }

  /** Between runs the wheel holds the connection's next expiry, unless it already fired and a
      TimerExpired is on its way; a stopped connection is not in the wheel. */
  ghost predicate Wheeled(s: Core, holding: nat) {
    BetweenRuns(s.worker) ==>
      if s.stopped then s.out.wheel == Never
      else s.out.wheel == NextExpiry(s) || Outstanding(s, TimerExpired, holding) > 0
  }

  lemma WheeledThread(s: Core, pc: Pc, worker: bool, step: ThreadStep, others: nat)
    requires Wheeled(s, others + Holding(pc, TimerExpired)) && ThreadEnabled(s, pc, worker, step)
    ensures var r := ThreadOutcome(s, pc, worker, step); Wheeled(r.core, others + Holding(r.pc, TimerExpired))
  {
    hide Outstanding; hide ReadOutcome;
    if !s.stopped {
      TimerOutstandingThread(s, pc, worker, step, others);
    }
  }

  lemma WheeledLoop(s: Core, step: LoopStep, others: nat)
    requires Wheeled(s, others) && Halted(s) && LoopEnabled(s, step)
    ensures var r := LoopOutcome(s, step); Wheeled(r.core, others + Holding(r.pc, TimerExpired))
  {
    hide Outstanding;
    OutstandingLoop(s, step, TimerExpired, others);
    OutstandingMore(LoopOutcome(s, step).core, others, Holding(LoopOutcome(s, step).pc, TimerExpired));
  }

  lemma OutstandingMore(s: Core, others: nat, more: nat)
    ensures Outstanding(s, TimerExpired, others + more) == Outstanding(s, TimerExpired, others) + more
  {
  }

  lemma WheeledOperation(s: Core, step: OperationStep, others: nat)
    requires OperationEnabled(s, step)
    ensures var r := OperationOutcome(s, step); Wheeled(r.core, others + Holding(r.pc, TimerExpired))
  {
    hide OperationOutcome;
  }
}
