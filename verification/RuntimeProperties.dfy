/** What the invariants mean for the users of a connection. */
module RuntimeProperties {
  import opened Counting
  import opened Runtime
  import opened RuntimeScheduling
  import opened RuntimeStreams
  import opened RuntimeTimers
  import opened RuntimeRuns
  import opened Sequences

  /** The wheel's entry is no later than the retry deadline and ngtcp2's own, and is one of them. */
  predicate WakesInTime(s: Core) {
    && (s.out.retry.At? ==> s.out.wheel.At? && s.out.wheel.time <= s.out.retry.time)
    && (s.conn && s.out.protocol.At? ==> s.out.wheel.At? && s.out.wheel.time <= s.out.protocol.time)
    && (s.out.wheel.At? ==> s.out.wheel == s.out.retry || (s.conn && s.out.wheel == s.out.protocol))
  }

  /** Nobody is inside a call and the worker sleeps with its event unset. */
  ghost predicate Quiescent(s: State) {
    && s.core.worker.Sleep? && !s.core.sched.ready
    && forall i :: 0 <= i < |s.threads| ==> s.threads[i] == Ready
  }

  /** No lost wake-up: whenever everything has come to rest, nothing is left to do but wait for the
      network, the clock or the application. */
  lemma QuietMeansDone(s: State)
    requires Reachable(s) && Quiescent(s)
    ensures s.core.sched.queue == [] && s.core.sched.state == Idle && s.core.sched.runQueue == []
    ensures !s.core.stopped ==>
      && s.core.inbox.batch == [] && s.core.inbox.fed == s.core.inbox.arrived
      && s.core.pipe.stream == [] && !s.core.pipe.finPending
      && s.core.pipe.taken + s.core.pipe.app == s.core.pipe.delivered
      && s.core.pipe.appFin == s.core.pipe.finDelivered
      && s.core.credit.releasable == 0 && s.core.credit.extended == |s.core.pipe.taken|
      && s.core.tx.data == s.core.tx.pushed && |s.core.tx.data| == s.core.tx.writeOffset
      && s.core.tx.published == s.core.tx.progress
      && WakesInTime(s.core)
      && (s.core.out.pending > 0 || s.core.out.owed ==> s.core.out.retry.At? && s.core.out.wheel.At?)
  {
    ReachableInv(s);
    QuietSchedule(s);
    if !s.core.stopped {
      QuietStreams(s);
      QuietTimers(s);
    }
  }

  lemma QuietSchedule(s: State)
    requires Scheduled(s) && Quiescent(s)
    ensures s.core.sched.queue == [] && s.core.sched.state == Idle && s.core.sched.runQueue == []
  {
    TotalZero(Enqueuing, s.threads);
    TotalZero(Casing, s.threads);
    TotalZero(Signalling, s.threads);
  }

  lemma QuietFlag(s: State, op: Operation)
    requires Flagged(op) && CoalescedIn(s, op) && Quiescent(s) && !s.core.stopped && s.core.sched.queue == []
    ensures !Flag(s.core, op)
  {
    TotalZero(HoldingOf(op), s.threads);
  }

  lemma QuietStreams(s: State)
    requires Inv(s) && Quiescent(s) && !s.core.stopped && s.core.sched.queue == []
    ensures s.core.inbox.batch == [] && s.core.inbox.fed == s.core.inbox.arrived
    ensures s.core.pipe.stream == [] && s.core.pipe.taken + s.core.pipe.app == s.core.pipe.delivered
    ensures !s.core.pipe.finPending && s.core.pipe.appFin == s.core.pipe.finDelivered
    ensures s.core.credit.releasable == 0 && s.core.credit.extended == |s.core.pipe.taken|
    ensures s.core.tx.data == s.core.tx.pushed && |s.core.tx.data| == s.core.tx.writeOffset
    ensures s.core.tx.published == s.core.tx.progress
  {
    QuietFlag(s, FlushStreamRecv);
    QuietFlag(s, FlushRecv);
    QuietFlag(s, ReleaseStreamRecvCredit);
    TotalZero(CountedBy, s.threads);
    TotalZero(InFlight, s.threads);
  }

  lemma QuietTimers(s: State)
    requires Inv(s) && Quiescent(s) && !s.core.stopped && s.core.sched.queue == []
    ensures WakesInTime(s.core)
    ensures s.core.out.pending > 0 || s.core.out.owed ==> s.core.out.retry.At? && s.core.out.wheel.At?
  {
    QuietFlag(s, FlushSend);
    TotalZero(HoldingOf(TimerExpired), s.threads);
  }

  /** The schedule token at every moment: never two entries for one connection in the run queue, none
      while the worker is inside it, and the connection never rests with work that nobody is about
      to schedule. */
  lemma ScheduleSafety(s: State)
    requires Reachable(s)
    ensures Count(s.core.sched.runQueue, Mine) <= 1
    ensures Processes(s.core.worker) <==> s.core.sched.state == Processing
    ensures Processes(s.core.worker) ==> Mine !in s.core.sched.runQueue
    ensures s.core.sched.queue != [] && s.core.sched.state == Idle ==>
      s.core.worker.RecheckEmpty? || exists i :: 0 <= i < |s.threads| && s.threads[i].Cas?
  {
    ReachableInv(s);
    if Count(s.core.sched.runQueue, Mine) == 0 {
      CountZero(s.core.sched.runQueue, Mine);
    }
    if Total(Casing, s.threads) > 0 {
      var i := TotalWitness(Casing, s.threads);
      assert s.threads[i].Cas?;
    }
  }

  /** The branch at the end of processReceive that asks for another flush is never taken. */
  lemma RecheckNeverRequeues(s: State)
    requires Reachable(s) && s.core.worker.Recheck?
    ensures RecheckOutcome(s.core).pc == Ready && RecheckOutcome(s.core).core.inbox == s.core.inbox
  {
    hide Reachable; hide InsideRun; hide FlagsMove; hide KeepsReceived; hide KeepsSent;
    ReachableInv(s);
  }

  /** While not stopped, each coalesced operation is outstanding once if its flag is set and not at
      all otherwise. */
  lemma FlagsAreExact(s: State, op: Operation)
    requires Reachable(s) && !s.core.stopped && Flagged(op)
    ensures Outstanding(s.core, op, Total(HoldingOf(op), s.threads)) == Bit(Flag(s.core, op))
  {
    ReachableInv(s);
  }

  /** The end that a receive() reports is the end: every delivered byte was handed out, in order. */
  lemma EndMeansEverything(s: State)
    requires Reachable(s)
    ensures s.core.pipe.taken + s.core.pipe.app + s.core.pipe.stream == s.core.pipe.delivered
    ensures s.core.pipe.endSeen ==> s.core.pipe.finDelivered && s.core.pipe.taken == s.core.pipe.delivered
  {
    ReachableInv(s);
  }

  /** Credit is conserved, and what the peer may have in front of the reader is bounded. */
  lemma ReceiveMemoryBounded(s: State)
    requires Reachable(s) && !s.core.stopped
    ensures s.core.credit.extended + s.core.credit.releasable + Total(CountedBy, s.threads) == |s.core.pipe.taken|
    ensures |s.core.pipe.app| + |s.core.pipe.stream| <= INITIAL_MAX_STREAM_DATA
    ensures s.core.credit.releasable > 0 <==>
      Outstanding(s.core, ReleaseStreamRecvCredit, Total(HoldingOf(ReleaseStreamRecvCredit), s.threads)) == 1
  {
    ReachableInv(s);
    WindowBound(s.core, Total(CountedBy, s.threads));
  }

  /** Neither refused bytes nor anything else that ngtcp2 has to send is ever stranded. */
  lemma BlockedSendsWakeUp(s: State)
    requires Reachable(s) && !s.core.stopped
    ensures s.core.out.pending > 0 || (s.core.out.owed && !s.core.worker.Feeding?) ==>
      s.core.out.retry.At? || Outstanding(s.core, FlushSend, Total(HoldingOf(FlushSend), s.threads)) == 1
    ensures s.core.out.retry.At? ==> s.core.out.pending > 0
    ensures BetweenRuns(s.core.worker) ==>
      || WakesInTime(s.core)
      || Outstanding(s.core, TimerExpired, Total(HoldingOf(TimerExpired), s.threads)) > 0
  {
    ReachableInv(s);
  }

  /** The offset chain across the threads. */
  lemma OffsetChain(s: State)
    requires Reachable(s) && !s.core.stopped
    ensures var t := s.core.tx;
            && t.published.acked <= t.progress.acked <= t.progress.submitted <= |t.data| <= t.writeOffset
            && |t.data| + |Popped(s.core.worker)| + |QueuedBytes(s.core.sched.queue)| + Total(InFlight, s.threads)
               == t.writeOffset
            && t.data <= t.pushed
  {
    hide QueuedBytes; hide Popped; hide Total;
    ReachableInv(s);
    Front3(s.core.tx.data, Popped(s.core.worker), QueuedBytes(s.core.sched.queue));
  }

  /** isWriteAcknowledged loads the application's offset in state j and the published offset in state
      k.  When no send runs in between (the caller is the only writer), a match means that every byte
      written is submitted and acknowledged; and getBufferedWriteBytes never has to clamp. */
  lemma AcknowledgedMeansAll(states: seq<State>, j: nat, k: nat)
    requires Run(states) && j <= k < |states| && !states[k].core.stopped
    requires states[j].core.tx.writeOffset == states[k].core.tx.writeOffset
    ensures states[k].core.tx.published.acked <= states[j].core.tx.writeOffset
    ensures var t := states[k].core.tx;
            t.published.acked == states[j].core.tx.writeOffset ==>
              && t.data == t.pushed && |t.pushed| == t.writeOffset && t.progress.acked == |t.pushed|
              && QueuedBytes(states[k].core.sched.queue) == []
    ensures states[k].core.tx.published.finAcked ==>
              states[k].core.tx.finRequested && states[k].core.tx.progress.submitted == |states[k].core.tx.data|
  {
    hide QueuedBytes; hide Popped; hide Total;
    EveryRun(states, k);
    var s := states[k];
    Front3(s.core.tx.data, Popped(s.core.worker), QueuedBytes(s.core.sched.queue));
  }

  /** The published offsets never go back while the connection is not stopped. */
  lemma {:induction false} PublishedGrows(states: seq<State>, j: nat, k: nat)
    requires Run(states) && j <= k < |states| && !states[k].core.stopped
    ensures Grows(states[j].core.tx.published, states[k].core.tx.published)
  {
    hide Run; hide Moves; hide Scheduled; hide FlagsExact; hide Timed; hide Chained; hide Settled;
    if j < k {
      EveryRun(states, k - 1);
      RunMoves(states, k);
      PublishedGrowsOnce(states[k - 1], states[k]);
      PublishedGrows(states, j, k - 1);
    }
  }

  lemma PublishedGrowsOnce(s: State, s': State)
    requires Chained(s.core) && Settled(s.core) && Moves(s, s') && !s'.core.stopped
    ensures !s.core.stopped && Grows(s.core.tx.published, s'.core.tx.published)
  {
    hide Total; hide Apply;
    var step :| Enabled(s, step) && s' == Apply(s, step);
    StopIsFinal(s, step);
    ChainedStep(s, step);
  }

  lemma StopIsFinal(s: State, step: Step)
    requires Enabled(s, step)
    ensures s.core.stopped ==> Apply(s, step).core.stopped
  {
  }

  /** The steps that run publishApplicationState. */
  predicate Publishes(step: Step) {
    step == Loop(PublishAfterSend) || step == Loop(PublishState) || step == Operate(ExecShutdown)
  }

  /** And this is exactly when they do go back: at a publication without a connection that finds
      anything published.  It takes a stop. */
  lemma PublishedGoesBack(s: State, step: Step)
    requires Reachable(s) && Enabled(s, step)
    ensures !Grows(s.core.tx.published, Apply(s, step).core.tx.published) <==>
      Publishes(step) && !s.core.conn && s.core.tx.published != NOTHING_SENT
    ensures !Grows(s.core.tx.published, Apply(s, step).core.tx.published) ==> s.core.stopped
  {
    ReachableInv(s);
    match step {
      case Thread(i, t) => GrowsThread(s.core, s.threads[i], i == 0, t);
      case Loop(l) => GrowsLoop(s.core, l);
      case Operate(o) => GrowsOperation(s.core, o);
      case Tick(_) =>
    }
  }

  lemma GrowsThread(s: Core, pc: Pc, worker: bool, step: ThreadStep)
    requires ThreadEnabled(s, pc, worker, step)
    ensures ThreadOutcome(s, pc, worker, step).core.tx.published == s.tx.published
  {
  }

  lemma GrowsLoop(s: Core, step: LoopStep)
    requires Behind(s) && LoopEnabled(s, step)
    ensures !Grows(s.tx.published, LoopOutcome(s, step).core.tx.published) <==>
      Publishes(Loop(step)) && !s.conn && s.tx.published != NOTHING_SENT
  {
    hide WheelOutcome; hide TimersOutcome;
  }

  lemma GrowsOperation(s: Core, step: OperationStep)
    requires Behind(s) && OperationEnabled(s, step)
    ensures !Grows(s.tx.published, OperationOutcome(s, step).core.tx.published) <==>
      Publishes(Operate(step)) && !s.conn && s.tx.published != NOTHING_SENT
  {
    hide ReceiveOutcome; hide RecheckOutcome; hide DeliverOutcome; hide FinOutcome; hide StreamOutcome;
    hide PacketOutcome; hide TimerOutcome; hide ReleaseOutcome;
  }

  /** A connection never holds the worker for more than its budget of operations. */
  lemma BudgetKept(s: State)
    requires Reachable(s)
    ensures s.core.worker.Exec? || s.core.worker.After? ==> s.core.worker.n < OPERATION_BUDGET
  {
    ReachableInv(s);
  }
}
