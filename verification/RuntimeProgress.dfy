/** What has to happen next: a deadline that has come fires, the end of the stream is reported, and
    what was asked for arrives. */
module RuntimeProgress {
  import BufferPool
  import opened Clock
  import opened Counting
  import opened Runtime
  import opened RuntimeScheduling
  import opened RuntimeStreams
  import opened RuntimeRuns
  import opened RuntimeProperties

  /** At the top of its loop the worker takes an entry out of the wheel exactly when its time has come,
      and a TimerExpired follows. */
  lemma DueEntryFires(s: State)
    requires |s.threads| > 0 && s.threads[0] == Ready && s.core.worker.Top? && !s.core.stopped
    ensures Enabled(s, Loop(Timers))
    ensures var s' := Apply(s, Loop(Timers));
            var wheel := s.core.out.wheel;
            if wheel.At? && wheel.time <= s.core.now
            then s'.core.out.wheel == Never && s'.threads[0] == Check(TimerExpired)
            else s'.core.out.wheel == wheel && s'.threads[0] == Ready
  {
  }

  /** Then a retry whose time has come gives way to exactly one flush on its way, as does ngtcp2's own
      deadline, and a later retry stays. */
  lemma DueRetryFlushes(s: State, expiry: Deadline)
    requires Reachable(s) && s.threads != [] && s.threads[0] == Ready && !s.core.stopped
    requires Executes(s.core, TimerExpired)
    ensures Enabled(s, Operate(ExecTimer(expiry)))
    ensures var s' := Apply(s, Operate(ExecTimer(expiry)));
            var retry := s.core.out.retry;
            var due := retry.At? && retry.time <= s.core.now;
            var protocolDue := s.core.conn && s.core.out.protocol.At? && s.core.out.protocol.time <= s.core.now;
            && s'.core.out.retry == (if due then Never else retry)
            && (due || protocolDue ==> Outstanding(s'.core, FlushSend, Total(HoldingOf(FlushSend), s'.threads)) == 1)
  {
    hide Total; hide Outstanding; hide InsideRun; hide FlagsMove; hide Streaming; hide Timed; hide Scheduled;
    ReachableInv(s);
    CoalescedStep(s, Operate(ExecTimer(expiry)), FlushSend);
  }

  /** Whatever gives ngtcp2 something to send (a started client, a send, a packet read, credit handed
      back, its own deadline) is owed to the wire, and only a flush that left ngtcp2 with nothing to
      send settles it. */
  lemma OwedUntilDry(s: State, step: Step)
    requires Enabled(s, step)
    ensures s.core.out.owed && !Apply(s, step).core.out.owed ==>
      step.Operate? && step.operate.ExecFlush? && step.operate.result.dry
    ensures step.Operate? && Owes(s.core, step.operate) ==> Apply(s, step).core.out.owed
  {
    match step {
      case Thread(_, _) =>
      case Loop(_) =>
      case Operate(o) =>
        OwedKept(s.core, o);
        OwedSet(s.core, o);
      case Tick(_) =>
    }
  }

  predicate Owes(s: Core, step: OperationStep) {
    match step
    case ExecStart(_) => s.role == Client
    case ExecSend => true
    case NextPacket(_) => true
    case ExecRelease => s.credit.releasable > 0 && s.conn && s.pipe.delivered != []
    case ExecTimer(_) => s.conn && s.out.protocol.At? && s.out.protocol.time <= s.now
    case ExecFlush(result, _) => s.conn && !result.dry
    case _ => false
  }

  lemma OwedKept(s: Core, step: OperationStep)
    requires OperationEnabled(s, step)
    ensures s.out.owed && !OperationOutcome(s, step).core.out.owed ==> step.ExecFlush? && step.result.dry
  {
    hide InsideRun; hide FlagsMove; hide KeepsReceived; hide KeepsInbox; hide KeepsSent;
  }

  lemma OwedSet(s: Core, step: OperationStep)
    requires OperationEnabled(s, step)
    ensures Owes(s, step) ==> OperationOutcome(s, step).core.out.owed
  {
    hide InsideRun; hide FlagsMove; hide KeepsReceived; hide KeepsInbox; hide KeepsSent;
    hide ReceiveOutcome; hide RecheckOutcome; hide DeliverOutcome; hide FinOutcome; hide StreamOutcome;
  }

  /** The end is reported: a receive() that finds nothing, and then the FIN, ends the stream with its
      second read if there is nothing left. */
  lemma EndIsReported(s: State, i: nat)
    requires i < |s.threads| && s.threads[i].CheckFin? && s.core.pipe.appFin && s.core.pipe.app == []
    ensures Enabled(s, Thread(i, LookFin))
    ensures var s1 := Apply(s, Thread(i, LookFin));
            Enabled(s1, Thread(i, Read)) && Apply(s1, Thread(i, Read)).core.pipe.endSeen
  {
  }

  /** And the second read is always the last word: it hands out all that is left, or ends the stream. */
  lemma SecondReadSettles(s: State, i: nat)
    requires Reachable(s) && i < |s.threads| && s.threads[i].ReadAgain?
    ensures Enabled(s, Thread(i, Read))
    ensures var s' := Apply(s, Thread(i, Read));
            && s'.core.pipe.finDelivered && s'.core.pipe.taken == s'.core.pipe.delivered
            && (if s.core.pipe.app == [] then s'.core.pipe.endSeen
                else s'.threads[i] == Counting(|s.core.pipe.app|))
  {
    ReachableInv(s);
    TotalUpdate(ReadingAgain, s.threads, i, Ready);
    var p := s.core.pipe;
    assert p.taken + p.app + [] == p.taken + p.app && p.taken + [] == p.taken;
  }

  /** A visible FIN is looked at again, never ignored. */
  lemma VisibleFinIsFollowed(s: State, i: nat)
    requires i < |s.threads| && s.threads[i].CheckFin?
    ensures Enabled(s, Thread(i, LookFin))
    ensures Apply(s, Thread(i, LookFin)).threads[i] == if s.core.pipe.appFin then ReadAgain else Ready
  {
  }

  /** When everything rests, the worker has accepted exactly the sends that the application asked for,
      each with its bytes and its FIN. */
  lemma SendsArrive(s: State)
    requires Reachable(s) && Quiescent(s) && !s.core.stopped
    ensures forall op: Operation :: op.APISend? ==> Count(s.core.tx.called, op) == Count(s.core.tx.sends, op)
    ensures s.core.tx.data == QueuedBytes(s.core.tx.sends)
    ensures s.core.tx.finRequested <==> HasFin(s.core.tx.sends)
  {
    hide QueuedBytes; hide Count; hide Total;
    ReachableInv(s);
    QuietSchedule(s);
    QuietStreams(s);
    forall op: Operation | op.APISend? ensures Count(s.core.tx.called, op) == Count(s.core.tx.sends, op) {
      TotalZero(CarryingOf(op), s.threads);
      assert CalledIn(s, op);
    }
  }

  /** The inbox takes every datagram that a receive buffer can hold, unless the connection is stopped. */
  lemma InboxTakesDatagrams(s: State, i: nat)
    requires i < |s.threads| && s.threads[i].Receiving?
    ensures Enabled(s, Thread(i, LockReceive))
    ensures var s' := Apply(s, Thread(i, LockReceive));
            var datagram := s.threads[i].datagram;
            var taken := !s.core.stopped && |datagram| <= BufferPool.UINT16_MAX;
            && s'.core.inbox.batch == s.core.inbox.batch + (if taken then [datagram] else [])
            && s'.core.inbox.arrived == s.core.inbox.arrived + (if taken then [datagram] else [])
            && (taken ==> s'.core.inbox.pending)
  {
  }
}
