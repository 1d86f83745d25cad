/** The byte streams through a running connection: the receive pipe and its credit, the datagrams
    waiting for the worker, and the offsets of the sent stream. */
module RuntimeStreams {
  import opened Counting
  import opened Datagrams
  import opened Runtime
  import opened RuntimeScheduling
  import opened Sequences

  // ---------------------------------------------------------------------------------------------
  // The receive pipe.

  function ReadingAgain(pc: Pc): nat {
    Bit(pc.ReadAgain?)
  }

  /** Taken, published and collected bytes are the delivered bytes, in order.  A visible FIN means
      that everything is published, so the second read of a receive() is the last word. */
  predicate Conserved(p: Pipe) {
    && p.taken + p.app + p.stream == p.delivered
    && (p.appFin ==> p.finDelivered && p.stream == [] && !p.finPending)
    && (p.finDelivered ==> p.appFin || p.finPending)
    && (p.finPending ==> p.finDelivered)
    && (p.endSeen ==> p.finDelivered && p.taken == p.delivered)
    && (p.stream != [] || p.finPending ==> p.streamPending)
  }

  predicate Piped(s: Core, again: nat) {
    Conserved(s.pipe) && (again > 0 ==> s.pipe.appFin)
  }

  lemma ReadConserved(s: Core, again: bool)
    requires Conserved(s.pipe) && (again ==> s.pipe.appFin)
    ensures var r := ReadOutcome(s, again);
            Conserved(r.core.pipe) && r.core.pipe.appFin == s.pipe.appFin && !r.pc.ReadAgain?
  {
    var p := s.pipe;
    assert (p.taken + p.app) + [] + p.stream == p.taken + p.app + p.stream;
    if again && p.app == [] {
      assert p.taken + [] + [] == p.taken;
    }
  }

  lemma PipedThread(s: Core, pc: Pc, worker: bool, step: ThreadStep, others: nat)
    requires Piped(s, others + ReadingAgain(pc)) && ThreadEnabled(s, pc, worker, step)
    ensures var r := ThreadOutcome(s, pc, worker, step); Piped(r.core, others + ReadingAgain(r.pc))
  {
    hide ReadOutcome;
    if step.Read? {
      ReadConserved(s, pc.ReadAgain?);
    }
  }

  lemma PipedLoop(s: Core, step: LoopStep, others: nat)
    requires Piped(s, others) && LoopEnabled(s, step)
    ensures var r := LoopOutcome(s, step); Piped(r.core, others + ReadingAgain(r.pc))
  {
    hide LoopOutcome;
  }

  lemma PipedOperation(s: Core, step: OperationStep, others: nat)
    requires Piped(s, others) && OperationEnabled(s, step)
    ensures var r := OperationOutcome(s, step); Piped(r.core, others + ReadingAgain(r.pc))
  {
    hide StartOutcome; hide SendOutcome; hide RecheckOutcome; hide FlushOutcome; hide TimerOutcome;
    hide ReceiveOutcome; hide PacketOutcome;
    var p := s.pipe;
    if step.Deliver? {
      assert p.taken + p.app + (p.stream + step.data) == (p.taken + p.app + p.stream) + step.data;
    } else if step.ExecStream? {
      assert p.taken + (p.app + p.stream) + [] == p.taken + p.app + p.stream;
    }
  }

  // ---------------------------------------------------------------------------------------------
  // Credit.

  function CountedBy(pc: Pc): nat {
    if pc.Counting? then pc.bytes else 0
  }

  /** Every byte taken is credit: extended, waiting to be extended, or about to be counted; and what
      was delivered stays inside the window the extended credit allows. */
  predicate Funded(s: Core, counting: nat) {
    && (!s.stopped ==> s.credit.extended + s.credit.releasable + counting == |s.pipe.taken|)
    && |s.pipe.delivered| <= INITIAL_MAX_STREAM_DATA + s.credit.extended
    && (!s.stopped && !s.conn ==> s.pipe.delivered == [])
  }

  lemma FundedThread(s: Core, pc: Pc, worker: bool, step: ThreadStep, others: nat)
    requires Funded(s, others + CountedBy(pc)) && ThreadEnabled(s, pc, worker, step)
    ensures var r := ThreadOutcome(s, pc, worker, step); Funded(r.core, others + CountedBy(r.pc))
  {
  }

  lemma FundedLoop(s: Core, step: LoopStep, others: nat)
    requires Funded(s, others) && LoopEnabled(s, step)
    ensures var r := LoopOutcome(s, step); Funded(r.core, others + CountedBy(r.pc))
  {
    hide LoopOutcome;
  }

  lemma FundedOperation(s: Core, step: OperationStep, others: nat)
    requires Funded(s, others) && Conserved(s.pipe) && OperationEnabled(s, step)
    ensures var r := OperationOutcome(s, step); Funded(r.core, others + CountedBy(r.pc))
  {
    hide StartOutcome; hide SendOutcome; hide RecheckOutcome; hide FlushOutcome; hide TimerOutcome;
    hide ReceiveOutcome; hide PacketOutcome;
  }

  /** So the memory behind the reader is bounded by the initial window on every run. */
  lemma WindowBound(s: Core, counting: nat)
    requires Conserved(s.pipe) && Funded(s, counting) && !s.stopped
    ensures |s.pipe.app| + |s.pipe.stream| <= INITIAL_MAX_STREAM_DATA
  {
    assert |s.pipe.delivered| == |s.pipe.taken| + |s.pipe.app| + |s.pipe.stream|;
  }

  // ---------------------------------------------------------------------------------------------
  // Datagrams from the agent.

  function Feed(worker: WorkerPc): seq<Datagram> {
    if worker.Feeding? then worker.packets else []
  }

  /** Accepted datagrams are fed to ngtcp2 in order, once; none waits without a flush. */
  predicate Fed(s: Core) {
    && (s.inbox.batch != [] ==> s.inbox.pending)
    && (!s.stopped ==> s.inbox.arrived == s.inbox.fed + Feed(s.worker) + s.inbox.batch)
  }

  lemma FedThread(s: Core, pc: Pc, worker: bool, step: ThreadStep)
    requires Fed(s) && ThreadEnabled(s, pc, worker, step)
    ensures Fed(ThreadOutcome(s, pc, worker, step).core)
  {
  }

  lemma FedLoop(s: Core, step: LoopStep)
    requires Fed(s) && LoopEnabled(s, step)
    ensures Fed(LoopOutcome(s, step).core)
  {
  }

  lemma FedOperation(s: Core, step: OperationStep)
    requires Fed(s) && OperationEnabled(s, step)
    ensures Fed(OperationOutcome(s, step).core)
  {
    hide StartOutcome; hide SendOutcome; hide FlushOutcome; hide TimerOutcome; hide ReleaseOutcome; hide StreamOutcome;
  }

  // ---------------------------------------------------------------------------------------------
  // The sent stream.

  /** The bytes of an operation, if it is a send. */
  function Payload(op: Operation): seq<byte> {
    if op.APISend? then op.data else []
  }

  ghost function QueuedBytes(queue: seq<Operation>): seq<byte> {
    if queue == [] then [] else Payload(queue[0]) + QueuedBytes(queue[1..])
  }

  lemma {:induction false} QueuedBytesPush(queue: seq<Operation>, op: Operation)
    ensures QueuedBytes(queue + [op]) == QueuedBytes(queue) + Payload(op)
  {
    if queue == [] {
      assert queue + [op] == [op];
    } else {
      assert (queue + [op])[1..] == queue[1..] + [op];
      QueuedBytesPush(queue[1..], op);
    }
  }

  lemma QueuedBytesPop(queue: seq<Operation>)
    requires queue != []
    ensures QueuedBytes(queue) == Payload(queue[0]) + QueuedBytes(queue[1..])
  {
  }

  function Popped(worker: WorkerPc): seq<byte> {
    if worker.Exec? then Payload(worker.op) else []
  }

  /** Bytes counted in applicationWriteOffset_ and not in the queue yet. */
  function InFlight(pc: Pc): nat {
    match pc
    case WritingFin(data, _) => |data|
    case Check(op) => |Payload(op)|
    case Push(op) => |Payload(op)|
    case _ => 0
  }

  /** Every queued byte is accepted, being executed or still queued, in order; and the application's
      counter covers them and the sends on their way. */
  ghost predicate Carried(s: Core, inFlight: nat) {
    !s.stopped ==>
      && s.tx.data + Popped(s.worker) + QueuedBytes(s.sched.queue) == s.tx.pushed
      && |s.tx.pushed| + inFlight == s.tx.writeOffset
  }

  lemma CarriedThread(s: Core, pc: Pc, worker: bool, step: ThreadStep, others: nat)
    requires Carried(s, others + InFlight(pc)) && ThreadEnabled(s, pc, worker, step)
    ensures var r := ThreadOutcome(s, pc, worker, step); Carried(r.core, others + InFlight(r.pc))
  {
    hide QueuedBytes; hide ReadOutcome;
    if step.DoPush? {
      QueuedBytesPush(s.sched.queue, pc.op);
      Regroup(s.tx.data + Popped(s.worker), QueuedBytes(s.sched.queue), Payload(pc.op));
    }
  }

  lemma CarriedLoop(s: Core, step: LoopStep, others: nat)
    requires Carried(s, others) && Halted(s) && LoopEnabled(s, step)
    ensures var r := LoopOutcome(s, step); Carried(r.core, others + InFlight(r.pc))
  {
    hide QueuedBytes;
    if step.PopOperation? && s.sched.queue != [] {
      QueuedBytesPop(s.sched.queue);
      Regroup(s.tx.data, Payload(s.sched.queue[0]), QueuedBytes(s.sched.queue[1..]));
    }
  }

  lemma CarriedOperation(s: Core, step: OperationStep, others: nat)
    requires Carried(s, others) && OperationEnabled(s, step)
    ensures var r := OperationOutcome(s, step); Carried(r.core, others + InFlight(r.pc))
  {
    hide QueuedBytes;
    hide ReceiveOutcome; hide RecheckOutcome; hide DeliverOutcome; hide FinOutcome; hide StreamOutcome;
    hide PacketOutcome; hide TimerOutcome; hide ReleaseOutcome;
    if step.ExecSend? {
      var data := s.tx.data + s.worker.op.data;
      assert data + [] == data;
    }
  }

  // ---------------------------------------------------------------------------------------------
  // The sends themselves.

  /** Between createSendOperation and the queue with this send. */
  function Carrying(pc: Pc, op: Operation): nat {
    match pc
    case Writing(data, fin) => Bit(op == APISend(data, fin))
    case WritingFin(data, fin) => Bit(op == APISend(data, fin))
    case Check(o) => Bit(op == o)
    case Push(o) => Bit(op == o)
    case _ => 0
  }

  function CarryingOf(op: Operation): Pc -> nat {
    pc => Carrying(pc, op)
  }

  /** Every send that the application asked for, with its bytes and its FIN, is in the queue's history
      or on its way into the queue, and nothing else is. */
  ghost predicate Called(s: Core, op: Operation, carrying: nat)
  {
    op.APISend? && !s.stopped ==> Count(s.tx.called, op) == Count(s.tx.sends, op) + carrying
  }

  lemma CalledThread(s: Core, pc: Pc, worker: bool, step: ThreadStep, op: Operation, others: nat)
    requires Called(s, op, others + Carrying(pc, op)) && ThreadEnabled(s, pc, worker, step)
    ensures var r := ThreadOutcome(s, pc, worker, step); Called(r.core, op, others + Carrying(r.pc, op))
  {
    hide Count; hide ReadOutcome;
    if step.DoPush? {
      CountPush(s.tx.sends, pc.op, op);
    } else if step.CallSend? {
      CountPush(s.tx.called, APISend(step.data, step.fin), op);
    }
  }

  lemma CalledLoop(s: Core, step: LoopStep, op: Operation, others: nat)
    requires Called(s, op, others) && LoopEnabled(s, step)
    ensures var r := LoopOutcome(s, step); Called(r.core, op, others + Carrying(r.pc, op))
  {
    hide LoopOutcome; hide Count;
  }

  lemma CalledOperation(s: Core, step: OperationStep, op: Operation, others: nat)
    requires Called(s, op, others) && OperationEnabled(s, step)
    ensures var r := OperationOutcome(s, step); Called(r.core, op, others + Carrying(r.pc, op))
  {
    hide Count; hide FlagsMove;
    hide ReceiveOutcome; hide RecheckOutcome; hide DeliverOutcome; hide FinOutcome; hide StreamOutcome;
    hide PacketOutcome; hide TimerOutcome; hide ReleaseOutcome;
  }

  predicate HasFin(ops: seq<Operation>) {
    exists k :: 0 <= k < |ops| && ops[k].APISend? && ops[k].fin
  }

  lemma HasFinPush(ops: seq<Operation>, op: Operation)
    ensures HasFin(ops + [op]) <==> HasFin(ops) || (op.APISend? && op.fin)
  {
    var all := ops + [op];
    if HasFin(ops) {
      var k :| 0 <= k < |ops| && ops[k].APISend? && ops[k].fin;
      assert all[k] == ops[k];
    }
    assert all[|ops|] == op;
    if HasFin(all) {
      var k :| 0 <= k < |all| && all[k].APISend? && all[k].fin;
      assert k < |ops| ==> ops[k] == all[k];
    }
  }

  lemma HasFinPop(ops: seq<Operation>)
    requires ops != []
    ensures HasFin(ops) <==> (ops[0].APISend? && ops[0].fin) || HasFin(ops[1..])
  {
    if HasFin(ops) {
      var k :| 0 <= k < |ops| && ops[k].APISend? && ops[k].fin;
      assert k > 0 ==> ops[1..][k - 1] == ops[k];
    }
    if HasFin(ops[1..]) {
      var k :| 0 <= k < |ops[1..]| && ops[1..][k].APISend? && ops[1..][k].fin;
      assert ops[k + 1] == ops[1..][k];
    }
  }

  /** The queued bytes are those of the queued sends, and a FIN among them is accepted, being executed
      or still queued. */
  ghost predicate Faithful(s: Core) {
    && s.tx.pushed == QueuedBytes(s.tx.sends)
    && (!s.stopped ==>
         (HasFin(s.tx.sends) <==>
            s.tx.finRequested || HasFin(s.sched.queue) || (s.worker.Exec? && s.worker.op.APISend? && s.worker.op.fin)))
  }

  lemma FaithfulThread(s: Core, pc: Pc, worker: bool, step: ThreadStep)
    requires Faithful(s) && ThreadEnabled(s, pc, worker, step)
    ensures Faithful(ThreadOutcome(s, pc, worker, step).core)
  {
    hide QueuedBytes; hide HasFin; hide ReadOutcome;
    if step.DoPush? {
      QueuedBytesPush(s.tx.sends, pc.op);
      HasFinPush(s.tx.sends, pc.op);
      HasFinPush(s.sched.queue, pc.op);
    }
  }

  lemma FaithfulLoop(s: Core, step: LoopStep)
    requires Faithful(s) && Halted(s) && LoopEnabled(s, step)
    ensures Faithful(LoopOutcome(s, step).core)
  {
    hide QueuedBytes; hide HasFin;
    if step.PopOperation? && s.sched.queue != [] {
      HasFinPop(s.sched.queue);
    }
  }

  lemma FaithfulOperation(s: Core, step: OperationStep)
    requires Faithful(s) && OperationEnabled(s, step)
    ensures Faithful(OperationOutcome(s, step).core)
  {
    hide QueuedBytes; hide HasFin; hide FlagsMove;
    hide ReceiveOutcome; hide RecheckOutcome; hide DeliverOutcome; hide FinOutcome; hide StreamOutcome;
    hide PacketOutcome; hide TimerOutcome; hide ReleaseOutcome;
  }

  /** The offset chain.  `finSubmitted` means that everything was submitted and nothing can follow. */
  predicate Chained(s: Core) {
    !s.stopped ==>
      && s.tx.published.acked <= s.tx.progress.acked <= s.tx.progress.submitted <= |s.tx.data|
      && s.tx.published.submitted <= s.tx.progress.submitted
      && (s.tx.published.finSubmitted ==> s.tx.progress.finSubmitted)
      && (s.tx.published.finAcked ==> s.tx.progress.finAcked)
      && (s.tx.progress.finAcked ==> s.tx.progress.finSubmitted)
      && (s.tx.progress.finSubmitted ==> s.tx.finRequested && s.tx.progress.submitted == |s.tx.data|)
      && (!s.conn ==> s.tx.progress == NOTHING_SENT)
  }

  /** Between runs the published offsets are those of the connection, and zero without one. */
  predicate Settled(s: Core) {
    Published(s.worker) ==> s.tx.published == if s.conn then s.tx.progress else NOTHING_SENT
  }

  /** After the publication at the end of a run. */
  predicate Published(worker: WorkerPc) {
    worker.UpdateWheel? || worker.StoreIdle? || !Processes(worker)
  }

  /** Published progress never goes back. */
  predicate Grows(before: Offsets, after: Offsets) {
    && before.submitted <= after.submitted && before.acked <= after.acked
    && (before.finSubmitted ==> after.finSubmitted) && (before.finAcked ==> after.finAcked)
  }

  /** What is published was the connection's progress once, before or after a stop. */
  predicate Behind(s: Core) {
    Grows(s.tx.published, s.tx.progress)
  }

  lemma BehindThread(s: Core, pc: Pc, worker: bool, step: ThreadStep)
    requires Behind(s) && ThreadEnabled(s, pc, worker, step)
    ensures Behind(ThreadOutcome(s, pc, worker, step).core)
  {
    hide ReadOutcome;
  }

  lemma BehindLoop(s: Core, step: LoopStep)
    requires Behind(s) && LoopEnabled(s, step)
    ensures Behind(LoopOutcome(s, step).core)
  {
    hide WheelOutcome; hide TimersOutcome;
  }

  lemma BehindOperation(s: Core, step: OperationStep)
    requires Behind(s) && OperationEnabled(s, step)
    ensures Behind(OperationOutcome(s, step).core)
  {
    hide ReceiveOutcome; hide RecheckOutcome; hide DeliverOutcome; hide FinOutcome; hide StreamOutcome;
    hide PacketOutcome; hide TimerOutcome; hide ReleaseOutcome;
  }

  lemma ChainedThread(s: Core, pc: Pc, worker: bool, step: ThreadStep)
    requires Chained(s) && ThreadEnabled(s, pc, worker, step)
    ensures var r := ThreadOutcome(s, pc, worker, step); Chained(r.core) && r.core.tx.published == s.tx.published
    ensures Settled(s) ==> Settled(ThreadOutcome(s, pc, worker, step).core)
  {
  }

  lemma ChainedLoop(s: Core, step: LoopStep)
    requires Chained(s) && LoopEnabled(s, step)
    ensures var r := LoopOutcome(s, step).core;
            Chained(r) && (!r.stopped ==> Grows(s.tx.published, r.tx.published))
    ensures Settled(s) ==> Settled(LoopOutcome(s, step).core)
  {
    hide WheelOutcome; hide TimersOutcome;
  }

  lemma ChainedOperation(s: Core, step: OperationStep)
    requires Chained(s) && OperationEnabled(s, step)
    ensures var r := OperationOutcome(s, step).core;
            Chained(r) && Settled(r) && (!r.stopped ==> Grows(s.tx.published, r.tx.published))
  {
    hide ReceiveOutcome; hide RecheckOutcome; hide DeliverOutcome; hide FinOutcome; hide StreamOutcome;
    hide PacketOutcome; hide TimerOutcome; hide ReleaseOutcome;
  }
}
