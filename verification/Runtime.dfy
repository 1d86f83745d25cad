/** One connection while its worker, its application threads and its datagram producers run
    concurrently.  A step is one section under a mutex, one atomic load or update, or one stretch of
    code that touches only what the worker owns.  Thread 0 is the worker inside queueOperation; the
    worker's own position is `worker`, and it moves on only when thread 0 is Ready again. */
module Runtime {
  import opened Clock
  import opened Datagrams

  const OPERATION_BUDGET: nat := 64
  const MAX_DATAGRAM: nat := 0xFFFF
  const INITIAL_MAX_STREAM_DATA: nat := 16 * 1024 * 1024

  datatype Role = Client | Server

  datatype ScheduleState = Idle | Queued | Processing

  datatype Operation =
    | APIStart
    | APISend(data: seq<byte>, fin: bool)
    | FlushRecv
    | FlushStreamRecv
    | FlushSend
    | TimerExpired
    | Shutdown
    | ReleaseStreamRecvCredit

  /** The worker's run queue is shared by the connections it owns. */
  datatype Entry = Mine | Other

  datatype Pc =
    | Ready
    // queueOperation
    | Check(op: Operation)
    | Push(op: Operation)
    | Cas
    | Enqueue
    | Signal
    | EnqueueOther
    // createSendOperation
    | Writing(data: seq<byte>, fin: bool)
    | WritingFin(data: seq<byte>, fin: bool)
    // takeReceivedStreamData and _readPublishedData
    | Counting(bytes: nat)
    | CheckFin
    | ReadAgain
    // queueReceive
    | Receiving(datagram: Datagram)

  /** Where the worker is: in `run`, or at operation number n of a `processOperations`. */
  datatype WorkerPc =
    | Top
    | PopRun
    | Begin
    | Next(n: nat)
    | Exec(op: Operation, n: nat)
    | Feeding(packets: seq<Datagram>, n: nat)
    | Recheck(n: nat)
    | PublishSend(n: nat)
    | StopNow(n: nat)
    | After(n: nat)
    | Draining
    | PublishEnd
    | UpdateWheel
    | StoreIdle
    | RecheckEmpty
    | Sleep

  datatype Sched = Sched(state: ScheduleState, queue: seq<Operation>, runQueue: seq<Entry>, ready: bool)

  /** receiveBatch_ and receiveOperationPending_ under receiveMutex_, with the datagrams that were
      accepted and those that were fed to ngtcp2 so far. */
  datatype Inbox = Inbox(batch: seq<Datagram>, pending: bool, arrived: seq<Datagram>, fed: seq<Datagram>)

  /** The received stream on its way to the application, with its history: what ngtcp2 delivered,
      what the application took, and whether a receive() reported the end of the stream. */
  datatype Pipe = Pipe(stream: seq<byte>, streamPending: bool, finPending: bool,
                       app: seq<byte>, appFin: bool,
                       delivered: seq<byte>, finDelivered: bool, taken: seq<byte>, endSeen: bool)

  /** releasableStreamReceiveBytes_ and the credit handed back to ngtcp2 so far. */
  datatype Credit = Credit(releasable: nat, extended: nat)

  datatype Offsets = Offsets(submitted: nat, acked: nat, finSubmitted: bool, finAcked: bool)

  /** The sent stream: the application's counter, the bytes the worker accepted, their progress,
      what is published to the application, and the history: the sends that the application asked
      for, and those that were put into the queue with their bytes. */
  datatype Tx = Tx(writeOffset: nat, data: seq<byte>, finRequested: bool,
                   progress: Offsets, published: Offsets,
                   called: seq<Operation>, sends: seq<Operation>, pushed: seq<byte>)

  /** sendOperationPending_, the bytes waiting for a retry, and the deadlines.  `owed` records that
      ngtcp2 was given something to send and no flush has run it dry since. */
  datatype Out = Out(sendPending: bool, pending: nat, retry: Deadline, protocol: Deadline, wheel: Deadline, owed: bool)

  /** Everything but the positions of the threads. */
  datatype Core = Core(role: Role, started: bool, stopped: bool, conn: bool, now: nat,
                       worker: WorkerPc, sched: Sched, inbox: Inbox, pipe: Pipe, credit: Credit,
                       tx: Tx, out: Out)

  datatype State = State(core: Core, threads: seq<Pc>)

  /** The outcome of a step: the new core, and where the stepping thread is now. */
  datatype Outcome = Outcome(core: Core, pc: Pc)

  const NOTHING_SENT := Offsets(0, 0, false, false)

  predicate Init(s: State) {
    && InitCore(s.core)
    && |s.threads| > 0 && forall i :: 0 <= i < |s.threads| ==> s.threads[i] == Ready
  }

  predicate InitCore(s: Core) {
    && !s.started && !s.stopped && !s.conn && s.worker == Top
    && s.sched == Sched(Idle, [], [], false) && s.inbox == Inbox([], false, [], [])
    && s.pipe == Pipe([], false, false, [], false, [], false, [], false) && s.credit == Credit(0, 0)
    && s.tx == Tx(0, [], false, NOTHING_SENT, NOTHING_SENT, [], [], [])
    && s.out == Out(false, 0, Never, Never, Never, false)
  }

  /** getNextExpiry of a connection that is not stopped. */
  function NextExpiry(s: Core): Deadline {
    Earlier(if s.conn then s.out.protocol else Never, s.out.retry)
  }

  // ---------------------------------------------------------------------------------------------
  // Steps of any thread: the calls of the application, the datagram producers and queueOperation.

  datatype ThreadStep =
    | CallStart
    | CallClose
    | CallOther
    | CallSend(data: seq<byte>, fin: bool)
    | AddOffset
    | StoreFin
    | Read
    | CountCredit
    | LookFin
    | CallReceive(datagram: Datagram)
    | LockReceive
    | DoCheck
    | DoPush
    | DoCas
    | DoEnqueue
    | DoSignal

  /** `worker` tells thread 0 from the others. */
  predicate ThreadEnabled(s: Core, pc: Pc, worker: bool, step: ThreadStep) {
    match step
    case CallStart => !worker && pc.Ready? && !s.started
    case CallClose => !worker && pc.Ready? && !s.stopped
    case CallOther => !worker && pc.Ready?
    case CallSend(_, _) => !worker && pc.Ready? && s.started && !s.stopped
    case AddOffset => pc.Writing?
    case StoreFin => pc.WritingFin?
    case Read => (!worker && pc.Ready?) || pc.ReadAgain?
    case CountCredit => pc.Counting?
    case LookFin => pc.CheckFin?
    case CallReceive(datagram) => !worker && pc.Ready? && !s.stopped && datagram != []
    case LockReceive => pc.Receiving?
    case DoCheck => pc.Check?
    case DoPush => pc.Push?
    case DoCas => pc.Cas?
    case DoEnqueue => pc.Enqueue? || pc.EnqueueOther?
    case DoSignal => pc.Signal?
  }

  function ThreadOutcome(s: Core, pc: Pc, worker: bool, step: ThreadStep): Outcome
    requires ThreadEnabled(s, pc, worker, step)
  {
    match step
    case CallStart => Outcome(s, Check(APIStart))
    case CallClose => Outcome(s, Check(Shutdown))
    case CallOther => Outcome(s, EnqueueOther)
    case CallSend(data, fin) =>
      Outcome(s.(tx := s.tx.(called := s.tx.called + [APISend(data, fin)])), Writing(data, fin))
    case AddOffset =>
      Outcome(s.(tx := s.tx.(writeOffset := s.tx.writeOffset + |pc.data|)), WritingFin(pc.data, pc.fin))
    case StoreFin => Outcome(s, Check(APISend(pc.data, pc.fin)))
    case Read => ReadOutcome(s, pc.ReadAgain?)
    case CountCredit =>
      Outcome(s.(credit := s.credit.(releasable := s.credit.releasable + pc.bytes)),
              if s.credit.releasable == 0 && pc.bytes > 0 then Check(ReleaseStreamRecvCredit) else Ready)
    case LookFin => Outcome(s, if s.pipe.appFin then ReadAgain else Ready)
    case CallReceive(datagram) => Outcome(s, Receiving(datagram))
    case LockReceive =>
      // A datagram that no buffer can hold makes append throw before anything changes.
      if s.stopped || |pc.datagram| > MAX_DATAGRAM then Outcome(s, Ready)
      else Outcome(s.(inbox := Inbox(s.inbox.batch + [pc.datagram], true,
                                     s.inbox.arrived + [pc.datagram], s.inbox.fed)),
                   if s.inbox.pending then Ready else Check(FlushRecv))
    case DoCheck => Outcome(s, if s.stopped && pc.op != Shutdown then Ready else Push(pc.op))
    case DoPush =>
      Outcome(s.(sched := s.sched.(queue := s.sched.queue + [pc.op]),
                 tx := if pc.op.APISend? then PushedSend(s.tx, pc.op) else s.tx),
              Cas)
    case DoCas =>
      if s.sched.state == Idle then Outcome(s.(sched := s.sched.(state := Queued)), Enqueue)
      else Outcome(s, Ready)
    case DoEnqueue =>
      Outcome(s.(sched := s.sched.(runQueue := s.sched.runQueue + [if pc.Enqueue? then Mine else Other])), Signal)
    case DoSignal => Outcome(s.(sched := s.sched.(ready := true)), Ready)
  }

  function PushedSend(tx: Tx, op: Operation): Tx
    requires op.APISend?
  {
    tx.(sends := tx.sends + [op], pushed := tx.pushed + op.data)
  }

  /** One read of what is published; the second of a receive() that saw the FIN ends the stream when
      it finds nothing. */
  function ReadOutcome(s: Core, again: bool): (r: Outcome)
    ensures r.core == s.(pipe := r.core.pipe) && r.core.pipe.streamPending == s.pipe.streamPending
    ensures r.pc.Counting? || r.pc.Ready? || r.pc.CheckFin?
  {
    if s.pipe.app != [] then
      Outcome(s.(pipe := s.pipe.(taken := s.pipe.taken + s.pipe.app, app := [])), Counting(|s.pipe.app|))
    else if again then Outcome(s.(pipe := s.pipe.(endSeen := true)), Ready)
    else Outcome(s, CheckFin)
  }

  predicate OpensConnection(role: Role, op: Operation) {
    op == if role == Client then APIStart else FlushRecv
  }

  // ---------------------------------------------------------------------------------------------
  // Steps of the worker's loop: the timer wheel, the run queue, popping and draining operations.
  // Stop and Fail end the connection; PublishAfterSend ends an APISend.

  datatype LoopStep =
    | Timers
    | PopConnection
    | BeginProcessing
    | PopOperation
    | PublishAfterSend
    | Stop
    | Fail
    | Continue
    | DrainOne
    | PublishState
    | SetWheel
    | FinishProcessing
    | RecheckQueue
    | Wake

  predicate MayFail(op: Operation) {
    !op.Shutdown? && !op.FlushRecv? && !op.FlushStreamRecv?
  }

  predicate LoopEnabled(s: Core, step: LoopStep) {
    var pc := s.worker;
    match step
    case Timers => pc.Top?
    case PopConnection => pc.PopRun?
    case BeginProcessing => pc.Begin?
    case PopOperation => pc.Next?
    case PublishAfterSend => pc.PublishSend?
    case Stop => pc.StopNow?
    case Fail => pc.Feeding? || (pc.Exec? && MayFail(pc.op))
    case Continue => pc.After?
    case DrainOne => pc.Draining?
    case PublishState => pc.PublishEnd?
    case SetWheel => pc.UpdateWheel?
    case FinishProcessing => pc.StoreIdle?
    case RecheckQueue => pc.RecheckEmpty?
    case Wake => pc.Sleep?
  }

  function Stay(s: Core): Outcome {
    Outcome(s, Ready)
  }

  /** publishApplicationState. */
  function Publish(s: Core): Core {
    s.(tx := s.tx.(published := if s.conn then s.tx.progress else NOTHING_SENT))
  }

  /** What no step of the loop touches. */
  predicate OutsideRun(s: Core, r: Outcome) {
    && r.core.pipe == s.pipe && r.core.inbox == s.inbox && r.core.credit == s.credit
    && r.core.role == s.role && r.core.started == s.started
    && (s.stopped ==> r.core.stopped) && r.core.out == s.out.(wheel := r.core.out.wheel)
    && r.core.tx == s.tx.(published := r.core.tx.published)
    && (!r.core.stopped ==> r.core.conn == s.conn)
    && (r.pc.Ready? || r.pc == Check(TimerExpired) || r.pc.Cas?)
  }

  function Goto(s: Core, worker: WorkerPc, sched: Sched): (r: Outcome)
    ensures OutsideRun(s, r)
  {
    Stay(s.(worker := worker, sched := sched))
  }

  function GotoPublished(s: Core, worker: WorkerPc): (r: Outcome)
    ensures OutsideRun(s, r)
    ensures r.core.worker == worker && r.core.sched == s.sched && r.core.stopped == s.stopped && r.pc.Ready?
  {
    Stay(Publish(s).(worker := worker))
  }

  function Halt(s: Core, worker: WorkerPc): (r: Outcome)
    ensures OutsideRun(s, r)
    ensures r.core.worker == worker && r.core.sched == s.sched && r.core.stopped && r.pc.Ready?
  {
    Stay(s.(worker := worker, conn := false, stopped := true))
  }

  function TimersOutcome(s: Core): (r: Outcome)
    ensures OutsideRun(s, r)
    ensures r.core.worker == PopRun && r.core.sched == s.sched && r.core.stopped == s.stopped && (r.pc.Ready? || r.pc.Check?)
    ensures r.core.tx == s.tx && r.core.conn == s.conn
  {
    if !s.out.wheel.Due(s.now) then Goto(s, PopRun, s.sched)
    else Outcome(s.(worker := PopRun, out := s.out.(wheel := Never)),
                 if s.stopped then Ready else Check(TimerExpired))
  }

  function WheelOutcome(s: Core): (r: Outcome)
    ensures OutsideRun(s, r)
    ensures r.core.worker == StoreIdle && r.core.sched == s.sched && r.core.stopped == s.stopped && r.pc.Ready?
    ensures r.core.tx == s.tx && r.core.conn == s.conn
  {
    Stay(s.(worker := StoreIdle, out := s.out.(wheel := if s.stopped then Never else NextExpiry(s))))
  }

  /** The worker is outside queueOperation when it takes a step. */
  function LoopOutcome(s: Core, step: LoopStep): (r: Outcome)
    requires LoopEnabled(s, step)
    ensures OutsideRun(s, r)
  {
    var pc := s.worker;
    match step
    case Timers => TimersOutcome(s)
    case PopConnection =>
      if s.sched.runQueue == [] then Goto(s, Sleep, s.sched)
      else Goto(s, if s.sched.runQueue[0] == Mine then Begin else Top, s.sched.(runQueue := s.sched.runQueue[1..]))
    case BeginProcessing => Goto(s, Next(0), s.sched.(state := Processing))
    case PopOperation =>
      if pc.n < OPERATION_BUDGET && s.sched.queue != []
      then Goto(s, Exec(s.sched.queue[0], pc.n), s.sched.(queue := s.sched.queue[1..]))
      else Goto(s, PublishEnd, s.sched)
    case PublishAfterSend => GotoPublished(s, After(pc.n))
    case Stop => Halt(s, After(pc.n))
    case Fail => Halt(s, Draining)
    case Continue => Goto(s, if s.stopped then Draining else Next(pc.n + 1), s.sched)
    case DrainOne =>
      if s.sched.queue == [] then Goto(s, PublishEnd, s.sched)
      else Goto(s, Draining, s.sched.(queue := s.sched.queue[1..]))
    case PublishState => GotoPublished(s, UpdateWheel)
    case SetWheel => WheelOutcome(s)
    case FinishProcessing => Goto(s, RecheckEmpty, s.sched.(state := Idle))
    case RecheckQueue =>
      if s.sched.queue == [] then Goto(s, Top, s.sched) else Goto(s, Top, s.sched).(pc := Cas)
    case Wake => Goto(s, Top, s.sched.(ready := false))
  }

  // ---------------------------------------------------------------------------------------------
  // Steps inside one operation.  What ngtcp2 does is a parameter of the step, bound by its contract.

  /** What a flush of packets did: how far the stream was submitted, what the transport refused, and
      whether the packet budget ran out or ngtcp2 had nothing more to send.  Refused bytes always
      come with a retry deadline. */
  datatype FlushResult = FlushResult(submitted: nat, fin: bool, pending: nat, retry: Deadline,
                                     exhausted: bool, dry: bool)

  predicate Honest(s: Core, result: FlushResult) {
    && s.tx.progress.submitted <= result.submitted <= |s.tx.data|
    && (s.tx.progress.finSubmitted ==> result.fin)
    && (result.fin ==> s.tx.progress.finSubmitted || (s.tx.finRequested && result.submitted == |s.tx.data|))
    && (result.pending > 0 <==> result.retry.At?)
    && (result.exhausted ==> result.pending == 0)
    && (result.exhausted || result.pending > 0 || result.dry)
  }

  datatype OperationStep =
    | ExecStart(expiry: Deadline)
    | ExecSend
    | ExecReceive
    | OpenServer
    | Deliver(data: seq<byte>)
    | DeliverFin
    | Acknowledge(bytes: nat, fin: bool)
    | CloseStream
    | NextPacket(expiry: Deadline)
    | RecheckInbox
    | ExecStream
    | ExecFlush(result: FlushResult, expiry: Deadline)
    | ExecTimer(expiry: Deadline)
    | ExecRelease
    | ExecShutdown

  predicate OperationEnabled(s: Core, step: OperationStep) {
    var pc := s.worker;
    match step
    case ExecStart(_) => pc.Exec? && pc.op.APIStart? && !s.started
    case ExecSend => pc.Exec? && pc.op.APISend? && s.conn && !s.tx.finRequested
    case ExecReceive => pc.Exec? && pc.op.FlushRecv?
    case OpenServer => pc.Feeding? && !s.conn && s.role == Server
    case Deliver(data) =>
      && pc.Feeding? && s.conn && data != [] && !s.pipe.finDelivered
      && |s.pipe.delivered| + |data| <= INITIAL_MAX_STREAM_DATA + s.credit.extended
    case DeliverFin => pc.Feeding? && s.conn && !s.pipe.finDelivered
    case Acknowledge(bytes, fin) =>
      && pc.Feeding? && s.conn && s.tx.progress.acked + bytes <= s.tx.progress.submitted
      && (fin ==> s.tx.progress.finSubmitted)
    case CloseStream => pc.Feeding? && s.conn && s.tx.progress.finSubmitted
    case NextPacket(_) => pc.Feeding? && s.conn && pc.packets != []
    case RecheckInbox => pc.Recheck?
    case ExecStream => pc.Exec? && pc.op.FlushStreamRecv?
    case ExecFlush(result, _) => pc.Exec? && pc.op.FlushSend? && Honest(s, result)
    case ExecTimer(_) => pc.Exec? && pc.op.TimerExpired?
    case ExecRelease => pc.Exec? && pc.op.ReleaseStreamRecvCredit?
    case ExecShutdown => pc.Exec? && pc.op.Shutdown?
  }

  /** Between the store of Processing and the store of Idle. */
  predicate Processes(worker: WorkerPc) {
    match worker
    case Top => false
    case PopRun => false
    case Begin => false
    case RecheckEmpty => false
    case Sleep => false
    case _ => true
  }

  predicate MidOperation(worker: WorkerPc) {
    worker.Feeding? || worker.Recheck? || worker.PublishSend? || worker.StopNow? || worker.After?
  }

  /** What no step inside an operation touches. */
  predicate InsideRun(s: Core, r: Outcome) {
    && r.core.sched == s.sched && r.core.stopped == s.stopped && r.core.role == s.role
    && r.core.now == s.now && r.core.out.wheel == s.out.wheel
    && MidOperation(r.core.worker)
    && (r.pc.Ready? || (r.pc.Check? && (r.pc.op.FlushSend? || r.pc.op.FlushRecv? || r.pc.op.FlushStreamRecv?)))
  }

  predicate KeepsReceived(s: Core, r: Outcome) {
    r.core.pipe == s.pipe && r.core.credit == s.credit && (s.conn ==> r.core.conn)
  }

  predicate KeepsInbox(s: Core, r: Outcome) {
    r.core.inbox == s.inbox && !r.core.worker.Feeding?
  }

  predicate KeepsSent(s: Core, r: Outcome) {
    r.core.tx == s.tx && r.core.conn == s.conn
  }

  predicate Executes(s: Core, op: Operation) {
    s.worker.Exec? && s.worker.op == op
  }

  /** The flag of each coalesced operation is cleared by the operation itself, and set exactly when a
      new one is asked for; the credit counter plays the flag of ReleaseStreamRecvCredit. */
  predicate FlagsMove(s: Core, r: Outcome) {
    && FlagMoves(s.out.sendPending, r.core.out.sendPending, Executes(s, FlushSend), r.pc == Check(FlushSend))
    && FlagMoves(s.pipe.streamPending, r.core.pipe.streamPending, Executes(s, FlushStreamRecv),
                 r.pc == Check(FlushStreamRecv))
    && FlagMoves(s.inbox.pending, r.core.inbox.pending, Executes(s, FlushRecv), r.pc == Check(FlushRecv))
    && FlagMoves(s.credit.releasable > 0, r.core.credit.releasable > 0, Executes(s, ReleaseStreamRecvCredit),
                 r.pc == Check(ReleaseStreamRecvCredit))
  }

  predicate FlagMoves(before: bool, after: bool, cleared: bool, asked: bool) {
    var kept := before && !cleared;
    after == (kept || asked) && !(kept && asked)
  }

  function QueueSendFlush(s: Core): Outcome {
    if s.out.sendPending then Stay(s)
    else Outcome(s.(out := s.out.(sendPending := true)), Check(FlushSend))
  }

  function QueueStreamReceiveFlush(s: Core): Outcome {
    if s.pipe.streamPending then Stay(s)
    else Outcome(s.(pipe := s.pipe.(streamPending := true)), Check(FlushStreamRecv))
  }

  function OperationOutcome(s: Core, step: OperationStep): (r: Outcome)
    requires OperationEnabled(s, step)
    ensures Processes(s.worker) && InsideRun(s, r) && FlagsMove(s, r)
  {
    match step
    case ExecStart(expiry) => StartOutcome(s, expiry)
    case ExecSend => SendOutcome(s)
    case ExecReceive => ReceiveOutcome(s)
    case OpenServer => Stay(s.(conn := true))
    case Deliver(data) => DeliverOutcome(s, data)
    case DeliverFin => FinOutcome(s)
    case Acknowledge(bytes, fin) => Stay(AcknowledgeCore(s, bytes, fin))
    case CloseStream => Stay(AcknowledgeCore(s, 0, s.tx.finRequested))
    case NextPacket(expiry) => PacketOutcome(s, expiry)
    case RecheckInbox => RecheckOutcome(s)
    case ExecStream => StreamOutcome(s)
    case ExecFlush(result, expiry) => FlushOutcome(s, result, expiry)
    case ExecTimer(expiry) => TimerOutcome(s, expiry)
    case ExecRelease => ReleaseOutcome(s)
    case ExecShutdown => Stay(Publish(s).(worker := StopNow(s.worker.n)))
  }

  /** The start of processReceive: take the batch. */
  function ReceiveOutcome(s: Core): (r: Outcome)
    requires s.worker.Exec? && s.worker.op.FlushRecv?
    ensures InsideRun(s, r) && FlagsMove(s, r)
    ensures KeepsReceived(s, r) && KeepsSent(s, r)
  {
    Stay(s.(worker := if s.inbox.batch == [] then Recheck(s.worker.n) else Feeding(s.inbox.batch, s.worker.n),
            inbox := s.inbox.(batch := [], pending := false)))
  }

  /** The end of processReceive. */
  function RecheckOutcome(s: Core): (r: Outcome)
    requires s.worker.Recheck?
    ensures InsideRun(s, r) && FlagsMove(s, r)
    ensures KeepsReceived(s, r) && KeepsSent(s, r)
  {
    if s.inbox.batch != [] && !s.inbox.pending then
      Outcome(s.(worker := After(s.worker.n), inbox := s.inbox.(pending := true)), Check(FlushRecv))
    else Stay(s.(worker := After(s.worker.n)))
  }

  function DeliverOutcome(s: Core, data: seq<byte>): (r: Outcome)
    requires s.worker.Feeding?
    ensures InsideRun(s, r) && FlagsMove(s, r)
    ensures KeepsSent(s, r)
  {
    QueueStreamReceiveFlush(
      s.(pipe := s.pipe.(delivered := s.pipe.delivered + data, stream := s.pipe.stream + data)))
  }

  function FinOutcome(s: Core): (r: Outcome)
    requires s.worker.Feeding?
    ensures InsideRun(s, r) && FlagsMove(s, r)
    ensures KeepsSent(s, r)
  {
    QueueStreamReceiveFlush(s.(pipe := s.pipe.(finDelivered := true, finPending := true)))
  }

  /** processStreamReceive: what arrived, and the FIN with it, become visible together. */
  function StreamOutcome(s: Core): (r: Outcome)
    requires s.worker.Exec? && s.worker.op.FlushStreamRecv?
    ensures InsideRun(s, r) && FlagsMove(s, r)
    ensures KeepsInbox(s, r) && KeepsSent(s, r)
  {
    Stay(s.(worker := After(s.worker.n),
            pipe := s.pipe.(streamPending := false, stream := [], finPending := false,
                            app := s.pipe.app + s.pipe.stream, appFin := s.pipe.appFin || s.pipe.finPending)))
  }

  /** processStart. */
  function StartOutcome(s: Core, expiry: Deadline): (r: Outcome)
    requires s.worker.Exec? && s.worker.op.APIStart?
    ensures InsideRun(s, r) && FlagsMove(s, r)
    ensures KeepsReceived(s, r) && KeepsInbox(s, r)
  {
    var begun := s.(worker := After(s.worker.n), started := true);
    if s.role == Server then Stay(begun)
    else QueueSendFlush(begun.(conn := true, out := s.out.(protocol := expiry, owed := true)))
  }

  /** processSend, up to the publication at its end. */
  function SendOutcome(s: Core): (r: Outcome)
    requires s.worker.Exec? && s.worker.op.APISend?
    ensures InsideRun(s, r) && FlagsMove(s, r)
    ensures KeepsReceived(s, r) && KeepsInbox(s, r)
  {
    QueueSendFlush(s.(worker := PublishSend(s.worker.n), out := s.out.(owed := true),
                      tx := s.tx.(data := s.tx.data + s.worker.op.data, finRequested := s.worker.op.fin)))
  }

  function AcknowledgeCore(s: Core, bytes: nat, fin: bool): Core {
    var progress := s.tx.progress.(acked := s.tx.progress.acked + bytes,
                                   finAcked := s.tx.progress.finAcked || fin);
    s.(tx := s.tx.(progress := progress, published := progress))
  }

  /** The current packet is done; after the last one a send flush is asked for. */
  function PacketOutcome(s: Core, expiry: Deadline): (r: Outcome)
    requires s.worker.Feeding? && s.worker.packets != []
    ensures InsideRun(s, r) && FlagsMove(s, r)
    ensures KeepsReceived(s, r) && KeepsSent(s, r)
  {
    var packets := s.worker.packets;
    var read := s.(out := s.out.(protocol := expiry, owed := true), inbox := s.inbox.(fed := s.inbox.fed + [packets[0]]));
    if |packets| > 1 then Stay(read.(worker := Feeding(packets[1..], s.worker.n)))
    else QueueSendFlush(read.(worker := Recheck(s.worker.n)))
  }

  /** processSendFlush. */
  function FlushOutcome(s: Core, result: FlushResult, expiry: Deadline): (r: Outcome)
    requires s.worker.Exec? && s.worker.op.FlushSend?
    ensures InsideRun(s, r) && FlagsMove(s, r)
    ensures KeepsReceived(s, r) && KeepsInbox(s, r)
  {
    var after := s.(worker := After(s.worker.n), out := s.out.(sendPending := false));
    if !s.conn then Stay(after)
    else
      var flushed := after.(
        tx := s.tx.(progress := s.tx.progress.(submitted := result.submitted, finSubmitted := result.fin)),
        out := Out(false, result.pending, result.retry, expiry, s.out.wheel, !result.dry));
      if result.exhausted then QueueSendFlush(flushed) else Stay(flushed)
  }

  /** Which of the two deadlines processTimer finds due. */
  predicate RetryDue(s: Core) {
    s.out.retry.Due(s.now)
  }

  predicate ProtocolDue(s: Core) {
    s.conn && s.out.protocol.Due(s.now)
  }

  function TimerFired(s: Core, expiry: Deadline): (out: Out)
    ensures out.sendPending == s.out.sendPending && out.wheel == s.out.wheel && out.pending == s.out.pending
  {
    s.out.(retry := if RetryDue(s) then Never else s.out.retry,
           protocol := if ProtocolDue(s) then expiry else s.out.protocol,
           owed := s.out.owed || ProtocolDue(s))
  }

  /** processTimer. */
  function TimerOutcome(s: Core, expiry: Deadline): (r: Outcome)
    requires s.worker.Exec? && s.worker.op.TimerExpired?
    ensures InsideRun(s, r) && FlagsMove(s, r)
    ensures KeepsReceived(s, r) && KeepsInbox(s, r) && KeepsSent(s, r)
  {
    hide RetryDue; hide ProtocolDue; hide TimerFired;
    var fired := s.(worker := After(s.worker.n), out := TimerFired(s, expiry));
    if RetryDue(s) || ProtocolDue(s) then QueueSendFlush(fired) else Stay(fired)
  }

  /** processReleaseStreamReceiveCredit. */
  function ReleaseOutcome(s: Core): (r: Outcome)
    requires s.worker.Exec? && s.worker.op.ReleaseStreamRecvCredit?
    ensures InsideRun(s, r) && FlagsMove(s, r)
    ensures KeepsInbox(s, r) && KeepsSent(s, r)
  {
    var exchanged := s.(worker := After(s.worker.n), credit := s.credit.(releasable := 0));
    if s.credit.releasable == 0 || !s.conn || s.pipe.delivered == [] then Stay(exchanged)
    else QueueSendFlush(exchanged.(credit := Credit(0, s.credit.extended + s.credit.releasable),
                                   out := s.out.(owed := true)))
  }

  // ---------------------------------------------------------------------------------------------
  // Runs.

  datatype Step =
    | Thread(i: nat, step: ThreadStep)
    | Loop(loop: LoopStep)
    | Operate(operate: OperationStep)
    | Tick(elapsed: nat)

  predicate Enabled(s: State, step: Step) {
    match step
    case Thread(i, t) => i < |s.threads| && ThreadEnabled(s.core, s.threads[i], i == 0, t)
    case Loop(l) => |s.threads| > 0 && s.threads[0] == Ready && LoopEnabled(s.core, l)
    case Operate(o) => |s.threads| > 0 && s.threads[0] == Ready && OperationEnabled(s.core, o)
    case Tick(_) => true
  }

  function Apply(s: State, step: Step): State
    requires Enabled(s, step)
  {
    match step
    case Thread(i, t) =>
      var r := ThreadOutcome(s.core, s.threads[i], i == 0, t);
      State(r.core, s.threads[i := r.pc])
    case Loop(l) =>
      var r := LoopOutcome(s.core, l);
      State(r.core, s.threads[0 := r.pc])
    case Operate(o) =>
      var r := OperationOutcome(s.core, o);
      State(r.core, s.threads[0 := r.pc])
    case Tick(elapsed) =>
      s.(core := s.core.(now := s.core.now + elapsed))
  }

  ghost predicate Moves(s: State, s': State) {
    exists step :: Enabled(s, step) && s' == Apply(s, step)
  }

  /** A run from any state. */
  ghost predicate Path(states: seq<State>) {
    states != [] && forall k :: 0 <= k < |states| - 1 ==> Moves(states[k], states[k + 1])
  }

  ghost predicate Run(states: seq<State>) {
    Path(states) && Init(states[0])
  }

  ghost predicate Reachable(s: State) {
    exists states :: Run(states) && states[|states| - 1] == s
  }

  /** `s` can come after `o`. */
  ghost predicate From(o: State, s: State) {
    exists states :: Path(states) && states[0] == o && states[|states| - 1] == s
  }

  lemma FromItself(o: State)
    ensures From(o, o)
  {
    assert Path([o]) && [o][0] == o && [o][|[o]| - 1] == o;
  }

  lemma FromReachable(o: State, s: State)
    requires Reachable(o) && From(o, s)
    ensures Reachable(s)
  {
    hide Moves;
    var first :| Run(first) && first[|first| - 1] == o;
    var next :| Path(next) && next[0] == o && next[|next| - 1] == s;
    var all := first + next[1..];
    forall k | 0 <= k < |all| - 1 ensures Moves(all[k], all[k + 1]) {
      if k < |first| - 1 {
        assert Moves(first[k], first[k + 1]);
      } else {
        assert Moves(next[k - |first| + 1], next[k - |first| + 1 + 1]);
      }
    }
    assert Run(all) && all[|all| - 1] == s;
  }

  /** The steps of a concrete run, one at a time. */
  lemma Go(o: State, s: State, step: Step) returns (s': State)
    requires From(o, s) && Enabled(s, step)
    ensures From(o, s') && s' == Apply(s, step)
  {
    hide From;
    s' := Apply(s, step);
    assert Moves(s, s');
    OneFurther(o, s, s');
  }

  lemma OneFurther(o: State, s: State, s': State)
    requires From(o, s) && Moves(s, s')
    ensures From(o, s')
  {
    hide Moves;
    var states :| Path(states) && states[0] == o && states[|states| - 1] == s;
    var longer := states + [s'];
    forall k | 0 <= k < |longer| - 1 ensures Moves(longer[k], longer[k + 1]) {
      if k < |states| - 1 {
        assert Moves(states[k], states[k + 1]);
      }
    }
    assert Path(longer);
  }

  lemma GoThread(o: State, s: State, i: nat, step: ThreadStep) returns (s': State)
    requires From(o, s) && i < |s.threads| && ThreadEnabled(s.core, s.threads[i], i == 0, step)
    ensures var r := ThreadOutcome(s.core, s.threads[i], i == 0, step);
            From(o, s') && s' == State(r.core, s.threads[i := r.pc])
  {
    s' := Go(o, s, Thread(i, step));
  }

  lemma GoLoop(o: State, s: State, step: LoopStep) returns (s': State)
    requires From(o, s) && |s.threads| > 0 && s.threads[0] == Ready && LoopEnabled(s.core, step)
    ensures var r := LoopOutcome(s.core, step);
            From(o, s') && s' == State(r.core, if r.pc == Ready then s.threads else s.threads[0 := r.pc])
  {
    s' := Go(o, s, Loop(step));
    assert s.threads[0 := Ready] == s.threads;
  }

  lemma GoOperate(o: State, s: State, step: OperationStep) returns (s': State)
    requires From(o, s) && |s.threads| > 0 && s.threads[0] == Ready && OperationEnabled(s.core, step)
    ensures var r := OperationOutcome(s.core, step);
            From(o, s') && s' == State(r.core, if r.pc == Ready then s.threads else s.threads[0 := r.pc])
  {
    s' := Go(o, s, Operate(step));
    assert s.threads[0 := Ready] == s.threads;
  }
}
