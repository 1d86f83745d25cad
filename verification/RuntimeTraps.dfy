/** Concrete runs that show which stronger claims are false. */
module RuntimeTraps {
  import opened Clock
  import opened Runtime

  function NewCore(role: Role): (s: Core)
    ensures InitCore(s) && s.role == role
  {
    Core(role, false, false, false, 0, Top, Sched(Idle, [], [], false), Inbox([], false, [], []),
         Pipe([], false, false, [], false, [], false, [], false), Credit(0, 0),
         Tx(0, [], false, NOTHING_SENT, NOTHING_SENT, [], [], []), Out(false, 0, Never, Never, Never, false))
  }

  function Initial(role: Role): (s: State)
    ensures Init(s) && s.core == NewCore(role)
  {
    State(NewCore(role), [Ready, Ready, Ready])
  }

  lemma FromInitial(role: Role, s: State)
    requires From(Initial(role), s)
    ensures Reachable(s)
  {
    assert Run([Initial(role)]) && [Initial(role)][|[Initial(role)]| - 1] == Initial(role);
    FromReachable(Initial(role), s);
  }

  function Pushed(s: Core, op: Operation): Core {
    s.(sched := s.sched.(queue := s.sched.queue + [op]),
       tx := if op.APISend? then PushedSend(s.tx, op) else s.tx)
  }

  /** queueOperation while the worker is inside the connection. */
  lemma QueueRunning(o: State, s: State, i: nat, op: Operation) returns (s': State)
    requires From(o, s) && i < |s.threads| && s.threads[i] == Check(op)
    requires s.core.sched.state == Processing && !s.core.stopped
    ensures From(o, s') && s' == State(Pushed(s.core, op), s.threads[i := Ready])
  {
    hide From; hide OutsideRun; hide InsideRun; hide FlagsMove;
    var s1 := GoThread(o, s, i, DoCheck);
    s' := PushRunning(o, s1, i, op);
    assert s1.threads[i := Ready] == s.threads[i := Ready];
  }

  lemma PushRunning(o: State, s: State, i: nat, op: Operation) returns (s': State)
    requires From(o, s) && i < |s.threads| && s.threads[i] == Push(op)
    requires s.core.sched.state == Processing
    ensures From(o, s') && s' == State(Pushed(s.core, op), s.threads[i := Ready])
  {
    hide From; hide OutsideRun; hide InsideRun; hide FlagsMove;
    var s1 := GoThread(o, s, i, DoPush);
    s' := GoThread(o, s1, i, DoCas);
  }

  /** The rest of queueOperation for an idle connection with an empty run queue. */
  lemma PushIdle(o: State, s: State, i: nat, op: Operation) returns (s': State)
    requires From(o, s) && i < |s.threads| && s.threads[i] == Push(op)
    requires s.core.sched.state == Idle && s.core.sched.runQueue == []
    ensures From(o, s')
    ensures var after := Pushed(s.core, op);
            s' == State(after.(sched := Sched(Queued, after.sched.queue, [Mine], true)), s.threads[i := Ready])
  {
    hide From; hide OutsideRun; hide InsideRun; hide FlagsMove;
    var s1 := GoThread(o, s, i, DoPush);
    var s2 := GoThread(o, s1, i, DoCas);
    var s3 := GoThread(o, s2, i, DoEnqueue);
    s' := GoThread(o, s3, i, DoSignal);
    assert s'.threads == s.threads[i := Ready];
  }

  /** The worker finds the connection in its run queue and pops the first operation. */
  lemma StartRun(o: State, s: State) returns (s': State)
    requires From(o, s) && s.threads != [] && s.threads[0] == Ready && s.core.worker == Top
    requires s.core.sched.runQueue == [Mine] && s.core.out.wheel.Never? && s.core.sched.queue != []
    ensures From(o, s') && s'.threads == s.threads
    ensures var q := s.core.sched;
            s'.core == s.core.(worker := Exec(q.queue[0], 0), sched := Sched(Processing, q.queue[1..], [], q.ready))
  {
    hide From; hide OutsideRun; hide InsideRun; hide FlagsMove;
    var s1 := GoLoop(o, s, Timers);
    var s2 := GoLoop(o, s1, PopConnection);
    var s3 := GoLoop(o, s2, BeginProcessing);
    s' := GoLoop(o, s3, PopOperation);
    assert s'.threads == s.threads;
  }

  /** One operation is done and the next is popped. */
  lemma NextOperation(o: State, s: State) returns (s': State)
    requires From(o, s) && s.threads != [] && s.threads[0] == Ready && s.core.worker.After?
    requires s.core.worker.n + 1 < OPERATION_BUDGET && s.core.sched.queue != [] && !s.core.stopped
    ensures From(o, s') && s'.threads == s.threads
    ensures var q := s.core.sched;
            s'.core == s.core.(worker := Exec(q.queue[0], s.core.worker.n + 1), sched := q.(queue := q.queue[1..]))
  {
    hide From; hide OutsideRun; hide InsideRun; hide FlagsMove;
    var s1 := GoLoop(o, s, Continue);
    s' := GoLoop(o, s1, PopOperation);
    assert s'.threads == s.threads;
  }

  /** A Shutdown that was just popped, up to the publication of the final state. */
  lemma ShutDown(o: State, s: State) returns (s': State)
    requires From(o, s) && s.threads != [] && s.threads[0] == Ready
    requires s.core.worker.Exec? && s.core.worker.op.Shutdown? && s.core.sched.queue == []
    ensures From(o, s') && s'.threads == s.threads
    ensures s'.core == Publish(s.core).(worker := PublishEnd, conn := false, stopped := true)
  {
    hide From; hide OutsideRun; hide InsideRun; hide FlagsMove;
    var s1 := GoOperate(o, s, ExecShutdown);
    var s2 := GoLoop(o, s1, Stop);
    var s3 := GoLoop(o, s2, Continue);
    s' := GoLoop(o, s3, DrainOne);
    assert s'.threads == s.threads;
  }

  lemma FinishStopped(o: State, s: State) returns (s': State)
    requires From(o, s) && s.threads != [] && s.threads[0] == Ready
    requires s.core.worker.PublishEnd? && s.core.stopped && s.core.sched.queue == []
    ensures From(o, s') && s'.threads == s.threads
    ensures s'.core == Publish(s.core).(worker := Top, sched := s.core.sched.(state := Idle),
                                        out := s.core.out.(wheel := Never))
  {
    hide From; hide OutsideRun; hide InsideRun; hide FlagsMove;
    var s1 := GoLoop(o, s, PublishState);
    var s2 := GoLoop(o, s1, SetWheel);
    var s3 := GoLoop(o, s2, FinishProcessing);
    s' := GoLoop(o, s3, RecheckQueue);
    assert s'.threads == s.threads;
  }

  /** The worker is between two runs and there is nothing in the queues. */
  predicate AtRest(s: State) {
    && s.threads != [] && s.threads[0] == Ready && s.core.worker == Top
    && s.core.sched.state == Idle && s.core.sched.queue == [] && s.core.sched.runQueue == []
  }

  /** Thread 2 closes an idle connection. */
  lemma CloseIdle(o: State, s: State) returns (s': State)
    requires From(o, s) && |s.threads| == 3 && s.threads[2] == Ready && AtRest(s)
    requires !s.core.stopped && s.core.out.wheel.Never?
    ensures From(o, s') && s'.threads == s.threads && AtRest(s') && s'.core.stopped && !s'.core.conn
    ensures s'.core.role == s.core.role && s'.core.started == s.core.started && s'.core.inbox == s.core.inbox
    ensures s'.core.out.wheel.Never?
  {
    hide From; hide OutsideRun; hide InsideRun; hide FlagsMove;
    var s1 := GoThread(o, s, 2, CallClose);
    var s2 := GoThread(o, s1, 2, DoCheck);
    var s3 := PushIdle(o, s2, 2, Shutdown);
    var s4 := StartRun(o, s3);
    var s5 := ShutDown(o, s4);
    s' := FinishStopped(o, s5);
    assert s'.threads == s.threads;
  }

  /** What lets an opening operation open a connection once it is executed. */
  predicate Unlocked(s: Core) {
    if s.role == Client then !s.started else s.inbox.batch != []
  }

  /** A thread that stands between the check and the push of an opening operation opens a connection
      after the stop. */
  lemma LateOpen(o: State, s: State, i: nat) returns (s': State)
    requires From(o, s) && AtRest(s) && s.core.out.wheel.Never? && Unlocked(s.core)
    requires i < |s.threads| && s.threads[i].Push? && OpensConnection(s.core.role, s.threads[i].op)
    ensures From(o, s') && s'.core.conn && s'.core.stopped == s.core.stopped && s'.core.role == s.core.role
  {
    hide From; hide OutsideRun; hide InsideRun; hide FlagsMove;
    var s1 := PushIdle(o, s, i, s.threads[i].op);
    var s2 := StartRun(o, s1);
    if s.core.role == Client {
      s' := GoOperate(o, s2, ExecStart(Never));
    } else {
      var s3 := GoOperate(o, s2, ExecReceive);
      s' := s3;
      if !s3.core.conn {
        s' := GoOperate(o, s3, OpenServer);
      }
    }
  }

  /** "Stopped implies no ngtcp2 connection" fails for both roles: a datagram producer (server) or
      a start() (client) that passed the stopped check before the stop can push after the drain. */
  lemma StoppedWithConnection(role: Role) returns (s: State)
    ensures Reachable(s) && s.core.role == role && s.core.stopped && s.core.conn
  {
    hide From; hide Reachable; hide OutsideRun; hide InsideRun; hide FlagsMove;
    var o := Initial(role);
    FromItself(o);
    var s3: State;
    if role == Client {
      var s1 := GoThread(o, o, 1, CallStart);
      s3 := GoThread(o, s1, 1, DoCheck);
    } else {
      var s1 := GoThread(o, o, 1, CallReceive([0]));
      var s2 := GoThread(o, s1, 1, LockReceive);
      s3 := GoThread(o, s2, 1, DoCheck);
    }
    var s4 := CloseIdle(o, s3);
    s := LateOpen(o, s4, 1);
    FromInitial(role, s);
  }

  /** A server that was fed its first packet: the worker is in the middle of it. */
  lemma ServerFeeding() returns (s: State)
    ensures From(Initial(Server), s) && s.threads == [Ready, Ready, Ready]
    ensures s.core == NewCore(Server).(
        conn := true, worker := Feeding([[0]], 0), sched := Sched(Processing, [], [], true),
        inbox := Inbox([], false, [[0]], []))
  {
    hide From; hide OutsideRun; hide InsideRun; hide FlagsMove;
    var s0 := Initial(Server);
    FromItself(s0);
    var s1 := GoThread(Initial(Server), s0, 1, CallReceive([0]));
    var s2 := GoThread(Initial(Server), s1, 1, LockReceive);
    var s3 := GoThread(Initial(Server), s2, 1, DoCheck);
    var s4 := PushIdle(Initial(Server), s3, 1, FlushRecv);
    var s5 := StartRun(Initial(Server), s4);
    var s6 := GoOperate(Initial(Server), s5, ExecReceive);
    s := GoOperate(Initial(Server), s6, OpenServer);
  }

  /** The last bytes and the FIN arrive after the reader found nothing. */
  lemma FinArrives() returns (s: State)
    ensures From(Initial(Server), s) && s.threads == [Ready, Ready, CheckFin]
    ensures s.core == NewCore(Server).(
        conn := true, worker := Feeding([[0]], 0), sched := Sched(Processing, [FlushStreamRecv], [], true),
        inbox := Inbox([], false, [[0]], []),
        pipe := Pipe([7], true, true, [], false, [7], true, [], false))
  {
    hide From; hide OutsideRun; hide InsideRun; hide FlagsMove;
    var s0 := BytesArrive();
    var s1 := GoOperate(Initial(Server), s0, DeliverFin);
    s := GoThread(Initial(Server), s1, 2, Read);
  }

  lemma BytesArrive() returns (s: State)
    ensures From(Initial(Server), s) && s.threads == [Ready, Ready, Ready]
    ensures s.core == NewCore(Server).(
        conn := true, worker := Feeding([[0]], 0), sched := Sched(Processing, [FlushStreamRecv], [], true),
        inbox := Inbox([], false, [[0]], []),
        pipe := Pipe([7], true, false, [], false, [7], false, [], false))
  {
    hide From; hide OutsideRun; hide InsideRun; hide FlagsMove;
    var s0 := ServerFeeding();
    var s1 := GoOperate(Initial(Server), s0, Deliver([7]));
    s := QueueRunning(Initial(Server), s1, 0, FlushStreamRecv);
  }

  /** The worker finishes the packet and publishes. */
  lemma FinPublished(s: State) returns (s': State)
    requires From(Initial(Server), s) && s.threads == [Ready, Ready, CheckFin]
    requires s.core.worker == Feeding([[0]], 0) && s.core.sched.state == Processing && !s.core.stopped && s.core.conn
    requires s.core.sched.queue == [FlushStreamRecv] && s.core.inbox.batch == [] && !s.core.out.sendPending
    ensures From(Initial(Server), s') && s'.threads == [Ready, Ready, CheckFin]
    ensures var p := s.core.pipe;
            s'.core.pipe == p.(streamPending := false, stream := [], finPending := false,
                               app := p.app + p.stream, appFin := p.appFin || p.finPending)
  {
    hide From; hide OutsideRun; hide InsideRun; hide FlagsMove;
    var s2 := PacketDone(s);
    var s3 := GoOperate(Initial(Server), s2, RecheckInbox);
    var s4 := NextOperation(Initial(Server), s3);
    s' := GoOperate(Initial(Server), s4, ExecStream);
  }

  lemma PacketDone(s: State) returns (s': State)
    requires From(Initial(Server), s) && s.threads == [Ready, Ready, CheckFin]
    requires s.core.worker == Feeding([[0]], 0) && s.core.sched.state == Processing && !s.core.stopped && s.core.conn
    requires s.core.sched.queue == [FlushStreamRecv] && s.core.inbox.batch == [] && !s.core.out.sendPending
    ensures From(Initial(Server), s') && s'.threads == [Ready, Ready, CheckFin]
    ensures s'.core.worker == Recheck(0) && !s'.core.stopped && s'.core.pipe == s.core.pipe && s'.core.inbox.batch == []
    ensures s'.core.sched == s.core.sched.(queue := [FlushStreamRecv, FlushSend])
  {
    hide From; hide OutsideRun; hide InsideRun; hide FlagsMove;
    var s1 := GoOperate(Initial(Server), s, NextPacket(Never));
    s' := QueueRunning(Initial(Server), s1, 0, FlushSend);
  }

  /** An empty read followed by a visible FIN is not the end: the worker can publish the last bytes
      and the FIN in between.  Only the second read tells. */
  lemma OneReadIsNotEnough() returns (s: State)
    ensures Reachable(s) && |s.threads| == 3 && s.threads[2].CheckFin?
    ensures s.core.pipe.appFin && s.core.pipe.taken != s.core.pipe.delivered
  {
    hide From; hide Reachable;
    var s1 := FinArrives();
    s := FinPublished(s1);
    FromInitial(Server, s);
  }

  /** The end of a stream is reached: the reader above takes the last byte with its second read, and
      another reader is told that this was the end. */
  lemma EndReached() returns (s: State)
    ensures Reachable(s) && s.core.pipe.endSeen && s.core.pipe.taken == [7]
  {
    hide From; hide Reachable; hide InsideRun; hide FlagsMove; hide OutsideRun;
    var o := Initial(Server);
    var s1 := FinArrives();
    var s2 := FinPublished(s1);
    var s3 := GoThread(o, s2, 2, LookFin);
    var s4 := GoThread(o, s3, 2, Read);
    var s5 := GoThread(o, s4, 1, Read);
    var s6 := GoThread(o, s5, 1, LookFin);
    s := GoThread(o, s6, 1, Read);
    FromInitial(Server, s);
  }

  function OneByte(): seq<Operation> {
    [APISend([7], false)]
  }

  /** A client that was started, and whose one byte was submitted. */
  lemma ClientSending() returns (s: State)
    ensures From(Initial(Client), s) && s.threads == [Ready, Ready, Ready]
    ensures s.core.role == Client && s.core.conn && s.core.started && !s.core.stopped && s.core.worker == After(3)
    ensures s.core.sched == Sched(Processing, [], [], true) && s.core.inbox == Inbox([], false, [], [])
    ensures s.core.tx == Tx(1, [7], false, Offsets(1, 0, false, false), NOTHING_SENT, OneByte(), OneByte(), [7]) && !s.core.out.sendPending
  {
    hide From; hide OutsideRun; hide InsideRun; hide FlagsMove;
    var s0 := ClientStarted();
    var s1 := ClientQueuesByte(s0);
    var s2 := NextOperation(Initial(Client), s1);
    var s3 := GoOperate(Initial(Client), s2, ExecFlush(FlushResult(0, false, 0, Never, false, true), Never));
    var s4 := NextOperation(Initial(Client), s3);
    s := ByteSent(s4);
  }

  lemma ByteSent(s: State) returns (s': State)
    requires From(Initial(Client), s) && s.threads == [Ready, Ready, Ready] && s.core.conn && !s.core.stopped
    requires s.core.worker == Exec(APISend([7], false), 2) && s.core.sched == Sched(Processing, [], [], true)
    requires s.core.tx == Tx(1, [], false, NOTHING_SENT, NOTHING_SENT, OneByte(), OneByte(), [7]) && !s.core.out.sendPending
    ensures From(Initial(Client), s') && s'.threads == [Ready, Ready, Ready] && s'.core.conn && !s'.core.stopped
    ensures s'.core.role == s.core.role && s'.core.started == s.core.started && s'.core.worker == After(3)
    ensures s'.core.sched == Sched(Processing, [], [], true) && s'.core.inbox == s.core.inbox
    ensures s'.core.tx == Tx(1, [7], false, Offsets(1, 0, false, false), NOTHING_SENT, OneByte(), OneByte(), [7]) && !s'.core.out.sendPending
  {
    hide From; hide OutsideRun; hide InsideRun; hide FlagsMove;
    var s1 := ByteAccepted(s);
    var s2 := GoLoop(Initial(Client), s1, PublishAfterSend);
    var s3 := NextOperation(Initial(Client), s2);
    s' := GoOperate(Initial(Client), s3, ExecFlush(FlushResult(1, false, 0, Never, false, true), Never));
  }

  lemma ByteAccepted(s: State) returns (s': State)
    requires From(Initial(Client), s) && s.threads == [Ready, Ready, Ready] && s.core.conn && !s.core.stopped
    requires s.core.worker == Exec(APISend([7], false), 2) && s.core.sched == Sched(Processing, [], [], true)
    requires s.core.tx == Tx(1, [], false, NOTHING_SENT, NOTHING_SENT, OneByte(), OneByte(), [7]) && !s.core.out.sendPending
    ensures From(Initial(Client), s') && s'.threads == s.threads
    ensures s'.core == s.core.(worker := PublishSend(2), sched := Sched(Processing, [FlushSend], [], true),
                               tx := s.core.tx.(data := [7]), out := s.core.out.(owed := true, sendPending := true))
  {
    hide From; hide OutsideRun; hide InsideRun; hide FlagsMove;
    var s1 := GoOperate(Initial(Client), s, ExecSend);
    s' := QueueRunning(Initial(Client), s1, 0, FlushSend);
  }

  lemma ClientStarted() returns (s: State)
    ensures From(Initial(Client), s) && s.threads == [Ready, Ready, Ready]
    ensures s.core == NewCore(Client).(
        started := true, conn := true, worker := After(0), sched := Sched(Processing, [FlushSend], [], true),
        out := Out(true, 0, Never, Never, Never, true))
  {
    hide From; hide OutsideRun; hide InsideRun; hide FlagsMove;
    var s0 := Initial(Client);
    FromItself(s0);
    var s1 := GoThread(Initial(Client), s0, 1, CallStart);
    var s2 := GoThread(Initial(Client), s1, 1, DoCheck);
    var s3 := PushIdle(Initial(Client), s2, 1, APIStart);
    var s4 := StartRun(Initial(Client), s3);
    var s5 := GoOperate(Initial(Client), s4, ExecStart(Never));
    s := QueueRunning(Initial(Client), s5, 0, FlushSend);
  }

  lemma ClientQueuesByte(s: State) returns (s': State)
    requires From(Initial(Client), s) && s.threads == [Ready, Ready, Ready] && s.core.started && !s.core.stopped
    requires s.core.sched.state == Processing
    ensures From(Initial(Client), s') && s'.threads == [Ready, Ready, Ready]
    ensures s'.core == s.core.(
        sched := s.core.sched.(queue := s.core.sched.queue + [APISend([7], false)]),
        tx := s.core.tx.(writeOffset := s.core.tx.writeOffset + 1, pushed := s.core.tx.pushed + [7],
                         called := s.core.tx.called + OneByte(), sends := s.core.tx.sends + OneByte()))
  {
    hide From;
    var s1 := GoThread(Initial(Client), s, 1, CallSend([7], false));
    var s2 := GoThread(Initial(Client), s1, 1, AddOffset);
    var s3 := GoThread(Initial(Client), s2, 1, StoreFin);
    s' := QueueRunning(Initial(Client), s3, 1, APISend([7], false));
  }

  /** Then the byte is acknowledged, and the application closes the connection. */
  lemma ClientClosing(s: State) returns (s': State)
    requires From(Initial(Client), s) && s.threads == [Ready, Ready, Ready]
    requires s.core.conn && s.core.started && !s.core.stopped && s.core.worker == After(3)
    requires s.core.sched == Sched(Processing, [], [], true) && s.core.inbox == Inbox([], false, [], [])
    requires s.core.tx == Tx(1, [7], false, Offsets(1, 0, false, false), NOTHING_SENT, OneByte(), OneByte(), [7]) && !s.core.out.sendPending
    ensures From(Initial(Client), s') && s'.threads == [Ready, Ready, Ready] && s'.core.conn && !s'.core.stopped
    ensures s'.core.worker == Exec(Shutdown, 6) && s'.core.sched.queue == []
    ensures s'.core.tx.published == s'.core.tx.progress == Offsets(1, 1, false, false)
  {
    hide From; hide OutsideRun; hide InsideRun; hide FlagsMove;
    var s1 := GoThread(Initial(Client), s, 1, CallReceive([0]));
    var s2 := GoThread(Initial(Client), s1, 1, LockReceive);
    var s3 := QueueRunning(Initial(Client), s2, 1, FlushRecv);
    var s4 := NextOperation(Initial(Client), s3);
    var s5 := GoOperate(Initial(Client), s4, ExecReceive);
    var s6 := GoOperate(Initial(Client), s5, Acknowledge(1, false));
    s' := ClientLastRun(s6);
  }

  lemma ClientLastRun(s: State) returns (s': State)
    requires From(Initial(Client), s) && s.threads == [Ready, Ready, Ready] && s.core.conn && !s.core.stopped
    requires s.core.worker == Feeding([[0]], 4) && s.core.sched == Sched(Processing, [], [], true)
    requires s.core.inbox.batch == [] && !s.core.out.sendPending
    requires s.core.tx.progress == Offsets(1, 1, false, false) && |s.core.tx.data| == 1
    ensures From(Initial(Client), s') && s'.threads == [Ready, Ready, Ready] && s'.core.conn && !s'.core.stopped
    ensures s'.core.worker == Exec(Shutdown, 6) && s'.core.sched.queue == [] && s'.core.tx == s.core.tx
  {
    hide From; hide OutsideRun; hide InsideRun; hide FlagsMove;
    var s1 := GoOperate(Initial(Client), s, NextPacket(Never));
    var s2 := QueueRunning(Initial(Client), s1, 0, FlushSend);
    s' := CloseQueued(s2);
  }

  lemma CloseQueued(s: State) returns (s': State)
    requires From(Initial(Client), s) && s.threads == [Ready, Ready, Ready] && s.core.conn && !s.core.stopped
    requires s.core.worker == Recheck(4) && s.core.sched == Sched(Processing, [FlushSend], [], true)
    requires s.core.inbox.batch == []
    requires s.core.tx.progress == Offsets(1, 1, false, false) && |s.core.tx.data| == 1
    ensures From(Initial(Client), s') && s'.threads == [Ready, Ready, Ready] && s'.core.conn && !s'.core.stopped
    ensures s'.core.worker == Exec(Shutdown, 6) && s'.core.sched.queue == [] && s'.core.tx == s.core.tx
  {
    hide From; hide OutsideRun; hide InsideRun; hide FlagsMove;
    var s1 := GoOperate(Initial(Client), s, RecheckInbox);
    var s2 := GoThread(Initial(Client), s1, 2, CallClose);
    var s3 := QueueRunning(Initial(Client), s2, 2, Shutdown);
    s' := LastFlush(s3);
  }

  lemma LastFlush(s: State) returns (s': State)
    requires From(Initial(Client), s) && s.threads == [Ready, Ready, Ready] && s.core.conn && !s.core.stopped
    requires s.core.worker == After(4) && s.core.sched == Sched(Processing, [FlushSend, Shutdown], [], true)
    requires s.core.tx.progress == Offsets(1, 1, false, false) && |s.core.tx.data| == 1
    ensures From(Initial(Client), s') && s'.threads == [Ready, Ready, Ready] && s'.core.conn && !s'.core.stopped
    ensures s'.core.worker == Exec(Shutdown, 6) && s'.core.sched.queue == [] && s'.core.tx == s.core.tx
  {
    hide From; hide OutsideRun; hide InsideRun; hide FlagsMove;
    var s1 := NextOperation(Initial(Client), s);
    var s2 := GoOperate(Initial(Client), s1, ExecFlush(FlushResult(1, false, 0, Never, false, true), Never));
    s' := NextOperation(Initial(Client), s2);
  }

  /** After a stop the published offsets do go back: the next publication finds no connection. */
  lemma PublishedOffsetsDrop() returns (s: State, s': State)
    ensures Reachable(s) && Moves(s, s') && Reachable(s')
    ensures s.core.tx.published.acked == 1 && s'.core.tx.published.acked == 0
  {
    hide From; hide OutsideRun; hide InsideRun; hide FlagsMove;
    var s0 := ClientSending();
    var s1 := ClientClosing(s0);
    s := ShutDown(Initial(Client), s1);
    s' := Go(Initial(Client), s, Loop(PublishState));
    FromInitial(Client, s);
    FromInitial(Client, s');
  }
}
