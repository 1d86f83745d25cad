/** The aggregate-send path from the binding down to the socket: libjuice's segment loops, the
    choice between the datapath hook and the fallback, and the translation of the result for the
    QUIC connection.  The kernel is an environment: it may refuse any call for any reason. */
module AggregateSend {
  import opened Datagrams

  datatype Errno =
    | WouldBlock
    | MessageTooLarge
    | InvalidArgument
    | NoProtocolOption
    | NotSupported
    | NoSuchCall
    | InputOutput
    | OtherError(code: int)

  datatype Return = Success | Failure(errno: Errno)

  /** What every layer reports about one aggregate send: a complete send covers all bytes, an
      interrupted one stops at a datagram boundary before the end, and the wire holds exactly the
      datagrams of the reported prefix. */
  ghost predicate Progress(before: seq<Datagram>, after: seq<Datagram>, data: seq<byte>,
                           segment: nat, sent: nat, complete: bool)
    requires 0 < segment
  {
    && sent <= |data|
    && (complete ==> sent == |data|)
    && (!complete ==> sent < |data| && sent % segment == 0)
    && after == before + Cut(data[..sent], segment)
  }

  /** One more datagram on the wire extends the reported prefix by one segment. */
  lemma ProgressStep(data: seq<byte>, segment: nat, offset: nat, size: nat)
    requires 0 < segment
    requires offset < |data| && offset % segment == 0
    requires size == if |data| - offset > segment then segment else |data| - offset
    ensures Cut(data[..offset + size], segment)
         == Cut(data[..offset], segment) + [data[offset..offset + size]]
    ensures offset + size < |data| ==> (offset + size) % segment == 0
  {
    var prefix := data[..offset + size];
    CutAtBoundary(prefix, segment, offset);
    assert prefix[..offset] == data[..offset];
    assert prefix[offset..] == data[offset..offset + size];
    DivideStep(offset, segment);
  }

  /** A UDP socket.  A datagram is accepted whole or not at all; a segmented send is accepted
      whole or not at all.  The socket remembers its last answer and how often it was asked. */
  class Socket {
    var wire: seq<Datagram>
    ghost var last: Return
    ghost var plainCalls: nat
    ghost var segmentedCalls: nat

    constructor ()
      ensures wire == []
    {
      wire := [];
    }

    ghost function Calls(): nat
      reads this
    {
      plainCalls + segmentedCalls
    }

    method SendTo(datagram: Datagram) returns (r: Return)
      modifies this
      ensures wire == if r.Success? then old(wire) + [datagram] else old(wire)
      ensures last == r && plainCalls == old(plainCalls) + 1 && segmentedCalls == old(segmentedCalls)
    {
      var accepted: bool := *;
      if accepted {
        wire := wire + [datagram];
        r := Success;
      } else {
        var errno: Errno := *;
        r := Failure(errno);
      }
      last, plainCalls := r, plainCalls + 1;
    }

    /** sendto under the Windows segmentation option. */
    method SendToSegmented(data: seq<byte>, segment: nat) returns (r: Return)
      requires 0 < segment
      modifies this
      ensures wire == if r.Success? then old(wire) + Cut(data, segment) else old(wire)
      ensures last == r && segmentedCalls == old(segmentedCalls) + 1 && plainCalls == old(plainCalls)
    {
      var accepted: bool := *;
      if accepted {
        wire := wire + Cut(data, segment);
        r := Success;
      } else {
        var errno: Errno := *;
        r := Failure(errno);
      }
      last, segmentedCalls := r, segmentedCalls + 1;
    }

    /** sendmsg with the Linux segmentation control message; a count other than the full size means
        that nothing was accepted. */
    method SendMessageSegmented(data: seq<byte>, segment: nat) returns (r: Return, count: int)
      requires 0 < segment
      modifies this
      ensures wire == if r.Success? && count == |data| then old(wire) + Cut(data, segment) else old(wire)
      ensures last == (if r.Success? && count != |data| then Failure(InputOutput) else r)
      ensures segmentedCalls == old(segmentedCalls) + 1 && plainCalls == old(plainCalls)
    {
      var errno: Errno := *;
      var refused: bool := *;
      count := *;
      if refused {
        r := Failure(errno);
      } else {
        r := Success;
        if count == |data| {
          wire := wire + Cut(data, segment);
        }
      }
      last := if r.Success? && count != |data| then Failure(InputOutput) else r;
      segmentedCalls := segmentedCalls + 1;
    }
  }

  /** The datagram-by-datagram loop that libjuice uses whenever the kernel does not segment:
      for a plain socket, for a relayed or TCP candidate, and outside the poll mode. */
  method SendSegments(socket: Socket, data: seq<byte>, segment: nat) returns (r: Return, sent: nat)
    requires 0 < segment
    modifies socket
    ensures Progress(old(socket.wire), socket.wire, data, segment, sent, r.Success?)
    ensures socket.segmentedCalls == old(socket.segmentedCalls)
    ensures data != [] ==> r == socket.last && old(socket.plainCalls) < socket.plainCalls
    ensures data == [] ==> r.Success?
  {
    var offset := 0;
    assert data[..0] == [];
    while offset < |data|
      invariant offset <= |data|
      invariant offset < |data| ==> offset % segment == 0
      invariant socket.wire == old(socket.wire) + Cut(data[..offset], segment)
      invariant socket.segmentedCalls == old(socket.segmentedCalls) && old(socket.plainCalls) <= socket.plainCalls
      invariant offset > 0 ==> socket.last == Success && old(socket.plainCalls) < socket.plainCalls
    {
      var size := |data| - offset;
      if size > segment {
        size := segment;
      }
      ProgressStep(data, segment, offset, size);
      var ret := socket.SendTo(data[offset..offset + size]);
      if ret.Failure? {
        return ret, offset;
      }
      offset := offset + size;
    }
    r, sent := Success, |data|;
  }

  predicate UsesSegmentLoopAfter(errno: Errno) {
    errno == InvalidArgument || errno == NoProtocolOption || errno == MessageTooLarge
  }

  /** udp_sendto_aggregate.  `segmentationOption` is whether this build and this socket accept the
      Windows segmentation option. */
  method SendAggregateUDP(socket: Socket, data: seq<byte>, segment: nat, segmentationOption: bool)
    returns (r: Return, sent: nat)
    requires 0 < segment
    modifies socket
    ensures 0 < |data| && segment <= |data|
        ==> Progress(old(socket.wire), socket.wire, data, segment, sent, r.Success?)
    ensures !(0 < |data| && segment <= |data|) ==> r == Failure(OtherError(1)) && sent == 0 && socket.wire == old(socket.wire)
    ensures !(0 < |data| && segment <= |data|) ==> socket.Calls() == old(socket.Calls())
    ensures 0 < |data| && segment <= |data| ==> r == socket.last && old(socket.Calls()) < socket.Calls()
    // The segmentation option is tried for several segments only; the datagrams go one by one without
    // it, and after the three errors that say it does not work here.
    ensures socket.segmentedCalls == old(socket.segmentedCalls)
                                   + (if segmentationOption && 0 < |data| && segment < |data| then 1 else 0)
    ensures r in {Failure(InvalidArgument), Failure(NoProtocolOption), Failure(MessageTooLarge)} ==>
      old(socket.plainCalls) < socket.plainCalls
  {
    sent := 0;
    if |data| == 0 || segment > |data| {
      return Failure(OtherError(1)), 0;
    }
    assert data[..0] == [] && data[..|data|] == data;
    ZeroAligned(segment);
    if |data| <= segment {
      r := socket.SendTo(data);
      if r.Success? {
        sent := |data|;
      }
      return;
    }
    if segmentationOption {
      r := socket.SendToSegmented(data, segment);
      if r.Success? {
        return Success, |data|;
      }
      if !UsesSegmentLoopAfter(r.errno) {
        return;
      }
    }
    r, sent := SendSegments(socket, data, segment);
  }

  lemma ZeroAligned(segment: nat)
    requires 0 < segment
    ensures 0 % segment == 0
  {
  }

  datatype HookResult = NotHandled | Handled | HookFailed(errno: Errno)

  const MAX_GSO_SEGMENTS := 64
  const MAX_SEGMENT_SIZE := 65535

  /** The POSIX datapath backend: segmentation offload while the kernel supports it. */
  class Datapath {
    var sendSegmentationEnabled: bool

    constructor (enabled: bool)
      ensures sendSegmentationEnabled == enabled
    {
      sendSegmentationEnabled := enabled;
    }

    predicate IsCapabilityError(errno: Errno) {
      errno == InvalidArgument || errno == NoProtocolOption || errno == NotSupported || errno == NoSuchCall
    }

    /** Offload is tried only for two to 64 segments whose size fits the 16-bit option. */
    predicate Offloads(data: seq<byte>, segment: nat)
      requires 0 < segment
      reads this
    {
      && sendSegmentationEnabled && segment < |data| && segment <= MAX_SEGMENT_SIZE
      && |Cut(data, segment)| <= MAX_GSO_SEGMENTS
    }

    method SendAggregate(socket: Socket, data: seq<byte>, segment: nat) returns (r: HookResult, sent: nat)
      requires 0 < segment <= |data|
      modifies this, socket
      ensures r.Handled? ==> sent == |data| && socket.wire == old(socket.wire) + Cut(data, segment)
      ensures !r.Handled? ==> sent == 0 && socket.wire == old(socket.wire)
      // Once tried, declining and switching offload off are the same thing: a capability error.
      ensures old(Offloads(data, segment)) ==> (r.NotHandled? <==> !sendSegmentationEnabled)
      ensures r.NotHandled? && old(Offloads(data, segment)) <==>
        old(Offloads(data, segment)) && socket.last in {Failure(InvalidArgument), Failure(NoProtocolOption),
                                                        Failure(NotSupported), Failure(NoSuchCall)}
      ensures r.HookFailed? ==> socket.last == Failure(r.errno)
      ensures r.Handled? ==> socket.last == Success
      ensures socket.plainCalls == old(socket.plainCalls)
      ensures socket.segmentedCalls == old(socket.segmentedCalls) + (if old(Offloads(data, segment)) then 1 else 0)
      ensures !old(Offloads(data, segment)) ==> r.NotHandled? && sendSegmentationEnabled == old(sendSegmentationEnabled)
    {
      sent := 0;
      if !sendSegmentationEnabled || |data| <= segment || segment > MAX_SEGMENT_SIZE {
        return NotHandled, 0;
      }
      var datagramCount := (|data| + segment - 1) / segment;
      CutShape(data, segment);
      if datagramCount > MAX_GSO_SEGMENTS {
        return NotHandled, 0;
      }
      var result, count := socket.SendMessageSegmented(data, segment);
      if result.Failure? {
        if IsCapabilityError(result.errno) {
          sendSegmentationEnabled := false;
          return NotHandled, 0;
        }
        return HookFailed(result.errno), 0;
      }
      if count != |data| {
        return HookFailed(InputOutput), 0;
      }
      r, sent := Handled, |data|;
    }
  }

  /** The libjuice agent of one connection. */
  class Agent {
    const socket: Socket
    const hook: Datapath?
    const segmentationOption: bool
    var closed: bool
    var direct: bool  // the selected candidate is a direct UDP one

    constructor (socket: Socket, hook: Datapath?, segmentationOption: bool, direct: bool)
      ensures this.socket == socket && this.hook == hook && !closed && this.direct == direct
    {
      this.socket := socket;
      this.hook := hook;
      this.segmentationOption := segmentationOption;
      this.closed := false;
      this.direct := direct;
    }

    /** conn_poll_send_aggregate: the hook first, libjuice's own aggregate send otherwise. */
    method ConnSendAggregate(data: seq<byte>, segment: nat) returns (r: Return, sent: nat)
      requires 0 < segment <= |data|
      modifies socket, hook
      ensures Progress(old(socket.wire), socket.wire, data, segment, sent, r.Success?)
      ensures r == socket.last && old(socket.Calls()) < socket.Calls()
      ensures hook != null && old(hook.Offloads(data, segment)) ==> old(socket.segmentedCalls) < socket.segmentedCalls
    {
      assert data[..|data|] == data && data[..0] == [];
      ZeroAligned(segment);
      var hookResult := NotHandled;
      sent := 0;
      if hook != null {
        hookResult, sent := hook.SendAggregate(socket, data, segment);
      }
      match hookResult {
        case Handled =>
          r := Success;
        case HookFailed(errno) =>
          r := Failure(errno);
        case NotHandled =>
          r, sent := SendAggregateUDP(socket, data, segment, segmentationOption);
      }
    }

    /** agent_send_aggregate: a relayed or TCP candidate keeps datagram boundaries by sending each
        segment on its own. */
    method SendAggregate(data: seq<byte>, segment: nat) returns (r: Return, sent: nat)
      requires 0 < segment
      modifies socket, hook
      ensures 0 < segment <= |data| ==> Progress(old(socket.wire), socket.wire, data, segment, sent, r.Success?)
      ensures segment > |data| ==> r.Failure? && r.errno.OtherError? && sent == 0 && socket.wire == old(socket.wire)
      ensures segment > |data| ==> socket.Calls() == old(socket.Calls())
      ensures 0 < segment <= |data| ==> r == socket.last && old(socket.Calls()) < socket.Calls()
      // A relayed or TCP candidate never sees a segmented send; a direct one does when the hook offloads.
      ensures !direct ==> socket.segmentedCalls == old(socket.segmentedCalls)
      ensures direct && segment <= |data| && hook != null && old(hook.Offloads(data, segment)) ==>
        old(socket.segmentedCalls) < socket.segmentedCalls
    {
      if segment > |data| {
        return Failure(OtherError(1)), 0;
      }
      if direct {
        r, sent := ConnSendAggregate(data, segment);
      } else {
        r, sent := SendSegments(socket, data, segment);
      }
    }

    method Send(data: seq<byte>) returns (r: Return)
      modifies socket
      ensures socket.wire == if r.Success? then old(socket.wire) + [data] else old(socket.wire)
      ensures r == socket.last && socket.Calls() == old(socket.Calls()) + 1
    {
      r := socket.SendTo(data);
    }
  }

  datatype JuiceCode = JuiceSuccess | JuiceAgain | JuiceTooLarge | JuiceInvalid | JuiceFailed

  function JuiceCodeOf(r: Return): JuiceCode {
    match r
    case Success => JuiceSuccess
    case Failure(WouldBlock) => JuiceAgain
    case Failure(MessageTooLarge) => JuiceTooLarge
    case Failure(_) => JuiceFailed
  }

  datatype SendStatus = Complete | Blocked | TooLarge

  datatype SendResult = SendResult(status: SendStatus, sentSize: nat)

  datatype BindingError = Detached | InvalidProgress | PartialSend | SendFailed(code: JuiceCode)

  datatype BindingOutcome = Ok(result: SendResult) | Throw(error: BindingError)

  /** translateSendResult: two of its exceptions would be contract violations of libjuice. */
  function TranslateSendResult(code: JuiceCode, size: nat, sentSize: nat): (r: BindingOutcome)
    ensures r.Ok? ==> sentSize <= size && r.result.sentSize == sentSize
    ensures r.Ok? && r.result.status.Complete? ==> sentSize == size
    ensures sentSize <= size && (code == JuiceSuccess ==> sentSize == size)
        ==> r.Ok? || (r.error.SendFailed? && r.error.code == code)
  {
    if sentSize > size then Throw(InvalidProgress)
    else match code
      case JuiceSuccess => if sentSize != size then Throw(PartialSend) else Ok(SendResult(Complete, sentSize))
      case JuiceAgain => Ok(SendResult(Blocked, sentSize))
      case JuiceTooLarge => Ok(SendResult(TooLarge, sentSize))
      case _ => Throw(SendFailed(code))
  }

  /** The group of datagrams that a too-large refusal leaves unsent. */
  ghost function RefusedBy(r: BindingOutcome, rest: seq<Datagram>): seq<seq<Datagram>> {
    if r.Ok? && r.result.status.TooLarge? then [rest] else []
  }

  /** What the transport's answer has to mean: `last` is what the kernel said when it was asked. */
  ghost predicate Answers(r: BindingOutcome, last: Return) {
    && (last == Success <==> r.Ok? && r.result.status.Complete?)
    && (last == Failure(WouldBlock) <==> r.Ok? && r.result.status.Blocked?)
    && (last == Failure(MessageTooLarge) <==> r.Ok? && r.result.status.TooLarge?)
    && (r.Throw? ==> r.error.SendFailed?)
  }

  /** The QUIC connection's handle on its ICE agent. */
  class JuiceBinding {
    var agent: Agent?
    var datagramLimit: nat
    /** What each too-large refusal so far left unsent. */
    ghost var refused: seq<seq<Datagram>>

    constructor ()
      ensures agent == null && datagramLimit == 0 && refused == []
    {
      agent := null;
      datagramLimit := 0;
      refused := [];
    }

    ghost function Footprint(): set<object>
      reads this, agent
    {
      if agent == null then {} else
        {agent.socket as object} + (if agent.hook == null then {} else {agent.hook as object})
    }

    /** One datagram: sent whole, refused for now, or too large for the path. */
    method Send(data: seq<byte>) returns (r: BindingOutcome)
      requires 0 < |data|
      modifies this`refused, Footprint()
      ensures refused == old(refused) + RefusedBy(r, [data])
      ensures agent == null ==> r == Throw(Detached)
      ensures agent != null ==>
        && (r.Ok? ==> (r.result.status.Complete? <==> r.result.sentSize == |data|))
        && (r.Ok? && !r.result.status.Complete? ==> r.result.sentSize == 0)
        && agent.socket.wire == (if r.Ok? && r.result.status.Complete? then old(agent.socket.wire) + [data]
                                 else old(agent.socket.wire))
      // Over the limit the kernel is not asked, and a closed agent asks nobody.
      ensures agent != null && datagramLimit != 0 && |data| > datagramLimit ==>
        r == Ok(SendResult(TooLarge, 0)) && agent.socket.Calls() == old(agent.socket.Calls())
      ensures agent != null && !(datagramLimit != 0 && |data| > datagramLimit) && agent.closed ==>
        r == Throw(SendFailed(JuiceInvalid)) && agent.socket.Calls() == old(agent.socket.Calls())
      ensures agent != null && !(datagramLimit != 0 && |data| > datagramLimit) && !agent.closed ==>
        Answers(r, agent.socket.last) && old(agent.socket.Calls()) < agent.socket.Calls()
      ensures r.Throw? ==> r.error.Detached? || r.error.SendFailed?
    {
      if agent == null {
        return Throw(Detached);
      }
      if datagramLimit != 0 && |data| > datagramLimit {
        refused := refused + [[data]];
        return TranslateSendResult(JuiceTooLarge, |data|, 0);
      }
      var code := JuiceInvalid;
      if !agent.closed {
        var ret := agent.Send(data);
        code := JuiceCodeOf(ret);
      }
      var sentSize := if code == JuiceSuccess then |data| else 0;
      r := TranslateSendResult(code, |data|, sentSize);
      refused := refused + RefusedBy(r, [data]);
    }

    /** Several datagrams: the result is exact about which prefix of them reached the wire, for
        every path through the hook, the kernel's segmentation and the segment loops. */
    method SendAggregate(data: seq<byte>, segment: nat) returns (r: BindingOutcome, ghost reached: nat)
      requires 0 < segment <= |data|
      modifies this`refused, Footprint()
      ensures reached <= |data| && (reached < |data| ==> reached % segment == 0)
      ensures refused == old(refused) + RefusedBy(r, Cut(data[reached..], segment))
      ensures agent == null ==> r == Throw(Detached) && reached == 0
      ensures r.Ok? ==> reached == r.result.sentSize
      ensures agent != null ==>
        && agent.socket.wire == old(agent.socket.wire) + Cut(data[..reached], segment)
        && (r.Ok? ==> Progress(old(agent.socket.wire), agent.socket.wire, data, segment,
                               r.result.sentSize, r.result.status.Complete?))
      ensures agent != null && datagramLimit != 0 && segment > datagramLimit ==>
        r == Ok(SendResult(TooLarge, 0)) && agent.socket.Calls() == old(agent.socket.Calls())
      ensures agent != null && !(datagramLimit != 0 && segment > datagramLimit) && agent.closed ==>
        r == Throw(SendFailed(JuiceInvalid)) && agent.socket.Calls() == old(agent.socket.Calls())
      ensures agent != null && !(datagramLimit != 0 && segment > datagramLimit) && !agent.closed ==>
        Answers(r, agent.socket.last) && old(agent.socket.Calls()) < agent.socket.Calls()
      ensures r.Throw? ==> r.error.Detached? || r.error.SendFailed?
    {
      reached := 0;
      assert data[..0] == [];
      ZeroAligned(segment);
      if agent == null {
        return Throw(Detached), 0;
      }
      if datagramLimit != 0 && segment > datagramLimit {
        assert data[0..] == data;
        refused := refused + [Cut(data, segment)];
        return TranslateSendResult(JuiceTooLarge, |data|, 0), 0;
      }
      var sentSize := 0;
      var code := JuiceInvalid;
      if !agent.closed {
        var ret;
        ret, sentSize := agent.SendAggregate(data, segment);
        code := JuiceCodeOf(ret);
        reached := sentSize;
      }
      r := TranslateSendResult(code, |data|, sentSize);
      refused := refused + RefusedBy(r, Cut(data[reached..], segment));
    }
  }
}
