/** The sending half of a connection: packets written by ngtcp2 are handed to the transport at
    once, and what the transport refuses is kept and retried before anything new is written. */
module TransportSend {
  import opened AggregateSend
  import opened Clock
  import opened Datagrams
  import opened Ngtcp2
  import opened Sequences
  import opened TransmitQueue

  /** What became of one datagram that ngtcp2 wrote: it reached the wire, or it was dropped with
      the rest of its buffer when the path refused it as too large. */
  datatype Fate = Fate(datagram: Datagram, sent: bool)

  ghost function Sent(fates: seq<Fate>): seq<Datagram> {
    if fates == [] then []
    else (if fates[0].sent then [fates[0].datagram] else []) + Sent(fates[1..])
  }

  ghost function Dropped(fates: seq<Fate>): seq<Datagram> {
    if fates == [] then []
    else (if fates[0].sent then [] else [fates[0].datagram]) + Dropped(fates[1..])
  }

  ghost function Written(fates: seq<Fate>): seq<Datagram> {
    if fates == [] then [] else [fates[0].datagram] + Written(fates[1..])
  }

  ghost function Mark(datagrams: seq<Datagram>, sent: bool): seq<Fate> {
    if datagrams == [] then [] else [Fate(datagrams[0], sent)] + Mark(datagrams[1..], sent)
  }

  /** The groups one after the other. */
  ghost function Flatten(groups: seq<seq<Datagram>>): seq<Datagram> {
    if groups == [] then [] else Flatten(groups[..|groups| - 1]) + groups[|groups| - 1]
  }

  lemma FlattenOne(groups: seq<seq<Datagram>>, group: seq<Datagram>)
    ensures Flatten(groups + [group]) == Flatten(groups) + group
  {
    assert (groups + [group])[..|groups|] == groups;
  }

  lemma OneMore(fate: Fate, fates: seq<Fate>)
    ensures Sent([fate] + fates) == (if fate.sent then [fate.datagram] else []) + Sent(fates)
    ensures Dropped([fate] + fates) == (if fate.sent then [] else [fate.datagram]) + Dropped(fates)
    ensures Written([fate] + fates) == [fate.datagram] + Written(fates)
  {
    assert ([fate] + fates)[1..] == fates;
  }

  lemma {:induction false} FatesAppend(a: seq<Fate>, b: seq<Fate>)
    ensures Sent(a + b) == Sent(a) + Sent(b)
    ensures Dropped(a + b) == Dropped(a) + Dropped(b)
    ensures Written(a + b) == Written(a) + Written(b)
  {
    hide Sent; hide Dropped; hide Written;
    if a == [] {
      FatesNone();
      assert a + b == b;
    } else {
      FatesAppend(a[1..], b);
      Uncons(a, b);
      OneMore(a[0], a[1..]);
      OneMore(a[0], a[1..] + b);
    }
  }

  lemma FatesNone()
    ensures Sent([]) == [] && Dropped([]) == [] && Written([]) == []
  {
  }

  lemma {:induction false} MarkMeaning(datagrams: seq<Datagram>, sent: bool)
    ensures Written(Mark(datagrams, sent)) == datagrams
    ensures Sent(Mark(datagrams, sent)) == if sent then datagrams else []
    ensures Dropped(Mark(datagrams, sent)) == if sent then [] else datagrams
  {
    if datagrams != [] {
      MarkMeaning(datagrams[1..], sent);
      assert Mark(datagrams, sent)[1..] == Mark(datagrams[1..], sent);
    }
  }

  /** Recording the fate of a group of datagrams extends the views of the log. */
  lemma MarkAppend(fates: seq<Fate>, datagrams: seq<Datagram>, sent: bool)
    ensures Written(fates + Mark(datagrams, sent)) == Written(fates) + datagrams
    ensures Sent(fates + Mark(datagrams, sent)) == Sent(fates) + (if sent then datagrams else [])
    ensures Dropped(fates + Mark(datagrams, sent)) == Dropped(fates) + (if sent then [] else datagrams)
  {
    FatesAppend(fates, Mark(datagrams, sent));
    MarkMeaning(datagrams, sent);
  }

  /** `whole` is `a` and `b` merged, each in its own order. */
  ghost predicate Merged(a: seq<Datagram>, b: seq<Datagram>, whole: seq<Datagram>)
    decreases |whole|
  {
    if whole == [] then a == [] && b == []
    else
      || (a != [] && a[0] == whole[0] && Merged(a[1..], b, whole[1..]))
      || (b != [] && b[0] == whole[0] && Merged(a, b[1..], whole[1..]))
  }

  lemma {:induction false} FatesMerge(fates: seq<Fate>)
    ensures Merged(Sent(fates), Dropped(fates), Written(fates))
  {
    if fates != [] {
      FatesMerge(fates[1..]);
      assert Written(fates)[1..] == Written(fates[1..]);
      if fates[0].sent {
        assert Sent(fates)[1..] == Sent(fates[1..]);
        assert Dropped(fates) == Dropped(fates[1..]);
      } else {
        assert Dropped(fates)[1..] == Dropped(fates[1..]);
        assert Sent(fates) == Sent(fates[1..]);
      }
    }
  }

  lemma {:induction false} MergedAlone(a: seq<Datagram>, whole: seq<Datagram>)
    requires Merged(a, [], whole)
    ensures a == whole
  {
    if whole != [] {
      MergedAlone(a[1..], whole[1..]);
      assert a == [a[0]] + a[1..] && whole == [whole[0]] + whole[1..];
    }
  }

  ghost predicate Subsequence(part: seq<Datagram>, whole: seq<Datagram>)
    decreases |whole|
  {
    if part == [] then true
    else if whole == [] then false
    else (part[0] == whole[0] && Subsequence(part[1..], whole[1..])) || Subsequence(part, whole[1..])
  }

  lemma {:induction false} MergedPart(a: seq<Datagram>, b: seq<Datagram>, whole: seq<Datagram>, more: seq<Datagram>)
    requires Merged(a, b, whole)
    ensures Subsequence(a, whole + more)
    decreases |whole|
  {
    if whole != [] {
      assert (whole + more)[1..] == whole[1..] + more;
      if a != [] && a[0] == whole[0] && Merged(a[1..], b, whole[1..]) {
        MergedPart(a[1..], b, whole[1..], more);
      } else {
        MergedPart(a, b[1..], whole[1..], more);
      }
    }
  }

  const SEND_RETRY_DELAY_NS: nat := 1_000_000
  const MAX_PACKETS_PER_FLUSH: nat := 512
  const SEND_BUFFER_SIZE: nat := 64 * 1024

  datatype PendingSend = PendingSend(data: seq<byte>, offset: nat, segmentSize: nat, packetCount: nat,
                                     logicalBytes: nat, aggregate: bool)
  {
    predicate HasRemainingData() {
      offset < |data|
    }

    function RemainingSize(): (size: nat)
      ensures size > 0 <==> HasRemainingData()
    {
      if HasRemainingData() then |data| - offset else 0
    }

    function Remaining(): (rest: seq<byte>)
      ensures |rest| == RemainingSize()
    {
      if HasRemainingData() then data[offset..] else []
    }

    /** Where a retry stands after `sent` more bytes. */
    lemma AfterSkip(sent: nat)
      requires HasRemainingData() && sent <= RemainingSize()
      ensures var after := this.(offset := offset + sent);
              && after.Remaining() == Remaining()[sent..] && after.RemainingSize() == RemainingSize() - sent
              && (after.HasRemainingData() <==> sent < RemainingSize())
    {
    }
  }

  const NO_PENDING_SEND := PendingSend([], 0, 0, 0, 0, false)

  datatype SendError =
    | NewSendWhilePending
    | AlreadyPending
    | NoPendingBytes
    | NotSegmentAligned
    | CompletedWithPending
    | BlockedWithoutPending
    | BindingThrew(error: BindingError)
    | WriterFailed

  datatype Result<+T> = Value(value: T) | Raise(error: SendError)

  datatype TransportSendOutcome = SendComplete | SendBlocked

  /** What is handed to the transport at once: packets of one size with a shorter last one at most.
      A segment size of 0 stands for the whole buffer. */
  datatype PacketBuffer = PacketBuffer(data: seq<byte>, segmentSize: nat, packetCount: nat) {
    function EffectiveSegment(): (segment: nat)
      ensures data != [] ==> segment > 0
    {
      if segmentSize == 0 then |data| else segmentSize
    }

    ghost function Datagrams(): seq<Datagram> {
      if data == [] then [] else Cut(data, EffectiveSegment())
    }
  }

  /** A prefix that ends at a boundary of the effective segment size min(segment, size) is cut the
      same way by the nominal segment size, and so is the rest. */
  lemma EffectiveBoundary(data: seq<byte>, segment: nat, effective: nat, reached: nat)
    requires 0 < segment && 0 < |data|
    requires effective == if segment < |data| then segment else |data|
    requires reached <= |data| && (reached < |data| ==> reached % effective == 0)
    ensures Cut(data[..reached], effective) == Cut(data[..reached], segment)
    ensures Cut(data[reached..], effective) == Cut(data[reached..], segment)
    ensures reached < |data| ==> reached % segment == 0
  {
    if effective != segment {
      CutOversized(data, segment, effective);
      if reached < |data| {
        SmallMultiple(reached, |data|);
        SmallMultiple(0, segment);
        WholeSlice(data);
      } else {
        WholeSlice(data);
      }
    }
  }

  lemma SmallMultiple(n: nat, d: nat)
    requires n < d
    ensures n % d == 0 <==> n == 0
  {
    DivisionUnique(n, d, 0, n);
  }

  /** Cutting what is left after an interrupted send continues the original boundaries. */
  lemma CutRemainder(data: seq<byte>, segment: nat, sent: nat)
    requires 0 < segment && sent <= |data|
    requires sent < |data| ==> sent % segment == 0
    ensures Cut(data, segment) == Cut(data[..sent], segment) + Cut(data[sent..], segment)
  {
    if sent == |data| {
      assert data[..sent] == data && data[sent..] == [];
    } else {
      CutAtBoundary(data, segment, sent);
    }
  }

  lemma CutNothing(segment: nat)
    requires 0 < segment
    ensures Cut([], segment) == []
  {
  }

  /** A packet glued behind a buffer of whole segments is one more datagram. */
  lemma GluePacket(data: seq<byte>, segment: nat, packet: Datagram)
    requires 0 < |packet| <= segment && |data| % segment == 0
    ensures Cut(data + packet, segment) == Cut(data, segment) + [packet]
    ensures |packet| == segment ==> |data + packet| % segment == 0
  {
    CutAtBoundary(data + packet, segment, |data|);
    Front(data, packet);
    DivideStep(|data|, segment);
  }

  class SendSide {
    const binding: JuiceBinding
    const protocol: ProtocolState
    const clock: SteadyClock
    ghost const socket: Socket
    var pending: PendingSend
    var sendRetryExpiry: Deadline
    var tooLargeSendDrops: nat
    var aggregatePackets: bool
    var sendOperationPending: bool
    ghost var fates: seq<Fate>

    constructor (binding: JuiceBinding, protocol: ProtocolState, clock: SteadyClock, aggregatePackets: bool)
      requires binding.agent != null && binding.agent.socket.wire == [] && binding.refused == []
      requires protocol.Valid() && protocol.conn.packets == []
      ensures this.binding == binding && this.protocol == protocol && this.clock == clock && Consistent() && Armed()
    {
      this.binding, this.protocol, this.clock := binding, protocol, clock;
      this.socket := binding.agent.socket;
      pending := NO_PENDING_SEND;
      sendRetryExpiry := Never;
      tooLargeSendDrops := 0;
      this.aggregatePackets := aggregatePackets;
      sendOperationPending := false;
      fates := [];
    }

    /** Every packet that ngtcp2 wrote. */
    ghost function Packets(): seq<Datagram>
      reads protocol.conn
    {
      protocol.conn.packets
    }

    /** The datagrams still to be retried. */
    ghost function PendingDatagrams(): seq<Datagram>
      reads this`pending
    {
      if pending.HasRemainingData() && pending.segmentSize > 0
      then Cut(pending.Remaining(), pending.segmentSize) else []
    }

    ghost predicate Attached()
      reads binding, binding.agent
    {
      binding.agent != null ==> binding.agent.socket == socket
    }

    /** The log is true: the datagrams marked as sent are those on the wire, the others are the
        groups that a too-large refusal left unsent, and together they begin what ngtcp2 wrote. */
    ghost predicate Logged()
      reads this`fates, binding, binding.agent, socket, protocol, protocol.conn
    {
      && Attached() && protocol.Valid()
      && Sent(fates) == socket.wire && Dropped(fates) == Flatten(binding.refused)
      && Written(fates) <= Packets()
    }

    /** And every refusal is counted.  This survives even a failing send. */
    ghost predicate Faithful()
      reads this`fates, this`tooLargeSendDrops, binding, binding.agent, socket, protocol, protocol.conn
    {
      Logged() && |binding.refused| == tooLargeSendDrops
    }

    /** Between two sends every packet is accounted for once: logged, or waiting in the retry buffer
        with its original boundaries; a retry deadline implies waiting data. */
    ghost predicate Consistent()
      reads this, binding, binding.agent, socket, protocol, protocol.conn
    {
      && Faithful()
      && Written(fates) + PendingDatagrams() == Packets()
      && (pending.HasRemainingData() ==>
           pending.segmentSize > 0 && (pending.aggregate || pending.RemainingSize() <= pending.segmentSize))
      && (sendRetryExpiry.At? ==> pending.HasRemainingData())
    }

    /** After a flush: waiting bytes are retried one retry delay after the last look at the clock, and
        nothing else has a deadline. */
    ghost predicate Scheduled()
      reads this, clock
    {
      sendRetryExpiry == if pending.HasRemainingData() then At(clock.now + SEND_RETRY_DELAY_NS) else Never
    }

    /** Why a send may throw: ngtcp2 failed, or the agent is gone or closed, or the kernel answered
        with an error that is neither "would block" nor "too large".  Everything else would mean that
        libjuice or the connection itself broke the progress contract. */
    ghost predicate Justified(error: SendError, offers: seq<Offer>, calls: nat)
      reads protocol.conn, binding, binding.agent, socket
    {
      match error
      case WriterFailed => Asked(offers) && protocol.conn.last.Failed?
      case BindingThrew(e) => TransportFailed(e, calls)
      case _ => false
    }

    ghost predicate TransportFailed(error: BindingError, calls: nat)
      reads binding, binding.agent, socket
    {
      match error
      case Detached => binding.agent == null
      case SendFailed(_) =>
        && binding.agent != null
        && (binding.agent.closed
            || (calls < socket.Calls() && socket.last.Failure?
                && socket.last.errno != WouldBlock && socket.last.errno != MessageTooLarge))
      case _ => false
    }

    ghost function Calls(): nat
      reads socket
    {
      socket.Calls()
    }

    /** ngtcp2 had nothing to send when it was last asked. */
    ghost predicate Dry()
      reads protocol.conn
    {
      protocol.conn.last == Refused || protocol.conn.last == Gave(0)
    }

    /** Waiting data is never stranded: a deadline is set or a flush operation is queued. */
    ghost predicate Armed()
      reads this
    {
      pending.HasRemainingData() ==> sendRetryExpiry.At? || sendOperationPending
    }

    /** The wire, the groups refused as too large and the bytes waiting for a retry are all that
        ngtcp2 wrote, each packet once, unchanged and in order.  So the wire is part of what was
        written, and all of it but the waiting bytes if nothing was refused. */
    lemma WireIsWhatWasWritten()
      requires Consistent()
      ensures exists settled :: settled + PendingDatagrams() == Packets()
                             && Merged(socket.wire, Flatten(binding.refused), settled)
      ensures Subsequence(socket.wire, Packets())
      ensures tooLargeSendDrops == 0 ==> socket.wire + PendingDatagrams() == Packets()
    {
      FatesMerge(fates);
      MergedPart(socket.wire, Flatten(binding.refused), Written(fates), PendingDatagrams());
      if tooLargeSendDrops == 0 {
        MergedAlone(socket.wire, Written(fates));
      }
    }

    method SendTransportOnce(data: seq<byte>, segmentSize: nat, aggregate: bool)
      returns (r: BindingOutcome, ghost reached: nat)
      requires Attached() && 0 < |data| && 0 < segmentSize
      requires aggregate || |data| <= segmentSize
      modifies binding`refused, binding.Footprint()
      ensures Attached() && reached <= |data|
      ensures socket.wire == old(socket.wire) + Cut(data[..reached], segmentSize)
      ensures binding.refused == old(binding.refused) + RefusedBy(r, Cut(data[reached..], segmentSize))
      ensures reached < |data| ==> reached % segmentSize == 0
      ensures r.Ok? ==> reached == r.result.sentSize && (r.result.status.Complete? ==> reached == |data|)
      ensures r.Ok? && r.result.status.Blocked? ==> reached < |data|
      ensures r.Throw? ==> TransportFailed(r.error, old(Calls()))
      ensures old(Calls()) <= Calls()
    {
      reached := 0;
      WholeSlice(data);
      ZeroAligned(segmentSize);
      if aggregate {
        var effective := if segmentSize < |data| then segmentSize else |data|;
        r, reached := binding.SendAggregate(data, effective);
        EffectiveBoundary(data, segmentSize, effective, reached);
      } else {
        r := binding.Send(data);
        if r.Ok? && r.result.status.Complete? {
          reached := |data|;
        }
      }
    }

    method ScheduleSendRetry()
      modifies this`sendRetryExpiry, clock
      ensures sendRetryExpiry == At(clock.now + SEND_RETRY_DELAY_NS) && old(clock.now) <= clock.now
    {
      var now := clock.Read();
      sendRetryExpiry := At(now + SEND_RETRY_DELAY_NS);
    }

    ghost method Record(datagrams: seq<Datagram>, sent: bool)
      modifies this`fates
      ensures Written(fates) == Written(old(fates)) + datagrams
      ensures Sent(fates) == Sent(old(fates)) + (if sent then datagrams else [])
      ensures Dropped(fates) == Dropped(old(fates)) + (if sent then [] else datagrams)
    {
      MarkAppend(fates, datagrams, sent);
      fates := fates + Mark(datagrams, sent);
    }

    /** One attempt, logged: the datagrams that reached the wire, and those a too-large refusal left
        unsent.  What is neither is still to be sent. */
    method SendAndRecord(data: seq<byte>, segmentSize: nat, aggregate: bool)
      returns (r: BindingOutcome, ghost reached: nat)
      requires 0 < |data| && 0 < segmentSize && (aggregate || |data| <= segmentSize)
      requires Faithful() && Written(fates) + Cut(data, segmentSize) == Packets()
      modifies this`fates, binding`refused, binding.Footprint()
      ensures Logged() && old(socket.wire) <= socket.wire && Written(old(fates)) <= Written(fates)
      ensures |binding.refused| == tooLargeSendDrops + (if r.Ok? && r.result.status.TooLarge? then 1 else 0)
      ensures reached <= |data| && (reached < |data| ==> reached % segmentSize == 0)
      ensures Written(fates) + (if r.Ok? && r.result.status.TooLarge? then [] else Cut(data[reached..], segmentSize))
           == Packets()
      ensures r.Ok? ==> reached == r.result.sentSize && (r.result.status.Complete? ==> reached == |data|)
      ensures r.Ok? && r.result.status.Blocked? ==> reached < |data|
      ensures r.Throw? ==> TransportFailed(r.error, old(Calls()))
      ensures old(Calls()) <= Calls()
    {
      hide Sent; hide Written; hide Dropped; hide Cut; hide Flatten;
      r, reached := SendTransportOnce(data, segmentSize, aggregate);
      ghost var first, rest := Cut(data[..reached], segmentSize), Cut(data[reached..], segmentSize);
      CutRemainder(data, segmentSize, reached);
      Regroup(Written(fates), first, rest);
      Record(first, true);
      assert old(binding.refused) + [] == old(binding.refused);
      assert Dropped(old(fates)) + [] == Dropped(old(fates));
      if r.Ok? && r.result.status.TooLarge? {
        FlattenOne(old(binding.refused), rest);
        Record(rest, false);
      }
    }

    /** The three exceptions are the ways the transport could break the progress contract. */
    method RetainPendingTransportSend(data: seq<byte>, sentSize: nat, segmentSize: nat, packetCount: nat,
                                      aggregate: bool) returns (r: Result<()>)
      requires 0 < segmentSize
      modifies this`pending, this`sendRetryExpiry, clock
      ensures r.Value? <==> (!old(pending).HasRemainingData() && sentSize < |data|
                             && (aggregate && sentSize != 0 ==> sentSize % segmentSize == 0))
      ensures r.Value? ==> sendRetryExpiry == At(clock.now + SEND_RETRY_DELAY_NS)
      ensures r.Value? ==>
        pending == PendingSend(data[sentSize..], 0, segmentSize, packetCount, |data|, aggregate)
      ensures r.Raise? ==> pending == old(pending) && sendRetryExpiry == old(sendRetryExpiry)
    {
      if pending.HasRemainingData() {
        return Raise(AlreadyPending);
      }
      if sentSize >= |data| {
        return Raise(NoPendingBytes);
      }
      if aggregate && sentSize != 0 && sentSize % segmentSize != 0 {
        return Raise(NotSegmentAligned);
      }
      pending := PendingSend(data[sentSize..], 0, segmentSize, packetCount, |data|, aggregate);
      ScheduleSendRetry();
      r := Value(());
    }

    /** A buffer ngtcp2 just wrote.  Its datagrams reach the wire, wait for a retry, or are dropped
        as a group at a too-large refusal. */
    method SendTransportBuffer(data: seq<byte>, segmentSize: nat, packetCount: nat, aggregate: bool)
      returns (r: Result<TransportSendOutcome>)
      requires 0 < |data| && 0 < segmentSize && (aggregate || |data| <= segmentSize)
      requires Faithful() && !pending.HasRemainingData() && sendRetryExpiry.Never?
      requires Written(fates) + Cut(data, segmentSize) == Packets()
      modifies this`pending, this`sendRetryExpiry, this`tooLargeSendDrops, this`fates, clock,
               binding`refused, binding.Footprint()
      ensures Faithful() && old(socket.wire) <= socket.wire && Written(old(fates)) <= Written(fates)
      ensures r.Raise? ==> Justified(r.error, old(Offers()), old(Calls()))
      ensures old(Calls()) <= Calls()
      ensures r.Value? ==> Consistent() && (r.value.SendBlocked? <==> pending.HasRemainingData())
      ensures r.Value? ==> Scheduled()
    {
      hide Sent; hide Written; hide Dropped; hide Flatten;
      if pending.HasRemainingData() {
        return Raise(NewSendWhilePending);
      }
      var sent, reached := SendAndRecord(data, segmentSize, aggregate);
      if sent.Throw? {
        return Raise(BindingThrew(sent.error));
      }
      var result := sent.result;
      match result.status {
        case Complete =>
          assert data[reached..] == [];
          sendRetryExpiry := Never;
          r := Value(SendComplete);
        case TooLarge =>
          tooLargeSendDrops := tooLargeSendDrops + 1;
          sendRetryExpiry := Never;
          r := Value(SendComplete);
        case Blocked =>
          var retained := RetainPendingTransportSend(data, result.sentSize, segmentSize, packetCount, aggregate);
          // None of the three exceptions can be thrown here.
          assert retained.Value?;
          assert pending.Remaining() == data[reached..];
          r := Value(SendBlocked);
      }
    }

    /** The retry of what an earlier send left over.  Its data is the old data without the reported
        prefix, so the datagram boundaries stay those ngtcp2 chose. */
    method FlushPendingTransportSend() returns (r: Result<TransportSendOutcome>)
      requires Consistent()
      modifies this`pending, this`sendRetryExpiry, this`tooLargeSendDrops, this`fates, clock,
               binding`refused, binding.Footprint()
      ensures Faithful() && old(socket.wire) <= socket.wire && Written(old(fates)) <= Written(fates)
      ensures r.Raise? ==> Justified(r.error, old(Offers()), old(Calls()))
      ensures old(Calls()) <= Calls()
      ensures r.Value? ==> Consistent() && (r.value.SendBlocked? <==> pending.HasRemainingData())
      ensures r.Value? ==> Scheduled()
    {
      hide Sent; hide Written; hide Dropped; hide Flatten; hide Cut; hide PendingSend.Remaining;
      hide SendSide.TransportFailed; hide SendSide.Attached; hide ProtocolState.Valid;
      if !pending.HasRemainingData() {
        return Value(SendComplete);
      }
      var data, segmentSize := pending.Remaining(), pending.segmentSize;
      var sent, reached := SendAndRecord(data, segmentSize, pending.aggregate);
      if sent.Throw? {
        return Raise(BindingThrew(sent.error));
      }
      var result := sent.result;
      pending.AfterSkip(result.sentSize);
      pending := pending.(offset := pending.offset + result.sentSize);
      CutNothing(segmentSize);
      match result.status {
        case TooLarge =>
          tooLargeSendDrops := tooLargeSendDrops + 1;
          pending := NO_PENDING_SEND;
          sendRetryExpiry := Never;
          r := Value(SendComplete);
        case Complete =>
          if pending.HasRemainingData() {
            return Raise(CompletedWithPending);
          }
          pending := NO_PENDING_SEND;
          sendRetryExpiry := Never;
          r := Value(SendComplete);
        case Blocked =>
          if !pending.HasRemainingData() {
            return Raise(BlockedWithoutPending);
          }
          ScheduleSendRetry();
          r := Value(SendBlocked);
      }
    }

    ghost function Offers(): seq<Offer>
      reads protocol.conn
    {
      protocol.conn.offers
    }

    /** ngtcp2 was asked for a packet since. */
    ghost predicate Asked(before: seq<Offer>)
      reads protocol.conn
    {
      before <= Offers() && |before| < |Offers()|
    }

    /** One packet of its own. */
    method WriteSingle() returns (r: Result<PacketBuffer>)
      requires protocol.Valid()
      modifies protocol`txChunks, protocol`txSubmittedOffset, protocol`txFinSubmitted,
               protocol`aggregatePacketCount, protocol.conn
      ensures protocol.Valid() && old(protocol.txSubmittedOffset) <= protocol.txSubmittedOffset
      ensures old(protocol.txFinSubmitted) ==> protocol.txFinSubmitted
      ensures Asked(old(Offers()))
      ensures r.Raise? <==> protocol.conn.last.Failed?
      ensures r.Value? && r.value.data == [] ==> Dry()
      ensures if r.Raise? then r.error.WriterFailed? && old(Packets()) <= Packets()
              else Packets() == old(Packets()) + r.value.Datagrams() && r.value.packetCount == |r.value.Datagrams()| <= 1
                   && |r.value.data| == r.value.segmentSize
    {
      var outcome, packet, _ := protocol.WriteOnePacket(SEND_BUFFER_SIZE, false);
      if outcome.WriteFailed? {
        return Raise(WriterFailed);
      }
      r := Value(PacketBuffer(packet, |packet|, if packet == [] then 0 else 1));
    }

    /** ngtcp2's aggregate write: it asks for one packet at a time, none longer than the first, and
        stops after a shorter one, when there is none, at the budget, or earlier.  The segment size
        may be left at 0 for a single packet. */
    method WriteAggregate(budget: nat) returns (r: Result<PacketBuffer>)
      requires protocol.Valid() && 0 < budget
      modifies protocol`txChunks, protocol`txSubmittedOffset, protocol`txFinSubmitted,
               protocol`aggregatePacketCount, protocol.conn
      ensures protocol.Valid() && old(protocol.txSubmittedOffset) <= protocol.txSubmittedOffset
      ensures old(protocol.txFinSubmitted) ==> protocol.txFinSubmitted
      ensures Asked(old(Offers()))
      ensures r.Raise? <==> protocol.conn.last.Failed?
      ensures r.Value? && r.value.data == [] ==> Dry()
      ensures if r.Raise? then r.error.WriterFailed? && old(Packets()) <= Packets()
              else Packets() == old(Packets()) + r.value.Datagrams()
                   && r.value.packetCount == |r.value.Datagrams()| <= budget
    {
      var packetCountBefore := protocol.aggregatePacketCount;
      var data, segment, full := [], 0, true;
      ghost var before := Packets();
      while full && protocol.aggregatePacketCount - packetCountBefore < budget
        invariant protocol.Valid() && old(protocol.txSubmittedOffset) <= protocol.txSubmittedOffset
        invariant old(protocol.txFinSubmitted) ==> protocol.txFinSubmitted
        invariant packetCountBefore <= protocol.aggregatePacketCount <= packetCountBefore + budget
        invariant GluedSoFar(data, segment) && (full ==> Whole(data, segment))
        invariant Packets() == before + Glued(data, segment)
        invariant old(Offers()) <= Offers() && ((full && Glued(data, segment) == []) || Asked(old(Offers())))
        invariant Asked(old(Offers())) ==> !protocol.conn.last.Failed? && (Glued(data, segment) == [] ==> Dry())
        invariant protocol.aggregatePacketCount == packetCountBefore + |Glued(data, segment)|
        decreases full, packetCountBefore + budget - protocol.aggregatePacketCount
      {
        ghost var glued := Glued(data, segment);
        var ok;
        ghost var added;
        ok, data, segment, full, added := GlueNext(data, segment);
        if !ok {
          return Raise(WriterFailed);
        }
        Regroup(before, glued, added);
        if full {
          var stop: bool := *;
          full := !stop;
        }
      }
      if 0 < |data| <= segment {
        var unset: bool := *;
        segment := if unset then 0 else segment;
      }
      r := Value(PacketBuffer(data, segment, protocol.aggregatePacketCount - packetCountBefore));
    }

    /** The next packet of an aggregate write; `full` if another may follow. */
    method GlueNext(data: seq<byte>, segment: nat)
      returns (ok: bool, longer: seq<byte>, size: nat, full: bool, ghost added: seq<Datagram>)
      requires protocol.Valid() && GluedSoFar(data, segment) && Whole(data, segment)
      modifies protocol`txChunks, protocol`txSubmittedOffset, protocol`txFinSubmitted,
               protocol`aggregatePacketCount, protocol.conn
      ensures protocol.Valid() && old(protocol.txSubmittedOffset) <= protocol.txSubmittedOffset
      ensures old(protocol.txFinSubmitted) ==> protocol.txFinSubmitted
      ensures Asked(old(Offers()))
      ensures Packets() == old(Packets()) + added && |added| <= 1
      ensures protocol.aggregatePacketCount == old(protocol.aggregatePacketCount) + |added|
      ensures GluedSoFar(longer, size) && Glued(longer, size) == Glued(data, segment) + added
      ensures full ==> Whole(longer, size) && added != []
      ensures (ok <==> !protocol.conn.last.Failed?) && (ok && added == [] ==> Dry())
    {
      var outcome, packet, _ := protocol.WriteOnePacket(if segment == 0 then SEND_BUFFER_SIZE else segment, true);
      added := OnePacket(packet);
      longer, size, full := data, segment, false;
      ok := outcome.Wrote?;
      if packet != [] {
        size := if segment == 0 then |packet| else segment;
        if segment > 0 {
          GluePacket(data, segment, packet);
        } else {
          FirstPacket(packet);
        }
        longer, full := data + packet, |packet| == size;
      }
    }

    /** Asks ngtcp2 for the next packets of a flush and hands them over; no packet means it has
        nothing to send. */
    method WriteNext(budget: nat) returns (r: Result<TransportSendOutcome>, count: nat)
      requires Consistent() && !pending.HasRemainingData() && 0 < budget
      modifies this`pending, this`sendRetryExpiry, this`tooLargeSendDrops, this`fates, clock, binding`refused, binding.Footprint(),
               protocol`txChunks, protocol`txSubmittedOffset, protocol`txFinSubmitted,
               protocol`aggregatePacketCount, protocol.conn
      ensures Faithful() && old(socket.wire) <= socket.wire && Written(old(fates)) <= Written(fates)
      ensures old(Packets()) <= Packets() && protocol.Valid() && Advances(old(Progress()))
      ensures Asked(old(Offers()))
      ensures r.Raise? ==> Justified(r.error, old(Offers()), old(Calls()))
      ensures old(Calls()) <= Calls()
      ensures r.Value? ==> Consistent() && (r.value.SendBlocked? <==> pending.HasRemainingData())
      ensures r.Value? ==> Scheduled()
      ensures r.Value? ==> |Packets()| == |old(Packets())| + count && count <= budget
      ensures r.Value? && count == 0 ==> r.value.SendComplete? && Dry()
    {
      hide Sent; hide Written; hide Dropped; hide Flatten; hide Cut;
      hide SendSide.TransportFailed; hide SendSide.Attached; hide ProtocolState.Valid;
      count := 0;
      var buffer;
      if aggregatePackets {
        buffer := WriteAggregate(budget);
      } else {
        buffer := WriteSingle();
      }
      if buffer.Raise? {
        return Raise(buffer.error), 0;
      }
      count := buffer.value.packetCount;
      if buffer.value.data == [] || count == 0 {
        NoPackets(buffer.value);
        return Value(SendComplete), 0;
      }
      r := SendTransportBuffer(buffer.value.data, buffer.value.EffectiveSegment(), count, aggregatePackets);
    }

    /** How far ngtcp2 has come with the stream. */
    ghost function Progress(): (nat, bool)
      reads protocol
    {
      (protocol.txSubmittedOffset, protocol.txFinSubmitted)
    }

    ghost predicate Advances(before: (nat, bool))
      reads protocol
    {
      before.0 <= protocol.txSubmittedOffset && (before.1 ==> protocol.txFinSubmitted)
    }

    /** The packet loop of a flush. */
    method WritePackets() returns (r: Result<bool>)
      requires Consistent() && !pending.HasRemainingData()
      modifies this`pending, this`sendRetryExpiry, this`tooLargeSendDrops, this`fates, clock, binding`refused, binding.Footprint(),
               protocol`txChunks, protocol`txSubmittedOffset, protocol`txFinSubmitted,
               protocol`aggregatePacketCount, protocol.conn
      ensures Faithful() && old(socket.wire) <= socket.wire && old(Packets()) <= Packets()
      ensures old(Packets()) <= Written(fates) && protocol.Valid() && Advances(old(Progress()))
      ensures Asked(old(Offers()))
      ensures r.Raise? ==> Justified(r.error, old(Offers()), old(Calls()))
      ensures old(Calls()) <= Calls()
      ensures r.Value? ==> Consistent() && Scheduled()
      ensures r.Value? ==> |Packets()| <= |old(Packets())| + MAX_PACKETS_PER_FLUSH
      // Another flush is needed exactly when the budget ended this one; otherwise the transport is
      // blocked or ngtcp2 has nothing more to send.
      ensures r.Value? ==>
        (r.value <==> |Packets()| == |old(Packets())| + MAX_PACKETS_PER_FLUSH && !pending.HasRemainingData())
      ensures r == Value(false) ==> pending.HasRemainingData() || Dry()
    {
      hide Sent; hide Written; hide Dropped; hide Flatten; hide Cut;
      var packets := 0;
      assert Written(fates) + [] == Written(fates);
      while packets < MAX_PACKETS_PER_FLUSH
        invariant 0 <= packets <= MAX_PACKETS_PER_FLUSH
        invariant Consistent() && !pending.HasRemainingData() && old(Calls()) <= Calls()
        invariant old(socket.wire) <= socket.wire && old(Packets()) <= Packets()
        invariant |Packets()| == |old(Packets())| + packets
        invariant old(Offers()) <= Offers() && (packets > 0 ==> Asked(old(Offers())))
        invariant old(Packets()) <= Written(fates) && protocol.Valid() && Advances(old(Progress()))
      {
        var outcome, count := WriteNext(MAX_PACKETS_PER_FLUSH - packets);
        if outcome.Raise? {
          return Raise(outcome.error);
        }
        packets := packets + count;
        if outcome.value.SendBlocked? {
          return Value(false);
        }
        if count == 0 {
          break;
        }
      }
      r := Value(packets == MAX_PACKETS_PER_FLUSH);
    }

    /** One flush.  Retry data goes first and ngtcp2 is asked for nothing new while any is left; at
        most 512 packets are written, and `true` asks for another flush exactly when that budget is
        used up with nothing blocked. */
    method FlushPackets() returns (r: Result<bool>)
      requires Consistent()
      modifies this`pending, this`sendRetryExpiry, this`tooLargeSendDrops, this`fates, clock, binding`refused, binding.Footprint(),
               protocol`txChunks, protocol`txSubmittedOffset, protocol`txFinSubmitted,
               protocol`aggregatePacketCount, protocol.conn
      ensures Faithful() && old(socket.wire) <= socket.wire && old(Packets()) <= Packets()
      ensures protocol.Valid() && Advances(old(Progress()))
      ensures old(Offers()) <= Offers()
      // ngtcp2 is always asked, unless there is no connection or retry bytes are in the way.
      ensures r.Value? && protocol.connected && !pending.HasRemainingData() ==> Asked(old(Offers()))
      ensures r.Raise? ==> Justified(r.error, old(Offers()), old(Calls()))
      ensures old(Calls()) <= Calls()
      ensures r.Value? ==> Consistent()
      ensures r.Value? && protocol.connected ==> Scheduled()
      ensures r.Value? ==> |Packets()| <= |old(Packets())| + MAX_PACKETS_PER_FLUSH
      ensures r.Value? && protocol.connected ==>
        (r.value <==> |Packets()| == |old(Packets())| + MAX_PACKETS_PER_FLUSH && !pending.HasRemainingData())
      ensures r == Value(false) && protocol.connected ==> pending.HasRemainingData() || Dry()
      ensures !protocol.connected ==> r == Value(false) && Packets() == old(Packets()) && pending == old(pending)
      // A new packet is written only after the fate of every earlier one is settled.
      ensures Packets() != old(Packets()) ==> old(Packets()) <= Written(fates)
    {
      hide Sent; hide Written; hide Dropped; hide Flatten; hide Cut;
      if !protocol.connected {
        return Value(false);
      }
      var retried := FlushPendingTransportSend();
      if retried.Raise? {
        return Raise(retried.error);
      }
      if retried.value.SendBlocked? {
        return Value(false);
      }
      r := WritePackets();
    }

    method QueueSendFlush() returns (queued: bool)
      modifies this`sendOperationPending
      ensures sendOperationPending && (queued <==> !old(sendOperationPending))
    {
      queued := !sendOperationPending;
      sendOperationPending := true;
    }

    /** The FlushSend operation: blocked data leaves the flush with a retry deadline, and an
        exhausted budget, which leaves nothing blocked, with another FlushSend queued. */
    method ProcessSendFlush() returns (r: Result<bool>)
      requires Consistent() && Armed()
      modifies this`sendOperationPending, this`pending, this`sendRetryExpiry, this`tooLargeSendDrops, this`fates, clock, binding`refused, binding.Footprint(),
               protocol`txChunks, protocol`txSubmittedOffset, protocol`txFinSubmitted,
               protocol`aggregatePacketCount, protocol.conn
      ensures Faithful() && old(socket.wire) <= socket.wire && old(Packets()) <= Packets()
      ensures protocol.Valid() && Advances(old(Progress()))
      ensures r.Raise? ==> Justified(r.error, old(Offers()), old(Calls()))
      ensures old(Calls()) <= Calls()
      ensures r.Value? ==> Consistent() && (sendOperationPending <==> r.value)
      ensures r.Value? && protocol.connected ==> Armed() && Scheduled()
      ensures r.Value? && protocol.connected ==>
        (r.value <==> |Packets()| == |old(Packets())| + MAX_PACKETS_PER_FLUSH && !pending.HasRemainingData())
      ensures r == Value(false) && protocol.connected ==> pending.HasRemainingData() || Dry()
      ensures !protocol.connected ==>
        r == Value(false) && Packets() == old(Packets()) && Progress() == old(Progress())
      ensures !protocol.connected ==> pending == old(pending) && sendRetryExpiry == old(sendRetryExpiry)
    {
      hide Sent; hide Written; hide Dropped; hide Flatten; hide Cut;
      sendOperationPending := false;
      if !protocol.connected {
        return Value(false);
      }
      r := FlushPackets();
      if r.Value? && r.value {
        var queued := QueueSendFlush();
      }
    }

    /** The TimerExpired operation.  A retry whose time has come trades its deadline for a queued
        flush, so the waiting data stays armed; a later deadline is left alone.  `handled` is ngtcp2's
        answer to its own expiry. */
    method ProcessTimer(protocolExpiry: Deadline, handled: bool) returns (r: Result<()>)
      requires Consistent() && Armed()
      modifies this`sendRetryExpiry, this`sendOperationPending, clock
      ensures old(clock.now) <= clock.now && (r.Value? ==> Consistent() && Armed())
      ensures old(sendRetryExpiry).At? && old(sendRetryExpiry).time <= clock.now ==> sendRetryExpiry == Never
      ensures old(sendRetryExpiry).At? && old(sendRetryExpiry).time > clock.now ==> sendRetryExpiry == old(sendRetryExpiry)
      ensures old(sendRetryExpiry).Never? ==> sendRetryExpiry == Never
      ensures var retryDue := old(sendRetryExpiry).At? && old(sendRetryExpiry).time <= clock.now;
              var protocolDue := protocol.connected && protocolExpiry.At? && protocolExpiry.time <= clock.now;
              && (r.Raise? <==> protocolDue && !handled)
              && (r.Value? ==> (sendOperationPending <==> old(sendOperationPending) || retryDue || protocolDue))
    {
      hide Sent; hide Written; hide Dropped; hide Flatten; hide Cut;
      var now := clock.Read();
      var sendRetryDue := sendRetryExpiry.Due(now);
      if sendRetryDue {
        sendRetryExpiry := Never;
      }
      if protocol.connected && protocolExpiry.Due(now) {
        if !handled {
          return Raise(WriterFailed);
        }
        sendRetryDue := true;
      }
      if sendRetryDue {
        var queued := QueueSendFlush();
      }
      r := Value(());
    }
  }

  lemma NoPackets(buffer: PacketBuffer)
    requires buffer.packetCount == |buffer.Datagrams()|
    ensures buffer.data == [] || buffer.packetCount == 0 ==> buffer.data == [] && buffer.Datagrams() == []
  {
  }

  ghost predicate GluedSoFar(data: seq<byte>, segment: nat) {
    data == [] <==> segment == 0
  }

  /** Only whole segments, so that one more can follow. */
  ghost predicate Whole(data: seq<byte>, segment: nat) {
    segment > 0 ==> |data| % segment == 0
  }

  ghost function Glued(data: seq<byte>, segment: nat): seq<Datagram> {
    if segment == 0 then [] else Cut(data, segment)
  }

  lemma FirstPacket(packet: Datagram)
    requires packet != []
    ensures Cut([] + packet, |packet|) == [packet] && |[] + packet| % |packet| == 0
  {
    assert [] + packet == packet;
    DivisionUnique(|packet|, |packet|, 1, 0);
  }
}
