/** The Windows receive path: one system call may return several datagrams glued together, which are
    handed out in as many calls as the callers' capacities need. */
module CoalescedReceive {
  import opened Datagrams
  import opened Sequences

  const RECEIVE_BUFFER_SIZE: nat := 65535

  /** What one system call brought: the bytes, and the segment sizes its control messages announce. */
  datatype Glued = Glued(bytes: seq<byte>, segmentSizes: seq<nat>)

  datatype Received = Failed | Nothing | Data(size: nat, segmentSizes: seq<nat>)

  datatype Batch = Rejected | SocketError | Datagrams(list: seq<Datagram>)

  /** The segment size announced by the last usable control message, else the whole size. */
  ghost function SegmentOf(size: nat, segmentSizes: seq<nat>): (segment: nat)
    ensures 0 < size ==> 0 < segment <= size
  {
    if segmentSizes == [] then size
    else
      var value := segmentSizes[|segmentSizes| - 1];
      if 0 < value <= size then value else SegmentOf(size, segmentSizes[..|segmentSizes| - 1])
  }

  /** The last announcement within what was received decides (`k` is its place); without one (`k` is
      -1) the buffer is one datagram. */
  lemma {:induction false} SegmentOfMeaning(size: nat, segmentSizes: seq<nat>) returns (k: int)
    ensures -1 <= k < |segmentSizes|
    ensures k >= 0 ==> 0 < segmentSizes[k] <= size && SegmentOf(size, segmentSizes) == segmentSizes[k]
    ensures k == -1 ==> SegmentOf(size, segmentSizes) == size
    ensures forall j :: k < j < |segmentSizes| ==> !(0 < segmentSizes[j] <= size)
  {
    k := -1;
    if segmentSizes != [] {
      var last := |segmentSizes| - 1;
      if 0 < segmentSizes[last] <= size {
        k := last;
      } else {
        k := SegmentOfMeaning(size, segmentSizes[..last]);
      }
    }
  }

  /** The datagrams of one system call. */
  ghost function Split(glued: Glued): seq<Datagram> {
    if glued.bytes == [] then [] else Cut(glued.bytes, SegmentOf(|glued.bytes|, glued.segmentSizes))
  }

  /** The datagrams of several system calls. */
  ghost function SplitAll(history: seq<Glued>): seq<Datagram> {
    if history == [] then [] else SplitAll(history[..|history| - 1]) + Split(history[|history| - 1])
  }

  lemma SplitOne(history: seq<Glued>, glued: Glued)
    ensures SplitAll(history + [glued]) == SplitAll(history) + Split(glued)
  {
    assert (history + [glued])[..|history|] == history;
  }

  /** A UDP socket.  It remembers every successful receive, and how often it was asked. */
  class Socket {
    ghost var delivered: seq<Glued>
    ghost var calls: nat
    ghost var failed: bool

    constructor ()
      ensures delivered == [] && calls == 0 && !failed
    {
      delivered, calls, failed := [], 0, false;
    }

    /** A receive fills the front of the buffer, or fails, or brings nothing.  Only WSARecvMsg reports
        segment sizes. */
    method Receive(buffer: array<byte>, coalesced: bool) returns (r: Received)
      modifies this, buffer
      ensures r.Data? ==> 0 < r.size <= buffer.Length && (coalesced || r.segmentSizes == [])
      ensures calls == old(calls) + 1 && (failed <==> r.Failed?)
      ensures delivered == if r.Data? then old(delivered) + [Glued(buffer[..r.size], r.segmentSizes)] else old(delivered)
    {
      calls := calls + 1;
      var refused: bool, size: nat, announced: seq<nat> := *, *, *;
      failed := refused;
      if refused {
        return Failed;
      }
      if size == 0 || size > buffer.Length {
        return Nothing;
      }
      var content: seq<byte> := *;
      forall k | 0 <= k < size {
        buffer[k] := if k < |content| then content[k] else 0;
      }
      r := Data(size, if coalesced then announced else []);
      delivered := delivered + [Glued(buffer[..size], r.segmentSizes)];
    }
  }

  class Backend {
    const receiveBuffer: array<byte>
    var pendingOffset: nat
    var pendingBytes: nat
    var pendingSegmentSize: nat
    var activeSocket: Socket?
    var coalescing: bool
    /** Where the active socket's history stood when it became active. */
    ghost var since: nat
    /** What was handed out on the active socket. */
    ghost var emitted: seq<Datagram>

    constructor ()
      ensures Valid() && fresh(receiveBuffer) && activeSocket == null && emitted == []
    {
      receiveBuffer := new byte[RECEIVE_BUFFER_SIZE](_ => 0);
      pendingOffset, pendingBytes, pendingSegmentSize := 0, 0, 0;
      activeSocket, coalescing := null, false;
      since, emitted := 0, [];
    }

    ghost predicate Bounded()
      reads this
    {
      && receiveBuffer.Length == RECEIVE_BUFFER_SIZE
      && pendingOffset + pendingBytes <= receiveBuffer.Length
      && (pendingBytes > 0 ==> pendingSegmentSize > 0)
    }

    ghost function PendingDatagrams(): seq<Datagram>
      requires Bounded()
      reads this, receiveBuffer
    {
      if pendingBytes == 0 then []
      else Cut(receiveBuffer[..][pendingOffset..pendingOffset + pendingBytes], pendingSegmentSize)
    }

    /** The datagrams that the active socket delivered since it became active. */
    ghost function Arrived(): seq<Datagram>
      requires activeSocket != null ==> since <= |activeSocket.delivered|
      reads this, activeSocket
    {
      if activeSocket == null then [] else SplitAll(activeSocket.delivered[since..])
    }

    /** Whatever the socket delivered was handed out, or is still in the buffer, untouched. */
    ghost predicate Valid()
      reads this, receiveBuffer, activeSocket
    {
      && Bounded() && (activeSocket != null ==> since <= |activeSocket.delivered|)
      && emitted + PendingDatagrams() == Arrived()
    }

    /** Hands out as many pending datagrams as fit. */
    method EmitPending(capacity: nat) returns (list: seq<Datagram>)
      requires Bounded()
      modifies this`pendingOffset, this`pendingBytes, this`pendingSegmentSize, this`emitted
      ensures Bounded() && emitted == old(emitted) + list
      ensures list + PendingDatagrams() == old(PendingDatagrams())
      ensures |list| <= capacity && (pendingBytes == 0 || |list| == capacity)
      ensures pendingBytes <= old(pendingBytes) && (capacity > 0 ==> (list != [] <==> old(pendingBytes) > 0))
    {
      hide Cut; hide PendingDatagrams;
      list := [];
      if pendingBytes == 0 || pendingSegmentSize == 0 {
        return;
      }
      ghost var before, emittedBefore := PendingDatagrams(), emitted;
      while pendingBytes > 0 && |list| < capacity
        invariant |list| <= capacity && pendingSegmentSize > 0 && Bounded()
        invariant list + PendingDatagrams() == before
        invariant emitted == emittedBefore + list
        invariant pendingBytes <= old(pendingBytes) && (list == [] ==> pendingBytes == old(pendingBytes))
      {
        ghost var taken := list;
        var datagram := EmitOne();
        list := list + [datagram];
        Regroup(taken, [datagram], PendingDatagrams());
        Regroup(emittedBefore, taken, [datagram]);
      }
      NonePending();
      if pendingBytes == 0 {
        pendingOffset := 0;
        pendingSegmentSize := 0;
        NonePending();
      }
    }

    lemma NonePending()
      requires Bounded()
      ensures pendingBytes == 0 ==> PendingDatagrams() == []
    {
    }

    /** The loop's step: the next datagram is cut off the front of the pending bytes. */
    method EmitOne() returns (datagram: Datagram)
      requires Bounded() && pendingBytes > 0
      modifies this`pendingOffset, this`pendingBytes, this`emitted
      ensures Bounded() && pendingBytes < old(pendingBytes)
      ensures old(PendingDatagrams()) == [datagram] + PendingDatagrams() && emitted == old(emitted) + [datagram]
    {
      var size := if pendingSegmentSize < pendingBytes then pendingSegmentSize else pendingBytes;
      datagram := receiveBuffer[pendingOffset..pendingOffset + size];
      ghost var all, from, to := receiveBuffer[..], pendingOffset, pendingOffset + pendingBytes;
      assert datagram == all[from..from + size];
      Slices(all, from, to, size);
      CutFirst(all[from..to], pendingSegmentSize, size);
      pendingOffset := pendingOffset + size;
      pendingBytes := pendingBytes - size;
      emitted := emitted + [datagram];
    }

    /** Another socket starts from nothing: what was pending for the old one is dropped. */
    method InitializeSocket(socket: Socket)
      requires Valid()
      modifies this`pendingBytes, this`activeSocket, this`coalescing, this`since, this`emitted
      ensures Valid() && activeSocket == socket
      ensures old(activeSocket) == socket ==>
        pendingBytes == old(pendingBytes) && since == old(since) && emitted == old(emitted)
      ensures old(activeSocket) != socket ==> pendingBytes == 0 && since == |socket.delivered| && emitted == []
    {
      if activeSocket == socket {
        return;
      }
      activeSocket := socket;
      pendingBytes := 0;
      coalescing := *;
      since, emitted := |socket.delivered|, [];
    }

    /** receiveBatch with a positive capacity.  Pending datagrams go first, without a system call, so
        the buffer is overwritten only when everything in it was handed out.  `Valid` says that what
        the socket delivered is all there; the caller gets exactly the next part of it. */
    method ReceiveBatch(socket: Socket, capacity: nat) returns (r: Batch)
      requires Valid() && capacity > 0
      modifies this, receiveBuffer, socket
      ensures Valid() && activeSocket == socket && !r.Rejected? && old(socket.delivered) <= socket.delivered
      ensures emitted == (if old(activeSocket) == socket then old(emitted) else []) + HandedOut(r)
      ensures since == if old(activeSocket) == socket then old(since) else old(|socket.delivered|)
      ensures |HandedOut(r)| <= capacity
      ensures old(activeSocket) == socket && old(pendingBytes) > 0 ==>
        HandedOut(r) != [] && socket.delivered == old(socket.delivered) && receiveBuffer[..] == old(receiveBuffer[..])
      ensures HandedOut(r) == [] ==> pendingBytes == 0
      ensures r.SocketError? <==> old(socket.calls) < socket.calls && socket.failed
      ensures socket.calls == old(socket.calls) + (if old(activeSocket) == socket && old(pendingBytes) > 0 then 0 else 1)
    {
      hide Cut; hide PendingDatagrams; hide SplitAll;
      InitializeSocket(socket);
      ghost var emittedBefore, pendingBefore := emitted, PendingDatagrams();
      var pending := EmitPending(capacity);
      Regroup(emittedBefore, pending, PendingDatagrams());
      if |pending| > 0 {
        return Datagrams(pending);
      }
      assert emittedBefore + [] == emittedBefore;
      if !coalescing {
        r := ReceiveSingle(socket);
      } else {
        r := ReceiveCoalesced(socket, capacity);
      }
    }

    method ReceiveSingle(socket: Socket) returns (r: Batch)
      requires Valid() && activeSocket == socket && pendingBytes == 0
      modifies this`emitted, receiveBuffer, socket
      ensures Valid() && !r.Rejected? && old(socket.delivered) <= socket.delivered
      ensures r.SocketError? <==> socket.failed
      ensures socket.calls == old(socket.calls) + 1
      ensures emitted == old(emitted) + HandedOut(r) && |HandedOut(r)| <= 1
    {
      hide SplitAll;
      var received := socket.Receive(receiveBuffer, false);
      match received
      case Failed => r := SocketError;
      case Nothing => r := Datagrams([]);
      case Data(size, _) =>
        var datagram := receiveBuffer[..size];
        emitted := emitted + [datagram];
        r := Datagrams([datagram]);
        HistoryOne(socket, old(socket.delivered), Glued(datagram, []));
        SplitSingle(datagram);
        NonePending();
        WholeSlice(emitted);
    }

    /** One more system call extends what arrived by its datagrams. */
    lemma HistoryOne(socket: Socket, before: seq<Glued>, glued: Glued)
      requires activeSocket == socket && since <= |before| && socket.delivered == before + [glued]
      ensures Arrived() == SplitAll(before[since..]) + Split(glued)
    {
      assert socket.delivered[since..] == before[since..] + [glued];
      SplitOne(before[since..], glued);
    }

    /** The glued datagrams are exactly the buffer cut at the announced segment size. */
    method ReceiveCoalesced(socket: Socket, capacity: nat) returns (r: Batch)
      requires Valid() && activeSocket == socket && pendingBytes == 0 && capacity > 0
      modifies this`pendingOffset, this`pendingBytes, this`pendingSegmentSize, this`emitted, receiveBuffer, socket
      ensures Valid() && !r.Rejected? && old(socket.delivered) <= socket.delivered
      ensures r.SocketError? <==> socket.failed
      ensures socket.calls == old(socket.calls) + 1
      ensures emitted == old(emitted) + HandedOut(r) && |HandedOut(r)| <= capacity
      ensures HandedOut(r) == [] ==> pendingBytes == 0
    {
      hide SplitAll; hide Cut;
      var received := socket.Receive(receiveBuffer, true);
      match received
      case Failed => r := SocketError;
      case Nothing => r := Datagrams([]);
      case Data(size, segmentSizes) =>
        var segment, _ := ChooseSegment(size, segmentSizes);
        pendingOffset, pendingBytes, pendingSegmentSize := 0, size, segment;
        assert receiveBuffer[..][0..size] == receiveBuffer[..size];
        HistoryOne(socket, old(socket.delivered), Glued(receiveBuffer[..size], segmentSizes));
        ghost var arrived := PendingDatagrams();
        var list := EmitPending(capacity);
        Regroup(old(emitted), list, PendingDatagrams());
        r := Datagrams(list);
    }

    /** The last control message within what was received wins: the one at `chosen`, if there is one. */
    method ChooseSegment(size: nat, segmentSizes: seq<nat>) returns (segment: nat, ghost chosen: int)
      requires size > 0
      ensures -1 <= chosen < |segmentSizes|
      ensures chosen >= 0 ==> 0 < segmentSizes[chosen] <= size && segment == segmentSizes[chosen]
      ensures chosen == -1 ==> segment == size
      ensures forall j :: chosen < j < |segmentSizes| ==> !(0 < segmentSizes[j] <= size)
      ensures segment == SegmentOf(size, segmentSizes)
    {
      segment := size;
      chosen := -1;
      for k := 0 to |segmentSizes|
        invariant -1 <= chosen < k
        invariant if chosen >= 0 then 0 < segmentSizes[chosen] <= size && segment == segmentSizes[chosen] else segment == size
        invariant forall j :: chosen < j < k ==> !(0 < segmentSizes[j] <= size)
      {
        if 0 < segmentSizes[k] <= size {
          segment := segmentSizes[k];
          chosen := k;
        }
      }
      ghost var decisive := SegmentOfMeaning(size, segmentSizes);
    }

    /** The entry point: a caller without room is refused before anything happens. */
    method Receive(socket: Socket, capacity: nat) returns (r: Batch)
      requires Valid()
      modifies this, receiveBuffer, socket
      ensures Valid() && (r.Rejected? <==> capacity == 0) && old(socket.delivered) <= socket.delivered
      ensures r.Rejected? ==>
        activeSocket == old(activeSocket) && emitted == old(emitted) && pendingBytes == old(pendingBytes)
      ensures !r.Rejected? ==>
        && activeSocket == socket && |HandedOut(r)| <= capacity && (HandedOut(r) == [] ==> pendingBytes == 0)
        && emitted == (if old(activeSocket) == socket then old(emitted) else []) + HandedOut(r)
        && since == (if old(activeSocket) == socket then old(since) else old(|socket.delivered|))
      ensures old(activeSocket) == socket && old(pendingBytes) > 0 && capacity > 0 ==>
        HandedOut(r) != [] && socket.delivered == old(socket.delivered) && receiveBuffer[..] == old(receiveBuffer[..])
    {
      if capacity == 0 {
        return Rejected;
      }
      r := ReceiveBatch(socket, capacity);
    }
  }

  function HandedOut(r: Batch): seq<Datagram> {
    if r.Datagrams? then r.list else []
  }

  lemma SplitSingle(datagram: Datagram)
    requires datagram != []
    ensures Split(Glued(datagram, [])) == [datagram]
  {
  }

  lemma CutFirst(data: seq<byte>, segment: nat, size: nat)
    requires 0 < segment && data != [] && size == if segment < |data| then segment else |data|
    ensures Cut(data, segment) == [data[..size]] + Cut(data[size..], segment)
  {
    if segment >= |data| {
      assert data[..size] == data && data[size..] == [];
    }
  }

  /** What one glued buffer turns into: its bytes, whole datagrams of the segment size with a shorter
      last one at most, ceil(size / segment) of them.  The segment size is the last announcement
      within the buffer, at `k`, or the whole size if there is none (`k` is -1). */
  lemma GluedShape(buffer: seq<byte>, segmentSizes: seq<nat>, k: int)
    requires buffer != [] && -1 <= k < |segmentSizes| && (k >= 0 ==> 0 < segmentSizes[k] <= |buffer|)
    requires forall j :: k < j < |segmentSizes| ==> !(0 < segmentSizes[j] <= |buffer|)
    ensures var segment := if k >= 0 then segmentSizes[k] else |buffer|;
            var list := Split(Glued(buffer, segmentSizes));
            && Join(list) == buffer && |list| == (|buffer| + segment - 1) / segment
            && (forall i :: 0 <= i < |list| - 1 ==> |list[i]| == segment)
            && (forall i :: 0 <= i < |list| ==> 0 < |list[i]| <= segment)
  {
    var decisive := SegmentOfMeaning(|buffer|, segmentSizes);
    assert decisive == k;
    var segment := SegmentOf(|buffer|, segmentSizes);
    CutKeepsBytes(buffer, segment);
    CutShape(buffer, segment);
  }
}
