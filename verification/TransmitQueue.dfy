/** The transmit side of the stream.  The queue of chunks agrees at all times with one plain byte
    string, everything the application has written, and with three offsets into it:
    acknowledged <= submitted <= next. */
module TransmitQueue {
  import opened Datagrams
  import opened Ngtcp2

  datatype TxChunk = TxChunk(offset: nat, data: seq<byte>, submitted: nat)
  {
    function End(): nat {
      offset + |data|
    }
  }

  function Clamp(position: nat, size: nat, submitted: nat): (clamped: nat) {
    if submitted <= position then 0 else if submitted >= position + size then size else submitted - position
  }

  /** The chunks from the first retained one to the end of the queue: non-empty, contiguous, holding
      the written bytes, each with its share of the global submit point. */
  ghost predicate ChunksAgree(chunks: seq<TxChunk>, start: nat, written: seq<byte>, submitted: nat)
    decreases |chunks|
  {
    if chunks == [] then start == |written|
    else
      && chunks[0].offset == start
      && 0 < |chunks[0].data| && chunks[0].End() <= |written|
      && chunks[0].data == written[start..chunks[0].End()]
      && chunks[0].submitted == Clamp(start, |chunks[0].data|, submitted)
      && ChunksAgree(chunks[1..], chunks[0].End(), written, submitted)
  }

  /** Where the retained chunks start. */
  function StartOf(chunks: seq<TxChunk>, next: nat): nat {
    if chunks == [] then next else chunks[0].offset
  }

  ghost predicate AtSubmitPoint(chunk: TxChunk, submitted: nat) {
    chunk.offset + chunk.submitted == submitted && chunk.submitted < |chunk.data|
  }

  /** Every chunk lies where its position says, and chunks are ordered by offset. */
  lemma {:induction false} ChunkBounds(chunks: seq<TxChunk>, start: nat, written: seq<byte>, submitted: nat, k: nat)
    requires ChunksAgree(chunks, start, written, submitted) && k < |chunks|
    ensures start <= chunks[k].offset && 0 < |chunks[k].data| && chunks[k].End() <= |written|
    ensures chunks[k].data == written[chunks[k].offset..chunks[k].End()]
    ensures chunks[k].submitted == Clamp(chunks[k].offset, |chunks[k].data|, submitted)
    ensures k > 0 ==> chunks[0].End() <= chunks[k].offset
  {
    if k > 0 {
      ChunkBounds(chunks[1..], chunks[0].End(), written, submitted, k - 1);
    }
  }

  lemma {:induction false} ChunksOrdered(chunks: seq<TxChunk>, start: nat, written: seq<byte>, submitted: nat,
                                         j: nat, k: nat)
    requires ChunksAgree(chunks, start, written, submitted) && j < k < |chunks|
    ensures chunks[j].End() <= chunks[k].offset
  {
    if j == 0 {
      ChunkBounds(chunks, start, written, submitted, k);
    } else {
      ChunksOrdered(chunks[1..], chunks[0].End(), written, submitted, j - 1, k - 1);
    }
  }

  /** At most one chunk is at the submit point. */
  lemma SubmitPointUnique(chunks: seq<TxChunk>, start: nat, written: seq<byte>, submitted: nat, j: nat, k: nat)
    requires ChunksAgree(chunks, start, written, submitted) && j < |chunks| && k < |chunks|
    requires AtSubmitPoint(chunks[j], submitted) && AtSubmitPoint(chunks[k], submitted)
    ensures j == k
  {
    if j < k {
      ChunksOrdered(chunks, start, written, submitted, j, k);
    } else if k < j {
      ChunksOrdered(chunks, start, written, submitted, k, j);
    }
  }

  /** There is one whenever something is left to submit. */
  lemma {:induction false} SubmitPointExists(chunks: seq<TxChunk>, start: nat, written: seq<byte>, submitted: nat)
    returns (k: nat)
    requires ChunksAgree(chunks, start, written, submitted)
    requires start <= submitted < |written|
    ensures k < |chunks| && AtSubmitPoint(chunks[k], submitted)
    ensures chunks[k].offset <= submitted
  {
    if submitted < chunks[0].End() {
      k := 0;
    } else {
      var rest := SubmitPointExists(chunks[1..], chunks[0].End(), written, submitted);
      k := rest + 1;
    }
  }

  /** Appending what the application wrote. */
  lemma {:induction false} AgreeAppend(chunks: seq<TxChunk>, start: nat, written: seq<byte>, submitted: nat,
                                       data: seq<byte>)
    requires ChunksAgree(chunks, start, written, submitted)
    requires submitted <= |written| && 0 < |data|
    ensures ChunksAgree(chunks + [TxChunk(|written|, data, 0)], start, written + data, submitted)
  {
    var all := chunks + [TxChunk(|written|, data, 0)];
    if chunks == [] {
      assert all[1..] == [];
    } else {
      AgreeAppend(chunks[1..], chunks[0].End(), written, submitted, data);
      assert all[1..] == chunks[1..] + [TxChunk(|written|, data, 0)];
    }
  }

  /** Chunks wholly before or wholly after the moved part of the submit point are untouched. */
  lemma {:induction false} AgreeLater(chunks: seq<TxChunk>, start: nat, written: seq<byte>, before: nat, after: nat)
    requires ChunksAgree(chunks, start, written, before)
    requires before <= start && after <= start
    ensures ChunksAgree(chunks, start, written, after)
  {
    if chunks != [] {
      AgreeLater(chunks[1..], chunks[0].End(), written, before, after);
    }
  }

  /** Submitting part of the chunk at the submit point. */
  lemma {:induction false} AgreeSubmit(chunks: seq<TxChunk>, start: nat, written: seq<byte>, submitted: nat,
                                       k: nat, accepted: nat)
    requires ChunksAgree(chunks, start, written, submitted)
    requires k < |chunks| && AtSubmitPoint(chunks[k], submitted)
    requires chunks[k].submitted + accepted <= |chunks[k].data|
    ensures ChunksAgree(chunks[k := chunks[k].(submitted := chunks[k].submitted + accepted)],
                        start, written, submitted + accepted)
  {
    var moved := chunks[k := chunks[k].(submitted := chunks[k].submitted + accepted)];
    if k == 0 {
      assert moved[1..] == chunks[1..];
      AgreeLater(chunks[1..], chunks[0].End(), written, submitted, submitted + accepted);
    } else {
      ChunkBounds(chunks, start, written, submitted, k);
      AgreeSubmit(chunks[1..], chunks[0].End(), written, submitted, k - 1, accepted);
      assert moved[1..] == chunks[1..][k - 1 := chunks[k].(submitted := chunks[k].submitted + accepted)];
    }
  }

  /** The byte at any retained offset is still held by a retained chunk. */
  lemma {:induction false} RetainedByte(chunks: seq<TxChunk>, start: nat, written: seq<byte>, submitted: nat,
                                        offset: nat) returns (k: nat)
    requires ChunksAgree(chunks, start, written, submitted)
    requires start <= offset < |written|
    ensures k < |chunks| && chunks[k].offset <= offset < chunks[k].End()
    ensures chunks[k].data[offset - chunks[k].offset] == written[offset]
  {
    if offset < chunks[0].End() {
      k := 0;
    } else {
      var rest := RetainedByte(chunks[1..], chunks[0].End(), written, submitted, offset);
      k := rest + 1;
    }
  }

  /** The bytes accepted from a chunk are the written bytes right after the submit point. */
  lemma AcceptedBytes(chunk: TxChunk, written: seq<byte>, accepted: nat)
    requires chunk.End() <= |written| && chunk.data == written[chunk.offset..chunk.End()]
    requires chunk.submitted + accepted <= |chunk.data|
    ensures chunk.data[chunk.submitted..][..accepted]
         == written[chunk.offset + chunk.submitted..chunk.offset + chunk.submitted + accepted]
    ensures written[..chunk.offset + chunk.submitted] + chunk.data[chunk.submitted..][..accepted]
         == written[..chunk.offset + chunk.submitted + accepted]
  {
  }

  /** What is offered of a chunk at the submit point starts the bytes not submitted yet. */
  lemma RestOfChunk(chunk: TxChunk, written: seq<byte>)
    requires chunk.End() <= |written| && chunk.data == written[chunk.offset..chunk.End()]
    requires chunk.submitted <= |chunk.data|
    ensures chunk.data[chunk.submitted..] <= written[chunk.offset + chunk.submitted..]
  {
  }

  datatype SendOutcome = Queued | NotInitialized | AlreadyFinishing | NoStream

  /** writeOnePacket's result: the packet's size, 0 when the stream is refused for now, or an
      exception. */
  datatype Outcome = Wrote(size: nat) | WriteFailed

  datatype CallbackOutcome = Accepted | CallbackFailure

  class ProtocolState {
    var connected: bool
    var txStreamID: int
    var txChunks: seq<TxChunk>
    var txNextOffset: nat
    var txSubmittedOffset: nat
    var txAckedOffset: nat
    var txFinRequested: bool
    var txFinSubmitted: bool
    var txFinAcked: bool
    var streamClosed: bool
    var aggregatePacketCount: nat
    const conn: Connection
    /** Everything queued so far, in order. */
    ghost var written: seq<byte>

    constructor (conn: Connection)
      requires conn.received == [] && conn.finAt == -1
      ensures Valid() && connected && written == [] && !txFinRequested && txStreamID == -1 && this.conn == conn
    {
      this.conn := conn;
      aggregatePacketCount := 0;
      connected := true;
      txStreamID := -1;
      txChunks := [];
      txNextOffset, txSubmittedOffset, txAckedOffset := 0, 0, 0;
      txFinRequested, txFinSubmitted, txFinAcked, streamClosed := false, false, false, false;
      written := [];
    }

    /** ngtcp2 took exactly the written bytes up to the submit point, and a FIN at their very end if
        and only if one counts as submitted. */
    ghost predicate Valid()
      reads this, conn
    {
      && Pending(conn.received)
      && (conn.finAt >= 0 <==> txFinSubmitted)
      && (txFinSubmitted ==> txFinRequested && conn.finAt == |written| == txSubmittedOffset)
    }

    /** What the offsets and flags are worth to others. */
    lemma Bounds()
      requires Valid()
      ensures txAckedOffset <= txSubmittedOffset <= |written|
      ensures txFinSubmitted ==> txFinRequested && txSubmittedOffset == |written|
    {
    }

    ghost predicate ChunksWithin(limit: nat)
      reads this`txChunks
    {
      forall k :: 0 <= k < |txChunks| ==> |txChunks[k].data| <= limit
    }

    /** The stream to use: the server answers on the client's stream, the client opens one. */
    method ProcessSend(data: seq<byte>, fin: bool, streamID: int) returns (r: SendOutcome)
      requires Valid()
      modifies this`txStreamID, this`txChunks, this`txNextOffset, this`txFinRequested, this`written
      ensures Valid()
      ensures !connected ==> r == NotInitialized
      ensures connected && old(txFinRequested) ==> r == AlreadyFinishing
      ensures connected && !old(txFinRequested) ==> r == if old(txStreamID) < 0 && streamID < 0 then NoStream else Queued
      ensures r.Queued? ==> written == old(written) + data && txFinRequested == fin
      ensures r.Queued? ==> txStreamID == (if old(txStreamID) < 0 then streamID else old(txStreamID)) && txStreamID >= 0
      ensures !r.Queued? ==> written == old(written) && txFinRequested == old(txFinRequested)
      ensures !r.Queued? ==> txChunks == old(txChunks) && txStreamID == old(txStreamID)
      // Nothing is queued behind a requested FIN.
      ensures old(txFinRequested) ==> written == old(written)
      ensures forall limit :: old(ChunksWithin(limit)) && |data| <= limit ==> ChunksWithin(limit)
    {
      hide ChunksAgree;
      if !connected {
        return NotInitialized;
      }
      if txFinRequested {
        return AlreadyFinishing;
      }
      if txStreamID < 0 {
        if streamID < 0 {
          return NoStream;
        }
        txStreamID := streamID;
      }
      if data != [] {
        Append(data);
      }
      if fin {
        txFinRequested := true;
      }
      r := Queued;
    }

    /** A new chunk at the end of the queue. */
    method Append(data: seq<byte>)
      requires Pending(conn.received) && txStreamID >= 0 && data != []
      modifies this`txChunks, this`txNextOffset, this`written
      ensures Pending(conn.received) && written == old(written) + data
      ensures forall limit :: old(ChunksWithin(limit)) && |data| <= limit ==> ChunksWithin(limit)
    {
      hide ChunksAgree;
      AgreeAppend(txChunks, StartOf(txChunks, txNextOffset), written, txSubmittedOffset, data);
      assert written[..txSubmittedOffset] == (written + data)[..txSubmittedOffset];
      txChunks := txChunks + [TxChunk(txNextOffset, data, 0)];
      txNextOffset := txNextOffset + |data|;
      written := written + data;
    }

    predicate HasPendingWrite()
      reads this
    {
      txStreamID >= 0 && (txSubmittedOffset < txNextOffset || (txFinRequested && !txFinSubmitted))
    }

    /** The index of the chunk to continue with, or the queue length when there is none: the one
        chunk at the submit point, and there is one exactly when data is left to submit. */
    method NextTransmitChunk() returns (k: nat)
      requires Valid()
      ensures k <= |txChunks|
      ensures k < |txChunks| <==> txSubmittedOffset < txNextOffset
      ensures k < |txChunks| ==> AtSubmitPoint(txChunks[k], txSubmittedOffset)
      ensures k < |txChunks| ==> forall j :: 0 <= j < |txChunks| && AtSubmitPoint(txChunks[j], txSubmittedOffset) ==> j == k
    {
      k := 0;
      while k < |txChunks|
        invariant k <= |txChunks|
        invariant forall j :: 0 <= j < k ==> !AtSubmitPoint(txChunks[j], txSubmittedOffset)
      {
        var submittedEnd := txChunks[k].offset + txChunks[k].submitted;
        if submittedEnd == txSubmittedOffset && txChunks[k].submitted < |txChunks[k].data| {
          break;
        }
        k := k + 1;
      }
      ghost var start := StartOf(txChunks, txNextOffset);
      if k < |txChunks| {
        forall j | 0 <= j < |txChunks| && AtSubmitPoint(txChunks[j], txSubmittedOffset) ensures j == k {
          SubmitPointUnique(txChunks, start, written, txSubmittedOffset, j, k);
        }
        ChunkBounds(txChunks, start, written, txSubmittedOffset, k);
      } else if txSubmittedOffset < txNextOffset {
        var found := SubmitPointExists(txChunks, start, written, txSubmittedOffset);
      }
    }

    /** Moves the submit point within chunk k over the bytes that ngtcp2 took. */
    method AdvanceSubmitted(k: nat, accepted: nat)
      requires k < |txChunks| && AtSubmitPoint(txChunks[k], txSubmittedOffset)
      requires accepted <= |txChunks[k].data| - txChunks[k].submitted
      requires ChunksAgree(txChunks, StartOf(txChunks, txNextOffset), written, txSubmittedOffset)
      modifies this`txChunks, this`txSubmittedOffset
      ensures txSubmittedOffset == old(txSubmittedOffset) + accepted <= |written|
      ensures ChunksAgree(txChunks, StartOf(txChunks, txNextOffset), written, txSubmittedOffset)
      ensures StartOf(txChunks, txNextOffset) == old(StartOf(txChunks, txNextOffset))
      ensures txChunks != [] && txChunks[0].End() == old(txChunks)[0].End()
      ensures old(txChunks[k].data[txChunks[k].submitted..])[..accepted] == written[old(txSubmittedOffset)..txSubmittedOffset]
      ensures forall limit :: old(ChunksWithin(limit)) ==> ChunksWithin(limit)
    {
      hide ChunksAgree;
      ghost var start := StartOf(txChunks, txNextOffset);
      ChunkBounds(txChunks, start, written, txSubmittedOffset, k);
      AgreeSubmit(txChunks, start, written, txSubmittedOffset, k, accepted);
      AcceptedBytes(txChunks[k], written, accepted);
      txChunks := txChunks[k := txChunks[k].(submitted := txChunks[k].submitted + accepted)];
      txSubmittedOffset := txSubmittedOffset + accepted;
    }

    /** What ngtcp2 has to be asked next: the bytes right behind the submit point, at least one if
        there are any, with FIN exactly when it was requested and these are the last; or nothing of
        the stream when neither bytes nor a FIN are left. */
    ghost predicate RightOffer(offer: Offer)
      reads this
    {
      && txSubmittedOffset <= |written|
      && var finLeft := txFinRequested && !txFinSubmitted;
         match offer
         case PlainOffer => txStreamID < 0 || (txSubmittedOffset == |written| && !finLeft)
         case StreamOffer(data, fin) =>
           && txStreamID >= 0 && data <= written[txSubmittedOffset..]
           && (data == [] ==> txSubmittedOffset == |written| && finLeft)
           && (fin <==> finLeft && txSubmittedOffset + |data| == |written|)
    }

    /** One packet.  ngtcp2 is asked once, for the right bytes; what it took and whether its FIN went
        out is what the offsets and flags say afterwards (`Valid`). */
    method WriteOnePacket(capacity: nat, padToDatagramSize: bool)
      returns (r: Outcome, packet: Datagram, ghost offer: Offer)
      requires Valid()
      modifies this`txChunks, this`txSubmittedOffset, this`txFinSubmitted, this`aggregatePacketCount, conn
      ensures Valid() && old(txSubmittedOffset) <= txSubmittedOffset && (old(txFinSubmitted) ==> txFinSubmitted)
      ensures conn.offers == old(conn.offers) + [offer] && old(RightOffer(offer))
      ensures conn.packets == old(conn.packets) + OnePacket(packet) && |packet| <= capacity
      ensures if r.Wrote? then r.size == |packet| else packet == []
      ensures (r.WriteFailed? <==> conn.last.Failed?) && !conn.last.NoAnswer?
      ensures packet == [] && r.Wrote? <==> conn.last == Refused || conn.last == Gave(0)
      ensures aggregatePacketCount == old(aggregatePacketCount) + (if padToDatagramSize then |OnePacket(packet)| else 0)
      ensures forall limit :: old(ChunksWithin(limit)) ==> ChunksWithin(limit)
    {
      if HasPendingWrite() {
        r, packet, offer := WriteStreamPacket(capacity);
      } else {
        var ok;
        ok, packet := conn.WritePlain(capacity);
        offer := PlainOffer;
        r := if ok then Wrote(|packet|) else WriteFailed;
      }
      if r.Wrote? && r.size > 0 && padToDatagramSize {
        aggregatePacketCount := aggregatePacketCount + 1;
      }
    }

    method WriteStreamPacket(capacity: nat) returns (r: Outcome, packet: Datagram, ghost offer: Offer)
      requires Valid() && HasPendingWrite()
      modifies this`txChunks, this`txSubmittedOffset, this`txFinSubmitted, conn
      ensures Valid() && old(txSubmittedOffset) <= txSubmittedOffset && !old(txFinSubmitted)
      ensures conn.offers == old(conn.offers) + [offer] && old(RightOffer(offer))
      ensures conn.packets == old(conn.packets) + OnePacket(packet) && |packet| <= capacity
      ensures if r.Wrote? then r.size == |packet| else packet == []
      ensures (r.WriteFailed? <==> conn.last.Failed?) && !conn.last.NoAnswer?
      ensures packet == [] && r.Wrote? <==> conn.last == Refused || conn.last == Gave(0)
      ensures forall limit :: old(ChunksWithin(limit)) ==> ChunksWithin(limit)
    {
      var k, data, sendingFin := NextOffer();
      offer := StreamOffer(data, sendingFin);
      var write;
      write, packet := conn.WriteStream(data, sendingFin, capacity);
      if write.StreamBlocked? {
        return Wrote(0), packet, offer;
      }
      if write.StreamFailed? {
        return WriteFailed, packet, offer;
      }
      Settle(k, data, sendingFin, write.accepted, |packet|, old(conn.received));
      r := Wrote(|packet|);
    }

    /** The rest of the chunk at the submit point, and whether FIN goes with it. */
    method NextOffer() returns (k: nat, data: seq<byte>, sendingFin: bool)
      requires Valid() && HasPendingWrite()
      ensures RightOffer(StreamOffer(data, sendingFin)) && k <= |txChunks|
      ensures k < |txChunks| ==>
        AtSubmitPoint(txChunks[k], txSubmittedOffset) && data == txChunks[k].data[txChunks[k].submitted..]
      ensures k == |txChunks| ==> data == []
    {
      hide ChunksAgree;
      k := NextTransmitChunk();
      var hasChunk := k < |txChunks|;
      data := if hasChunk then txChunks[k].data[txChunks[k].submitted..] else [];
      if hasChunk {
        ChunkBounds(txChunks, StartOf(txChunks, txNextOffset), written, txSubmittedOffset, k);
        RestOfChunk(txChunks[k], written);
      }
      var allQueuedDataSubmitted := txSubmittedOffset == txNextOffset;
      sendingFin := txFinRequested && !txFinSubmitted
        && (allQueuedDataSubmitted || (hasChunk && txSubmittedOffset + |data| == txNextOffset));
    }

    /** Takes over what ngtcp2 answered. */
    method Settle(k: nat, data: seq<byte>, sendingFin: bool, accepted: int, size: nat, ghost before: seq<byte>)
      requires Pending(before)
      requires RightOffer(StreamOffer(data, sendingFin)) && k <= |txChunks| && !txFinSubmitted
      requires k < |txChunks| ==>
        AtSubmitPoint(txChunks[k], txSubmittedOffset) && data == txChunks[k].data[txChunks[k].submitted..]
      requires k == |txChunks| ==> data == []
      requires -1 <= accepted <= |data| && (accepted >= 0 ==> size > 0)
      requires conn.received == before + (if accepted > 0 then data[..accepted] else [])
      requires conn.finAt == if sendingFin && accepted == |data| then |conn.received| else -1
      modifies this`txChunks, this`txSubmittedOffset, this`txFinSubmitted
      ensures Valid() && old(txSubmittedOffset) <= txSubmittedOffset
      ensures forall limit :: old(ChunksWithin(limit)) ==> ChunksWithin(limit)
    {
      hide ChunksAgree;
      if accepted > 0 && k < |txChunks| {
        AdvanceSubmitted(k, accepted);
        assert before + written[|before|..txSubmittedOffset] == written[..txSubmittedOffset];
      }
      var allSubmittedNow := txSubmittedOffset == txNextOffset;
      if sendingFin && size > 0 && allSubmittedNow && accepted >= 0 {
        txFinSubmitted := true;
      }
    }

    /** `Valid` while ngtcp2's answer is not taken over: `before` is what it had before. */
    ghost predicate Pending(before: seq<byte>)
      reads this
    {
      && txNextOffset == |written|
      && txAckedOffset <= txSubmittedOffset <= txNextOffset
      && before == written[..txSubmittedOffset]
      && StartOf(txChunks, txNextOffset) <= txAckedOffset
      && (txChunks != [] ==> txAckedOffset < txChunks[0].End())
      && ChunksAgree(txChunks, StartOf(txChunks, txNextOffset), written, txSubmittedOffset)
      && (txStreamID < 0 ==> written == [] && !txFinRequested)
    }

    /** Gives up the chunks that are acknowledged to their end, and no others. */
    method ReleaseAcknowledged()
      requires txNextOffset == |written| && txAckedOffset <= txNextOffset
      requires StartOf(txChunks, txNextOffset) <= txAckedOffset
      requires ChunksAgree(txChunks, StartOf(txChunks, txNextOffset), written, txSubmittedOffset)
      modifies this`txChunks
      ensures StartOf(txChunks, txNextOffset) <= txAckedOffset
      ensures ChunksAgree(txChunks, StartOf(txChunks, txNextOffset), written, txSubmittedOffset)
      ensures txChunks != [] ==> txAckedOffset < txChunks[0].End()
      ensures |txChunks| <= |old(txChunks)| && txChunks == old(txChunks)[|old(txChunks)| - |txChunks|..]
    {
      while txChunks != []
        invariant StartOf(txChunks, txNextOffset) <= txAckedOffset
        invariant ChunksAgree(txChunks, StartOf(txChunks, txNextOffset), written, txSubmittedOffset)
        invariant |txChunks| <= |old(txChunks)| && txChunks == old(txChunks)[|old(txChunks)| - |txChunks|..]
      {
        if txChunks[0].End() > txAckedOffset {
          break;
        }
        assert StartOf(txChunks[1..], txNextOffset) == txChunks[0].End();
        txChunks := txChunks[1..];
      }
    }

    /** An acknowledgement of a stream range, or of the FIN when it is empty.  ngtcp2 acknowledges
        only what was submitted; anything out of order is a callback failure and changes nothing.
        Only chunks acknowledged to their end are given up. */
    method AcknowledgedStreamData(streamID: int, offset: nat, dataLength: nat) returns (r: CallbackOutcome)
      requires Valid()
      requires dataLength > 0 ==> offset + dataLength <= txSubmittedOffset
      modifies this`txChunks, this`txAckedOffset, this`txFinAcked
      ensures Valid()
      ensures r.Accepted? <==>
        (!(txStreamID != -1 && streamID != txStreamID)
         && (if dataLength == 0 then txFinSubmitted && offset == txNextOffset else offset == old(txAckedOffset)))
      ensures txAckedOffset == if r.Accepted? then (if dataLength == 0 then old(txAckedOffset) else offset + dataLength)
                               else old(txAckedOffset)
      ensures txFinAcked == (old(txFinAcked) || (r.Accepted? && dataLength == 0))
      ensures txFinAcked && !old(txFinAcked) ==> conn.finAt == |written|
      ensures |txChunks| <= |old(txChunks)| && txChunks == old(txChunks)[|old(txChunks)| - |txChunks|..]
    {
      if txStreamID != -1 && streamID != txStreamID {
        return CallbackFailure;
      }
      if dataLength == 0 {
        if !txFinSubmitted || offset != txNextOffset {
          return CallbackFailure;
        }
        txFinAcked := true;
        return Accepted;
      }
      if offset != txAckedOffset {
        return CallbackFailure;
      }
      txAckedOffset := offset + dataLength;
      ReleaseAcknowledged();
      r := Accepted;
    }

    /** The end of the stream in both directions.  Only a stream that is neither the receiving nor
        the sending one is ignored, and an unset identifier counts as a match. */
    method StreamClose(rxStreamID: int, streamID: int, applicationError: bool)
      requires Valid()
      modifies this`streamClosed, this`txFinAcked
      ensures Valid()
      ensures var clean := !applicationError && (rxStreamID in {-1, streamID} || txStreamID in {-1, streamID});
              && streamClosed == (old(streamClosed) || clean)
              && txFinAcked == (old(txFinAcked) || (clean && txFinRequested))
    {
      if rxStreamID != -1 && streamID != rxStreamID && txStreamID != -1 && streamID != txStreamID {
        return;
      }
      if !applicationError {
        streamClosed := true;
        if txFinRequested {
          txFinAcked := true;
        }
      }
    }

    /** What ngtcp2 may still have to retransmit, and what is not submitted yet, is all held. */
    lemma UnacknowledgedBytesRetained(offset: nat)
      requires Valid() && txAckedOffset <= offset < txNextOffset
      ensures exists k :: 0 <= k < |txChunks| && txChunks[k].offset <= offset < txChunks[k].End()
                       && txChunks[k].data[offset - txChunks[k].offset] == written[offset]
    {
      var k := RetainedByte(txChunks, StartOf(txChunks, txNextOffset), written, txSubmittedOffset, offset);
    }

    ghost function RetainedBytes(): nat
      requires Valid()
      reads this, conn
    {
      if txChunks == [] then 0 else txNextOffset - txChunks[0].offset
    }

    /** Keeping whole chunks costs less than one chunk beyond the unacknowledged bytes. */
    lemma RetentionBound(largest: nat)
      requires Valid() && forall k :: 0 <= k < |txChunks| ==> |txChunks[k].data| <= largest
      ensures RetainedBytes() <= txNextOffset - txAckedOffset + (if largest == 0 then 0 else largest - 1)
    {
      if txChunks != [] {
        ChunkBounds(txChunks, StartOf(txChunks, txNextOffset), written, txSubmittedOffset, 0);
        assert |txChunks[0].data| <= largest;
      }
    }
  }
}
