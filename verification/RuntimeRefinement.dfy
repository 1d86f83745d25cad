/** The worker's steps of the concurrent machine are what the classes of the sending half do: the
    conditions that a step puts on ngtcp2 and the transport follow from running the code. */
module RuntimeRefinement {
  import opened Clock
  import opened Datagrams
  import opened Ngtcp2
  import Runtime
  import RuntimeTimers
  import opened TransmitQueue
  import opened TransportSend
  import RuntimeProperties
  import WriteFlow

  /** The objects stand where the machine stands. */
  ghost predicate Mirrors(s: Runtime.Core, side: SendSide)
    reads side, side.binding, side.binding.agent, side.socket, side.protocol, side.protocol.conn, side.clock
  {
    && side.Consistent()
    && s.conn == side.protocol.connected
    && s.tx.data == side.protocol.written && s.tx.finRequested == side.protocol.txFinRequested
    && s.tx.progress == ProgressOf(side.protocol)
    && s.out.pending == side.pending.RemainingSize() && s.out.retry == side.sendRetryExpiry
    && s.out.sendPending == side.sendOperationPending
  }

  function ProgressOf(p: ProtocolState): Runtime.Offsets
    reads p
  {
    Runtime.Offsets(p.txSubmittedOffset, p.txAckedOffset, p.txFinSubmitted, p.txFinAcked)
  }

  /** A FlushSend: whatever ngtcp2 and the transport do, the result of the flush is one that the
      machine allows, and the objects end where its step ends. */
  method FlushRefines(ghost s: Runtime.Core, side: SendSide, ghost expiry: Deadline)
    returns (r: Result<bool>, ghost result: Runtime.FlushResult)
    requires Mirrors(s, side) && RuntimeTimers.Armed(s) && !s.stopped && Runtime.Executes(s, Runtime.FlushSend)
    modifies side, side.binding`refused, side.binding.Footprint(), side.protocol, side.protocol.conn, side.clock
    ensures r.Raise? ==> side.Justified(r.error, old(side.Offers()), old(side.Calls()))
    ensures r.Value? ==>
      && Runtime.OperationEnabled(s, Runtime.ExecFlush(result, expiry))
      && Mirrors(Runtime.OperationOutcome(s, Runtime.ExecFlush(result, expiry)).core, side)
      // The machine's word that nothing is left to send is ngtcp2's own.
      && (s.conn && result.dry ==> side.Dry())
  {
    hide SendSide.Consistent; hide SendSide.Faithful; hide ProtocolState.Valid; hide Runtime.OperationOutcome;
    hide Runtime.InsideRun; hide Runtime.FlagsMove;
    r := side.ProcessSendFlush();
    result := Runtime.FlushResult(side.protocol.txSubmittedOffset, side.protocol.txFinSubmitted,
                                  side.pending.RemainingSize(), side.sendRetryExpiry, r == Value(true),
                                  r == Value(false) && !side.pending.HasRemainingData());
    if r.Value? {
      side.protocol.Bounds();
      FlushStep(s, result, expiry);
    }
  }

  /** The machine's flush, field by field. */
  lemma FlushStep(s: Runtime.Core, result: Runtime.FlushResult, expiry: Deadline)
    requires Runtime.OperationEnabled(s, Runtime.ExecFlush(result, expiry))
    ensures var after := Runtime.OperationOutcome(s, Runtime.ExecFlush(result, expiry)).core;
            && after.conn == s.conn && after.tx.data == s.tx.data && after.tx.finRequested == s.tx.finRequested
            && after.out.sendPending == (s.conn && result.exhausted)
            && (!s.conn ==> after.tx == s.tx && after.out.pending == s.out.pending && after.out.retry == s.out.retry)
            && (s.conn ==>
                 && after.tx.progress == s.tx.progress.(submitted := result.submitted, finSubmitted := result.fin)
                 && after.out.pending == result.pending && after.out.retry == result.retry)
  {
    hide Runtime.InsideRun; hide Runtime.FlagsMove; hide Runtime.KeepsReceived; hide Runtime.KeepsInbox;
  }

  /** An APISend is executed exactly when the machine says it can be. */
  method SendRefines(ghost s: Runtime.Core, side: SendSide, data: seq<byte>, fin: bool, streamID: int)
    returns (r: SendOutcome)
    requires Mirrors(s, side) && Runtime.Executes(s, Runtime.APISend(data, fin))
    modifies side, side.protocol
    ensures r.Queued? ==>
      && Runtime.OperationEnabled(s, Runtime.ExecSend)
      && Mirrors(Runtime.OperationOutcome(s, Runtime.ExecSend).core, side)
    ensures !r.Queued? ==> Mirrors(s, side)
    ensures !r.Queued? && Runtime.OperationEnabled(s, Runtime.ExecSend) ==> r.NoStream?
  {
    hide Sent; hide Written; hide Dropped; hide Flatten; hide Cut;
    hide Runtime.InsideRun; hide Runtime.FlagsMove; hide Runtime.KeepsReceived; hide Runtime.KeepsInbox;
    r := side.protocol.ProcessSend(data, fin, streamID);
    if r.Queued? {
      var queued := side.QueueSendFlush();
    }
  }

  /** A TimerExpired, at the time that its look at the clock gives. */
  method TimerRefines(ghost s: Runtime.Core, side: SendSide, protocolExpiry: Deadline, handled: bool, ghost expiry: Deadline)
    returns (r: Result<()>)
    requires Mirrors(s, side) && side.Armed() && Runtime.Executes(s, Runtime.TimerExpired)
    requires protocolExpiry == s.out.protocol
    modifies side, side.clock
    ensures var now := s.(now := side.clock.now);
            r.Value? ==> Mirrors(Runtime.OperationOutcome(now, Runtime.ExecTimer(expiry)).core, side)
  {
    hide SendSide.Consistent;
    r := side.ProcessTimer(protocolExpiry, handled);
  }

  /** An acknowledgement that the callback accepts. */
  method AcknowledgeRefines(ghost s: Runtime.Core, side: SendSide, streamID: int, offset: nat, dataLength: nat)
    returns (r: CallbackOutcome)
    requires Mirrors(s, side) && s.worker.Feeding? && s.conn
    requires dataLength > 0 ==> offset + dataLength <= side.protocol.txSubmittedOffset
    modifies side.protocol
    ensures r.Accepted? ==>
      && Runtime.OperationEnabled(s, Runtime.Acknowledge(dataLength, dataLength == 0))
      && Mirrors(Runtime.OperationOutcome(s, Runtime.Acknowledge(dataLength, dataLength == 0)).core, side)
    ensures r.CallbackFailure? ==> Mirrors(s, side)
  {
    hide Sent; hide Written; hide Dropped; hide Flatten; hide Cut;
    hide Runtime.InsideRun; hide Runtime.FlagsMove; hide Runtime.KeepsReceived; hide Runtime.KeepsInbox;
    r := side.protocol.AcknowledgedStreamData(streamID, offset, dataLength);
  }

  /** What the connection keeps for retransmission, at any moment of any run: the writes bound the
      bytes in front of the acknowledgements (`bufferedWriteBytes` is what they left buffered, or
      less by now), and whole-chunk retention adds less than one more chunk.  `ChunksWithin` is kept
      by every method of the queue. */
  lemma RetainedBounded(c: WriteFlow.Configuration, writes: seq<WriteFlow.Write>, chunk: nat, s: Runtime.State,
                        side: SendSide)
    requires Runtime.Reachable(s) && !s.core.stopped && Mirrors(s.core, side) && side.protocol.ChunksWithin(chunk)
    requires 0 <= c.low && 0 < chunk && writes != []
    requires WriteFlow.Run(c, writes) && WriteFlow.ChunksWithin(writes, chunk)
    requires s.core.tx.writeOffset - s.core.tx.published.acked <= WriteFlow.BufferedAfter(writes)
    ensures side.protocol.RetainedBytes() < WriteFlow.Bound(c, chunk) + chunk
  {
    hide Runtime.Reachable;
    RuntimeProperties.OffsetChain(s);
    WriteFlow.BufferedBounded(c, writes, chunk);
    side.protocol.RetentionBound(chunk);
  }
}
