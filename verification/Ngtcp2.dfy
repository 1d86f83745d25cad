/** ngtcp2 as the writer of packets.  It keeps the record of everything it was offered, took and
    wrote; nobody else can change that record. */
module Ngtcp2 {
  import opened Datagrams

  /** One question to ngtcp2: stream bytes with or without the FIN flag, or nothing of the stream. */
  datatype Offer = StreamOffer(data: seq<byte>, fin: bool) | PlainOffer

  /** The answer: refused for now, failed, or a packet with some of the bytes (-1 when the packet
      carries no STREAM frame). */
  datatype StreamWrite = StreamBlocked | StreamFailed | Packet(accepted: int)

  /** What the caller saw of the last answer. */
  datatype Answer = NoAnswer | Refused | Failed | Gave(size: nat)

  function OnePacket(packet: Datagram): seq<Datagram> {
    if packet == [] then [] else [packet]
  }

  class Connection {
    /** The stream bytes taken so far, in order. */
    ghost var received: seq<byte>
    /** The final size of the stream once a FIN went out, else -1. */
    ghost var finAt: int
    /** Every packet written so far, in order. */
    ghost var packets: seq<Datagram>
    ghost var offers: seq<Offer>
    ghost var last: Answer

    constructor ()
      ensures received == [] && finAt == -1 && packets == [] && offers == [] && last == NoAnswer
    {
      received, finAt, packets, offers, last := [], -1, [], [], NoAnswer;
    }

    /** ngtcp2_conn_write_stream.  It takes a prefix of what is offered, never anything behind a FIN,
        and a FIN goes out with a STREAM frame exactly when it is asked for and everything offered
        was taken. */
    method WriteStream(data: seq<byte>, fin: bool, capacity: nat) returns (write: StreamWrite, packet: Datagram)
      requires finAt < 0
      modifies this
      ensures offers == old(offers) + [StreamOffer(data, fin)]
      ensures packets == old(packets) + OnePacket(packet) && |packet| <= capacity
      ensures last == match write
                      case StreamBlocked => Refused
                      case StreamFailed => Failed
                      case Packet(_) => Gave(|packet|)
      ensures write.Packet? ==> -1 <= write.accepted <= |data| && (write.accepted >= 0 ==> packet != [])
      ensures !write.Packet? ==> packet == []
      ensures received == old(received) + (if write.Packet? && write.accepted > 0 then data[..write.accepted] else [])
      ensures finAt == if write.Packet? && fin && write.accepted == |data| then |received| else -1
    {
      offers := offers + [StreamOffer(data, fin)];
      packet := [];
      var answer: StreamWrite := *;
      var content: seq<byte> := *;
      finAt := -1;
      if !answer.Packet? || !(-1 <= answer.accepted <= |data|) || |content| > capacity
        || (answer.accepted >= 0 && content == [])
      {
        write := if answer.StreamFailed? then StreamFailed else StreamBlocked;
        last := if answer.StreamFailed? then Failed else Refused;
        return;
      }
      write, packet := answer, content;
      last := Gave(|packet|);
      packets := packets + OnePacket(packet);
      if write.accepted > 0 {
        received := received + data[..write.accepted];
      }
      if fin && write.accepted == |data| {
        finAt := |received|;
      }
    }

    /** ngtcp2_conn_write_pkt: a packet without stream data, or none. */
    method WritePlain(capacity: nat) returns (ok: bool, packet: Datagram)
      modifies this`packets, this`offers, this`last
      ensures last == if ok then Gave(|packet|) else Failed
      ensures offers == old(offers) + [PlainOffer]
      ensures packets == old(packets) + OnePacket(packet) && |packet| <= capacity
      ensures !ok ==> packet == []
    {
      offers := offers + [PlainOffer];
      packet := *;
      ok := *;
      if !ok || |packet| > capacity {
        packet := [];
      }
      packets := packets + OnePacket(packet);
      last := if ok then Gave(|packet|) else Failed;
    }
  }
}
