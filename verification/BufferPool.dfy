/** The slab pool of receive buffers, its intrusive free list, and the batches that chain acquired
    buffers through the same `next` field.  One `Buffer` class stands for both buffer types the
    pool is instantiated with: the packet table is unused by stream buffers. */
module BufferPool {
  import opened Datagrams

  const PAYLOAD_SIZE: nat := 65536
  const PACKETS_PER_BUFFER: nat := 64
  const UINT16_MAX: nat := 65535
  const INITIAL_COUNT: nat := 32
  const GROW_COUNT: nat := 16

  function ToUInt16(n: nat): (cast: nat)
    ensures cast <= UINT16_MAX
  {
    n % 65536
  }

  datatype ReceivePacket = ReceivePacket(offset: nat, length: nat)

  /** The payload, the packet table and the two fill counts of one buffer. */
  datatype Contents = Contents(payload: seq<byte>, packets: seq<ReceivePacket>, payloadSize: nat, packetCount: nat)
  {
    ghost predicate Wf() {
      && |payload| == PAYLOAD_SIZE && |packets| == PACKETS_PER_BUFFER
      && payloadSize <= PAYLOAD_SIZE && packetCount <= PACKETS_PER_BUFFER
      && forall k :: 0 <= k < packetCount ==> packets[k].offset + packets[k].length <= payloadSize
    }

    /** The stream bytes held. */
    ghost function Data(): seq<byte>
      requires Wf()
    {
      payload[..payloadSize]
    }

    /** The datagrams held, as a reader of the packet table sees them. */
    ghost function Datagrams(): (datagrams: seq<Datagram>)
      requires Wf()
      ensures |datagrams| == packetCount
    {
      seq(packetCount, k requires 0 <= k < packetCount =>
        payload[packets[k].offset..packets[k].offset + packets[k].length])
    }

    predicate CanAppend(size: nat)
      requires Wf()
    {
      size <= UINT16_MAX && size <= PAYLOAD_SIZE && packetCount < PACKETS_PER_BUFFER
      && size <= PAYLOAD_SIZE - payloadSize
    }

    function Available(): nat
      requires Wf()
    {
      PAYLOAD_SIZE - payloadSize
    }

    ghost predicate Empty() {
      payloadSize == 0 && packetCount == 0
    }
  }

  type Body = c: Contents | c.Wf()
    ghost witness EmptyBody()

  function EmptyBody(): (c: Contents)
    ensures c.Wf() && c.Empty()
  {
    Contents(seq(PAYLOAD_SIZE, i => 0), seq(PACKETS_PER_BUFFER, i => ReceivePacket(0, 0)), 0, 0)
  }

  class Buffer {
    var body: Body
    var next: Buffer?

    constructor ()
      ensures next == null && body.Empty()
    {
      body := EmptyBody();
      next := null;
    }

    method Reset()
      modifies this`body, this`next
      ensures body == old(body).(payloadSize := 0, packetCount := 0) && next == null
    {
      body := body.(payloadSize := 0, packetCount := 0);
      next := null;
    }

    /** A datagram goes behind the others; the 16-bit fields hold its true offset and length. */
    method AppendPacket(data: seq<byte>) returns (ok: bool)
      modifies this`body
      ensures ok <==> data != [] && old(body).CanAppend(|data|)
      ensures ok ==> body.Datagrams() == old(body).Datagrams() + [data] && body.Data() == old(body).Data() + data
      ensures !ok ==> body == old(body)
    {
      if data == [] || !body.CanAppend(|data|) {
        return false;
      }
      var size := body.payloadSize;
      ghost var before := body.Datagrams();
      body := Contents(
        body.payload[..size] + data + body.payload[size + |data|..],
        body.packets[body.packetCount := ReceivePacket(ToUInt16(size), ToUInt16(|data|))],
        size + |data|,
        body.packetCount + 1);
      assert forall k :: 0 <= k < |before| ==> body.Datagrams()[k] == before[k];
      ok := true;
    }

    /** Stream bytes: as many as fit. */
    method AppendBytes(data: seq<byte>) returns (copied: nat)
      modifies this`body
      ensures copied == if |data| < old(body).Available() then |data| else old(body).Available()
      ensures body.Data() == old(body).Data() + data[..copied]
      ensures body.packetCount == old(body).packetCount
    {
      var size := body.payloadSize;
      copied := if |data| < body.Available() then |data| else body.Available();
      body := body.(payload := body.payload[..size] + data[..copied] + body.payload[size + copied..],
                    payloadSize := size + copied);
    }
  }

  /** `chain` is the list that starts at `head` and follows `next`. */
  ghost predicate Linked(chain: seq<Buffer>, head: Buffer?)
    reads chain`next
  {
    && head == (if chain == [] then null else chain[0])
    && forall i {:trigger chain[i].next} :: 0 <= i < |chain| ==>
         chain[i].next == if i + 1 < |chain| then chain[i + 1] else null
  }

  ghost function Bodies(chain: seq<Buffer>): (bodies: seq<Body>)
    reads chain`body
    ensures |bodies| == |chain|
    ensures forall i :: 0 <= i < |chain| ==> bodies[i] == chain[i].body
  {
    if chain == [] then [] else Bodies(chain[..|chain| - 1]) + [chain[|chain| - 1].body]
  }

  lemma BodiesOfLast(front: seq<Buffer>, last: Buffer)
    ensures Bodies(front + [last]) == Bodies(front) + [last.body]
  {
    assert (front + [last])[..|front|] == front;
  }

  twostate lemma SameBodies(chain: seq<Buffer>)
    requires forall b :: b in chain ==> b.body == old(b.body)
    ensures Bodies(chain) == old(Bodies(chain))
  {
  }

  /** The stream held by a chain of buffers with these contents. */
  ghost function BytesOf(bodies: seq<Body>): seq<byte> {
    if bodies == [] then [] else BytesOf(bodies[..|bodies| - 1]) + bodies[|bodies| - 1].Data()
  }

  /** The datagrams held by a chain of buffers with these contents. */
  ghost function DatagramsOf(bodies: seq<Body>): seq<Datagram> {
    if bodies == [] then [] else DatagramsOf(bodies[..|bodies| - 1]) + bodies[|bodies| - 1].Datagrams()
  }

  lemma {:induction false} BytesOfAppend(a: seq<Body>, b: seq<Body>)
    ensures BytesOf(a + b) == BytesOf(a) + BytesOf(b)
  {
    hide BytesOf; hide DatagramsOf;
    if b == [] {
      NoContents();
      assert a + b == a;
    } else {
      var front, last := b[..|b| - 1], b[|b| - 1];
      BytesOfAppend(a, front);
      assert b == front + [last] && a + b == (a + front) + [last];
      ContentsOfLast(front, last);
      ContentsOfLast(a + front, last);
    }
  }

  lemma ContentsOfLast(front: seq<Body>, last: Body)
    ensures BytesOf(front + [last]) == BytesOf(front) + last.Data()
    ensures DatagramsOf(front + [last]) == DatagramsOf(front) + last.Datagrams()
  {
    assert (front + [last])[..|front|] == front;
  }

  ghost predicate NoDuplicates(s: seq<Buffer>) {
    forall i, j :: 0 <= i < j < |s| ==> s[i] != s[j]
  }

  lemma NoDuplicatesAppend(a: seq<Buffer>, b: seq<Buffer>)
    requires NoDuplicates(a) && NoDuplicates(b) && forall x :: x in a ==> x !in b
    ensures NoDuplicates(a + b)
  {
    forall i, j | 0 <= i < j < |a + b| ensures (a + b)[i] != (a + b)[j] {
      if i < |a| <= j {
        assert a[i] in a;
      }
    }
  }

  /** Where every buffer of a pool is.  The free list is written from its end to its head. */
  datatype Ownership = Ownership(buffers: set<Buffer>, free: seq<Buffer>, loose: set<Buffer>,
                                 chains: map<Batch, seq<Buffer>>)
  {
    /** Every allocated buffer is in exactly one place: once on the free list, once in the chain of
        exactly one live batch, or handed out and not linked yet. */
    ghost predicate Exclusive() {
      && NoDuplicates(free)
      && (forall t :: t in chains ==> NoDuplicates(chains[t]))
      && (forall b :: b in free ==> b in buffers && b !in loose)
      && loose <= buffers
      && (forall t :: t in chains ==> forall b :: b in chains[t] ==> b in buffers && b !in loose && b !in free)
      && Separate()
      && (forall b :: b in buffers && b !in loose && b !in free ==> Somewhere(b))
    }

    ghost predicate Separate() {
      forall t, u :: t in chains && u in chains && t != u ==> forall b :: b in chains[t] ==> b !in chains[u]
    }

    ghost predicate Somewhere(b: Buffer) {
      exists t :: t in chains && b in chains[t]
    }

    ghost function FreeSet(): set<Buffer> {
      set b | b in free
    }

    ghost function InUse(): set<Buffer> {
      set b | b in buffers && b !in free
    }

    /** Free buffers and buffers in use add up to the allocated ones. */
    lemma FreePlusInUse()
      requires Exclusive()
      ensures |free| + |InUse()| == |buffers|
    {
      DistinctSize(free);
      var f := set b | b in free;
      assert f + InUse() == buffers;
    }

    /** A new buffer, handed out. */
    ghost function Add(b: Buffer): Ownership {
      this.(buffers := buffers + {b}, loose := loose + {b})
    }

    lemma AddExclusive(b: Buffer)
      requires Exclusive() && b !in buffers
      ensures Add(b).Exclusive()
    {
      var after := Add(b);
      forall c | c in after.buffers && c !in after.loose && c !in after.free ensures after.Somewhere(c) {
        assert Somewhere(c);
      }
    }

    /** A handed-out buffer goes on top of the free list. */
    ghost function Push(b: Buffer): Ownership {
      this.(free := free + [b], loose := loose - {b})
    }

    lemma PushExclusive(b: Buffer)
      requires Exclusive() && b in loose
      ensures Push(b).Exclusive()
    {
      var after := Push(b);
      assert after.free[|free|] == b;
      forall c | c in after.buffers && c !in after.loose && c !in after.free ensures after.Somewhere(c) {
        assert c !in free by { assert forall i :: 0 <= i < |free| ==> after.free[i] == free[i]; }
        assert Somewhere(c);
      }
    }

    ghost function PushAll(list: seq<Buffer>): Ownership {
      this.(free := free + list, loose := loose - set b | b in list)
    }

    lemma PushAllStep(list: seq<Buffer>, b: Buffer)
      ensures PushAll(list).Push(b) == PushAll(list + [b])
    {
      assert (set c | c in list + [b]) == (set c | c in list) + {b};
    }

    ghost function Top(): Buffer
      requires free != []
    {
      free[|free| - 1]
    }

    /** The top of the free list is handed out. */
    ghost function Pop(): Ownership
      requires free != []
    {
      this.(free := free[..|free| - 1], loose := loose + {Top()})
    }

    lemma PopExclusive()
      requires Exclusive() && free != []
      ensures Pop().Exclusive() && Top() !in loose && Top() in buffers
    {
      var after := Pop();
      forall c | c in after.buffers && c !in after.loose && c !in after.free ensures after.Somewhere(c) {
        assert c !in free by { assert free == after.free + [Top()]; }
        assert Somewhere(c);
      }
    }

    /** A new batch. */
    ghost function Open(t: Batch): Ownership {
      this.(chains := chains[t := []])
    }

    lemma OpenExclusive(t: Batch)
      requires Exclusive() && t !in chains
      ensures Open(t).Exclusive()
    {
      var after := Open(t);
      forall c | c in after.buffers && c !in after.loose && c !in after.free ensures after.Somewhere(c) {
        assert Somewhere(c);
        var u: Batch :| u in chains && c in chains[u];
        assert u in after.chains && after.chains[u] == chains[u];
      }
    }

    /** A handed-out buffer is linked behind the chain of t. */
    ghost function Link(t: Batch, b: Buffer): Ownership
      requires t in chains
    {
      this.(chains := chains[t := chains[t] + [b]], loose := loose - {b})
    }

    lemma LinkExclusive(t: Batch, b: Buffer)
      requires Exclusive() && t in chains && b in loose
      ensures Link(t, b).Exclusive() && NoDuplicates(chains[t]) && b !in chains[t]
    {
      var after := Link(t, b);
      assert after.chains[t][|chains[t]|] == b;
      forall c | c in after.buffers && c !in after.loose && c !in after.free ensures after.Somewhere(c) {
        if c == b {
          assert c in after.chains[t];
        } else {
          assert Somewhere(c);
          var u: Batch :| u in chains && c in chains[u];
          assert c in after.chains[u];
        }
      }
    }

    /** The chain of u moves behind the chain of t. */
    ghost function Splice(t: Batch, u: Batch): Ownership
      requires t in chains && u in chains
    {
      this.(chains := chains[t := chains[t] + chains[u]][u := []])
    }

    lemma SpliceExclusive(t: Batch, u: Batch)
      requires Exclusive() && t in chains && u in chains && t != u
      ensures Splice(t, u).Exclusive() && NoDuplicates(chains[t] + chains[u])
    {
      var after := Splice(t, u);
      NoDuplicatesAppend(chains[t], chains[u]);
      assert forall b :: b in after.chains[t] <==> b in chains[t] || b in chains[u];
      forall c | c in after.buffers && c !in after.loose && c !in after.free ensures after.Somewhere(c) {
        assert Somewhere(c);
        var v: Batch :| v in chains && c in chains[v];
        if v == u {
          assert c in after.chains[t];
        } else {
          assert c in after.chains[v];
        }
      }
    }

    ghost function Exchange(t: Batch, u: Batch): Ownership
      requires t in chains && u in chains
    {
      this.(chains := chains[t := chains[u]][u := chains[t]])
    }

    lemma ExchangeSeparate(t: Batch, u: Batch)
      requires Separate() && t in chains && u in chains
      ensures Exchange(t, u).Separate()
    {
    }

    lemma ExchangeExclusive(t: Batch, u: Batch)
      requires Exclusive() && t in chains && u in chains
      ensures Exchange(t, u).Exclusive()
    {
      hide NoDuplicates; hide Separate;
      ExchangeSeparate(t, u);
      var after := Exchange(t, u);
      forall c | c in after.buffers && c !in after.loose && c !in after.free ensures after.Somewhere(c) {
        assert Somewhere(c);
        var v: Batch :| v in chains && c in chains[v];
        assert c in after.chains[if v == t then u else if v == u then t else v];
      }
    }

    /** A batch ends and its buffers are on their way back. */
    ghost function Close(t: Batch): Ownership
      requires t in chains
    {
      this.(chains := chains - {t}, loose := loose + set b | b in chains[t])
    }

    lemma CloseExclusive(t: Batch)
      requires Exclusive() && t in chains
      ensures Close(t).Exclusive()
    {
      var after := Close(t);
      forall c | c in after.buffers && c !in after.loose && c !in after.free ensures after.Somewhere(c) {
        assert Somewhere(c);
        var v: Batch :| v in chains && c in chains[v];
        assert v in after.chains && c in after.chains[v];
      }
    }
  }

  lemma {:induction false} DistinctSize(s: seq<Buffer>)
    requires NoDuplicates(s)
    ensures |set b | b in s| == |s|
  {
    if s != [] {
      var rest := s[..|s| - 1];
      DistinctSize(rest);
      assert (set b | b in s) == (set b | b in rest) + {s[|s| - 1]};
      assert s[|s| - 1] !in rest;
    }
  }

  ghost predicate FreeLinked(free: seq<Buffer>, head: Buffer?)
    reads free`next
  {
    && head == (if free == [] then null else free[|free| - 1])
    && forall i {:trigger free[i].next} :: 0 <= i < |free| ==>
         free[i].next == if i == 0 then null else free[i - 1]
  }

  datatype Kind = Packets | Stream

  datatype CopyError = DestinationTooSmall | DestinationNull | ByteCountMismatch

  datatype CopyResult = Copied | CopyFailed(error: CopyError)

  /** ReceiveBatch (datagrams with their boundaries) or StreamReceiveBatch (bytes). */
  class Batch {
    const pool: Pool
    const kind: Kind
    var head: Buffer?
    var tail: Buffer?
    var packetCount: nat
    var byteCount: nat
    var bufferCount: nat

    constructor (pool: Pool, kind: Kind)
      requires pool.Inv()
      modifies pool`own
      ensures this.pool == pool && this.kind == kind && Live() && pool.own == old(pool.own).Open(this)
      ensures packetCount == 0 && byteCount == 0
    {
      this.pool := pool;
      this.kind := kind;
      head, tail := null, null;
      packetCount, byteCount, bufferCount := 0, 0, 0;
      new;
      Register();
    }

    /** A new batch joins its pool with an empty chain. */
    ghost method Register()
      requires pool.Inv() && this !in pool.own.chains && head == null && tail == null && bufferCount == 0
      modifies pool`own
      ensures Live() && pool.own == old(pool.own).Open(this)
    {
      hide Ownership.Exclusive; hide FreeLinked; hide NoDuplicates;
      pool.own.OpenExclusive(this);
      pool.own := pool.own.Open(this);
    }

    /** The fields of the batch describe `chain`. */
    ghost predicate Holds(chain: seq<Buffer>)
      reads this`head, this`tail, this`bufferCount, chain`next
    {
      && Linked(chain, head)
      && tail == (if chain == [] then null else chain[|chain| - 1])
      && bufferCount == |chain|
    }

    ghost predicate Live()
      reads pool, pool.own.buffers`next, pool.own.chains.Keys`head, pool.own.chains.Keys`tail,
            pool.own.chains.Keys`bufferCount
    {
      pool.Inv() && this in pool.own.chains
    }

    ghost function Chain(): seq<Buffer>
      requires Live()
      reads this, pool, pool.own.buffers, pool.own.chains.Keys
    {
      pool.own.chains[this]
    }

    ghost function Bytes(): seq<byte>
      requires Live()
      reads this, pool, pool.own.buffers, pool.own.chains.Keys
    {
      BytesOf(Bodies(Chain()))
    }

    ghost function Datagrams(): seq<Datagram>
      requires Live()
      reads this, pool, pool.own.buffers, pool.own.chains.Keys
    {
      DatagramsOf(Bodies(Chain()))
    }

    ghost predicate Valid()
      reads this, pool, pool.own.buffers, pool.own.chains.Keys
    {
      && Live()
      && (kind.Packets? ==> packetCount == |Datagrams()|)
      && (kind.Stream? ==> byteCount == |Bytes()|)
    }

    ghost function Tail(): set<Buffer>
      reads this
    {
      if tail == null then {} else {tail}
    }

    /** Links a fresh buffer behind the tail. */
    method ExtendChain()
      requires Live()
      modifies this`head, this`tail, this`bufferCount, Tail()`next, pool, pool.own.FreeSet()
      ensures Live() && tail != null && tail.body.Empty()
      ensures Chain() == old(Chain()) + [tail] && tail !in old(Chain())
      ensures Bodies(Chain()) == old(Bodies(Chain())) + [tail.body]
      ensures pool.own.chains == old(pool.own.chains)[this := Chain()] && pool.own.loose == old(pool.own.loose)
      ensures old(pool.own.buffers) <= pool.own.buffers && fresh(pool.own.buffers - old(pool.own.buffers))
      ensures tail in old(pool.own.FreeSet()) || fresh(tail)
      ensures forall b :: b in pool.own.FreeSet() ==> b in old(pool.own.FreeSet()) || fresh(b)
    {
      hide Pool.Inv; hide Bodies;
      ghost var chain := Chain();
      var buffer := AcquireApart(chain);
      LinkBuffer(buffer);
      BodiesOfLast(chain, buffer);
    }

    /** Acquiring a buffer leaves the contents of the chain alone. */
    method AcquireApart(ghost chain: seq<Buffer>) returns (buffer: Buffer)
      requires Live() && chain == Chain()
      modifies pool, pool.own.FreeSet()
      ensures Live() && buffer.body.Empty() && buffer.next == null && buffer !in chain
      ensures pool.own.chains == old(pool.own.chains) && pool.own.loose == old(pool.own.loose) + {buffer}
      ensures buffer !in old(pool.own.loose) && (buffer in old(pool.own.FreeSet()) || fresh(buffer))
      ensures forall b :: b in pool.own.FreeSet() ==> b in old(pool.own.FreeSet()) || fresh(b)
      ensures old(pool.own.buffers) <= pool.own.buffers && fresh(pool.own.buffers - old(pool.own.buffers))
      ensures Bodies(chain) == old(Bodies(chain))
    {
      ghost var free := pool.own.free;
      assert forall b :: b in chain ==> b !in free;
      buffer := pool.Acquire();
      SameBodies(chain);
    }

    method LinkBuffer(buffer: Buffer)
      requires Live() && buffer in pool.own.loose && buffer.next == null
      modifies this`head, this`tail, this`bufferCount, Tail()`next, pool`own
      ensures Live() && tail == buffer && pool.own == old(pool.own).Link(this, buffer)
    {
      hide FreeLinked; hide Ownership.Exclusive; hide NoDuplicates; hide Linked;
      ghost var own, last := pool.own, tail;
      own.LinkExclusive(this, buffer);
      Attach(buffer, own.chains[this]);
      KeepsOthers(own, last);
      pool.own := own.Link(this, buffer);
    }

    /** The pointer work of appending, on the chain alone. */
    method Attach(buffer: Buffer, ghost chain: seq<Buffer>)
      requires Holds(chain) && NoDuplicates(chain) && buffer !in chain && buffer.next == null
      modifies this`head, this`tail, this`bufferCount, Tail()`next
      ensures Holds(chain + [buffer])
      ensures old(tail) != null ==> old(tail) in chain
    {
      if head == null {
        head := buffer;
      } else {
        assert tail == chain[|chain| - 1];
        tail.next := buffer;
      }
      tail := buffer;
      bufferCount := bufferCount + 1;
    }

    /** A changed link inside this batch's chain touches no other list. */
    twostate lemma KeepsOthers(own: Ownership, new touched: Buffer?)
      requires own.Exclusive() && this in own.chains
      requires touched != null ==> touched in own.chains[this]
      requires forall b :: b in own.buffers && b != touched ==> b.next == old(b.next)
      requires forall t :: t in own.chains && t != this ==> t.head == old(t.head)
      requires forall t :: t in own.chains && t != this ==> t.tail == old(t.tail)
      requires forall t :: t in own.chains && t != this ==> t.bufferCount == old(t.bufferCount)
      ensures old(FreeLinked(own.free, pool.freeHead)) ==> FreeLinked(own.free, old(pool.freeHead))
      ensures forall t :: t in own.chains && t != this && old(t.Holds(own.chains[t])) ==> t.Holds(own.chains[t])
    {
    }

    /** Filling the last buffer, on the chain alone. */
    method FillPacket(data: seq<byte>, ghost chain: seq<Buffer>) returns (ok: bool)
      requires tail != null && chain != [] && chain[|chain| - 1] == tail && tail !in chain[..|chain| - 1]
      modifies tail`body
      ensures ok <==> data != [] && old(tail.body).CanAppend(|data|)
      ensures DatagramsOf(Bodies(chain)) == old(DatagramsOf(Bodies(chain))) + (if ok then [data] else [])
    {
      ghost var front := Bodies(chain[..|chain| - 1]);
      ContentsOfLast(front, tail.body);
      assert Bodies(chain) == front + [tail.body];
      ok := tail.AppendPacket(data);
      ContentsOfLast(front, tail.body);
      assert Bodies(chain) == front + [tail.body];
    }

    /** Makes sure that the last buffer can take what comes next, adding an empty one if needed. */
    method MakeRoom(extend: bool)
      requires Live() && (tail == null ==> extend)
      modifies this`head, this`tail, this`bufferCount, Tail()`next, pool, pool.own.FreeSet()
      ensures Live() && tail != null && (extend ==> tail.body.Empty())
      ensures !extend ==> tail == old(tail) && tail.body == old(tail.body)
      ensures Chain() != [] && Chain()[|Chain()| - 1] == tail && tail !in Chain()[..|Chain()| - 1]
      ensures Bytes() == old(Bytes()) && Datagrams() == old(Datagrams())
      ensures pool.own.chains == old(pool.own.chains)[this := Chain()] && pool.own.loose == old(pool.own.loose)
      ensures tail in old(pool.own.FreeSet()) || fresh(tail) || tail == old(tail)
      ensures forall b :: b in pool.own.FreeSet() ==> b in old(pool.own.FreeSet()) || fresh(b)
      ensures old(pool.own.buffers) <= pool.own.buffers && fresh(pool.own.buffers - old(pool.own.buffers))
    {
      if extend {
        ghost var bodies := Bodies(Chain());
        ExtendChain();
        ContentsOfLast(bodies, tail.body);
      } else {
        assert pool.own.chains[this := Chain()] == pool.own.chains;
      }
    }

    /** ReceiveBatch::append.  A datagram that can never fit is refused; it may leave an empty buffer
        behind, which holds no datagram. */
    method AppendPacket(data: seq<byte>) returns (ok: bool)
      requires Valid() && kind.Packets?
      modifies this, Tail(), pool, pool.own.FreeSet()
      ensures Valid()
      ensures ok <==> 0 < |data| <= UINT16_MAX
      ensures Datagrams() == old(Datagrams()) + (if ok then [data] else [])
      ensures pool.own.chains == old(pool.own.chains)[this := Chain()] && pool.own.loose == old(pool.own.loose)
      ensures old(pool.own.buffers) <= pool.own.buffers && fresh(pool.own.buffers - old(pool.own.buffers))
      ensures forall t :: t in old(pool.own.chains) && t != this ==>
        Bodies(old(pool.own.chains)[t]) == old(Bodies(pool.own.chains[t]))
    {
      hide Pool.Inv; hide Bodies; hide BytesOf; hide DatagramsOf;
      ghost var own := pool.own;
      ok := PutPacket(data);
      KeepsContents(own);
    }

    method PutPacket(data: seq<byte>) returns (ok: bool)
      requires Valid() && kind.Packets?
      modifies this, Tail(), pool, pool.own.FreeSet()
      ensures Valid()
      ensures ok <==> 0 < |data| <= UINT16_MAX
      ensures Datagrams() == old(Datagrams()) + (if ok then [data] else [])
      ensures pool.own.chains == old(pool.own.chains)[this := Chain()] && pool.own.loose == old(pool.own.loose)
      ensures old(pool.own.buffers) <= pool.own.buffers && fresh(pool.own.buffers - old(pool.own.buffers))
    {
      hide Pool.Inv; hide Bodies; hide BytesOf; hide DatagramsOf;
      MakeRoom(tail == null || !tail.body.CanAppend(|data|));
      ok := FillPacket(data, Chain());
      if ok {
        packetCount := packetCount + 1;
      }
    }

    /** Filling this batch touches its last buffer and free ones, so no other batch's contents. */
    twostate lemma KeepsContents(new own: Ownership)
      requires old(Live()) && own == old(pool.own)
      requires forall b :: b in own.buffers && b !in own.FreeSet() && b != old(tail) ==> b.body == old(b.body)
      ensures forall t :: t in own.chains && t != this ==> Bodies(own.chains[t]) == old(Bodies(own.chains[t]))
    {
      forall t | t in own.chains && t != this ensures Bodies(own.chains[t]) == old(Bodies(own.chains[t])) {
        ApartFromTail(t);
        SameBodies(own.chains[t]);
      }
    }

    twostate lemma ApartFromTail(t: Batch)
      requires old(Live()) && t in old(pool.own.chains) && t != this
      ensures forall b :: b in old(pool.own.chains[t]) ==>
        b in old(pool.own.buffers) && b !in old(pool.own.FreeSet()) && b != old(tail)
    {
    }

    /** Filling the last buffer with stream bytes, on the chain alone. */
    method FillBytes(data: seq<byte>, ghost chain: seq<Buffer>) returns (copied: nat)
      requires tail != null && chain != [] && chain[|chain| - 1] == tail && tail !in chain[..|chain| - 1]
      modifies tail`body
      ensures copied == if |data| < old(tail.body).Available() then |data| else old(tail.body).Available()
      ensures BytesOf(Bodies(chain)) == old(BytesOf(Bodies(chain))) + data[..copied]
    {
      ghost var front := Bodies(chain[..|chain| - 1]);
      ContentsOfLast(front, tail.body);
      assert Bodies(chain) == front + [tail.body];
      copied := tail.AppendBytes(data);
      ContentsOfLast(front, tail.body);
      assert Bodies(chain) == front + [tail.body];
    }

    /** One round of StreamReceiveBatch::append; it always makes progress. */
    method AppendSome(data: seq<byte>) returns (copied: nat)
      requires Valid() && kind.Stream? && data != []
      modifies this`head, this`tail, this`bufferCount, this`byteCount, Tail(), pool, pool.own.FreeSet()
      ensures Valid() && 0 < copied <= |data|
      ensures Bytes() == old(Bytes()) + data[..copied]
      ensures pool.own.chains == old(pool.own.chains)[this := Chain()] && pool.own.loose == old(pool.own.loose)
      ensures tail != null && (tail in old(pool.own.FreeSet()) || fresh(tail) || tail == old(tail))
      ensures forall b :: b in pool.own.FreeSet() ==> b in old(pool.own.FreeSet()) || fresh(b)
      ensures old(pool.own.buffers) <= pool.own.buffers && fresh(pool.own.buffers - old(pool.own.buffers))
    {
      hide Pool.Inv; hide Bodies; hide BytesOf; hide DatagramsOf;
      MakeRoom(tail == null || tail.body.Available() == 0);
      copied := FillBytes(data, Chain());
      byteCount := byteCount + copied;
    }

    /** StreamReceiveBatch::append. */
    method AppendBytes(data: seq<byte>)
      requires Valid() && kind.Stream?
      modifies this`head, this`tail, this`bufferCount, this`byteCount, Tail(), pool, pool.own.FreeSet()
      ensures Valid() && Bytes() == old(Bytes()) + data
      ensures pool.own.chains == old(pool.own.chains)[this := Chain()]
      ensures pool.own.loose == old(pool.own.loose)
      ensures old(pool.own.buffers) <= pool.own.buffers && fresh(pool.own.buffers - old(pool.own.buffers))
      ensures forall t :: t in old(pool.own.chains) && t != this ==>
        Bodies(old(pool.own.chains)[t]) == old(Bodies(pool.own.chains[t]))
    {
      hide Pool.Inv; hide Bodies; hide BytesOf; hide DatagramsOf;
      ghost var own := pool.own;
      var offset := 0;
      assert old(pool.own.chains)[this := Chain()] == old(pool.own.chains);
      while offset < |data|
        invariant 0 <= offset <= |data|
        invariant Valid() && Bytes() == old(Bytes()) + data[..offset]
        invariant pool.own.chains == old(pool.own.chains)[this := Chain()]
        invariant pool.own.loose == old(pool.own.loose)
        invariant tail != null ==> tail in old(pool.own.FreeSet()) || fresh(tail) || tail == old(tail)
        invariant old(pool.own.buffers) <= pool.own.buffers && fresh(pool.own.buffers - old(pool.own.buffers))
        invariant forall b :: b in pool.own.FreeSet() ==> b in old(pool.own.FreeSet()) || fresh(b)
      {
        var copied := AppendSome(data[offset..]);
        assert data[..offset + copied] == data[..offset] + data[offset..][..copied];
        offset := offset + copied;
      }
      assert data[..offset] == data;
      KeepsContents(own);
    }

    /** Everything an operation on the batch may touch belongs to its pool. */
    lemma Owned()
      requires Live()
      ensures Tail() <= pool.own.buffers && pool.own.FreeSet() <= pool.own.buffers
      ensures forall b :: b in Chain() ==> b in pool.own.buffers
    {
    }

    lemma EmptyChain()
      requires Live()
      ensures head == null <==> Chain() == []
    {
      assert Holds(Chain());
    }

    /** The pointer work of a splice, on the two chains alone. */
    method JoinChains(other: Batch, ghost mine: seq<Buffer>, ghost theirs: seq<Buffer>)
      requires other != this && Holds(mine) && other.Holds(theirs) && other.head != null
      requires NoDuplicates(mine + theirs)
      modifies this`head, this`tail, this`bufferCount, Tail()`next, other`head, other`tail, other`bufferCount
      ensures Holds(mine + theirs) && other.Holds([])
      ensures old(tail) != null ==> old(tail) in mine
    {
      if head == null {
        head := other.head;
      } else {
        assert tail == mine[|mine| - 1] == (mine + theirs)[|mine| - 1];
        tail.next := other.head;
      }
      tail := other.tail;
      bufferCount := bufferCount + other.bufferCount;
      other.head, other.tail, other.bufferCount := null, null, 0;
    }

    /** StreamReceiveBatch::appendBatch.  The other batch's bytes move behind this batch's, without a
        copy; a batch of another pool is refused. */
    method AppendBatch(other: Batch) returns (ok: bool)
      requires Valid() && kind.Stream? && other.Valid() && other.kind.Stream? && other != this
      modifies this`head, this`tail, this`bufferCount, this`byteCount, Tail()`next, pool`own,
               other`head, other`tail, other`bufferCount, other`byteCount
      ensures Valid() && other.Valid()
      ensures ok <==> pool == other.pool
      ensures ok ==> Bytes() == old(Bytes()) + old(other.Bytes()) && other.Bytes() == []
      ensures ok ==> pool.own == old(pool.own).Splice(this, other)
      ensures !ok ==> Bytes() == old(Bytes()) && other.Bytes() == old(other.Bytes()) && pool.own == old(pool.own)
    {
      hide Bodies; hide BytesOf; hide Pool.Inv;
      if pool != other.pool {
        return false;
      }
      SpliceFrom(other);
      ok := true;
    }

    method SpliceFrom(other: Batch)
      requires Valid() && kind.Stream? && other.Valid() && other.kind.Stream? && other != this && pool == other.pool
      modifies this`head, this`tail, this`bufferCount, this`byteCount, Tail()`next, pool`own,
               other`head, other`tail, other`bufferCount, other`byteCount
      ensures Valid() && other.Valid()
      ensures Bytes() == old(Bytes()) + old(other.Bytes()) && other.Bytes() == []
      ensures pool.own == old(pool.own).Splice(this, other)
    {
      hide Bodies; hide BytesOf; hide DatagramsOf; hide Pool.Inv;
      ghost var own := pool.own;
      ghost var mine, theirs := own.chains[this], own.chains[other];
      NoContents();
      BodiesAppend(mine, theirs);
      BytesOfAppend(Bodies(mine), Bodies(theirs));
      other.EmptyChain();
      if other.head == null {
        assert mine + theirs == mine && own.Splice(this, other) == own;
        return;
      }
      SpliceChains(other);
      byteCount := byteCount + other.byteCount;
      other.byteCount := 0;
    }

    method SpliceChains(other: Batch)
      requires Live() && other.Live() && other != this && pool == other.pool && other.head != null
      modifies this`head, this`tail, this`bufferCount, Tail()`next, pool`own,
               other`head, other`tail, other`bufferCount
      ensures Live() && other.Live() && pool.own == old(pool.own).Splice(this, other)
    {
      hide FreeLinked; hide Ownership.Exclusive; hide NoDuplicates; hide Linked;
      ghost var own, last := pool.own, tail;
      own.SpliceExclusive(this, other);
      JoinChains(other, own.chains[this], own.chains[other]);
      KeepsOthersButOne(own, other, last);
      pool.own := own.Splice(this, other);
    }

    /** The same as `KeepsOthers` when `other` changes as well. */
    twostate lemma KeepsOthersButOne(own: Ownership, new other: Batch, new touched: Buffer?)
      requires own.Exclusive() && this in own.chains
      requires touched != null ==> touched in own.chains[this]
      requires forall b :: b in own.buffers && b != touched ==> b.next == old(b.next)
      requires forall t :: t in own.chains && t != this && t != other ==>
                 t.head == old(t.head) && t.tail == old(t.tail) && t.bufferCount == old(t.bufferCount)
      ensures old(FreeLinked(own.free, pool.freeHead)) ==> FreeLinked(own.free, old(pool.freeHead))
      ensures forall t :: t in own.chains && t != this && t != other && old(t.Holds(own.chains[t])) ==> t.Holds(own.chains[t])
    {
    }

    /** swap: the two batches trade everything they hold. */
    method Swap(other: Batch) returns (ok: bool)
      requires Valid() && other.Valid() && kind == other.kind
      modifies this`head, this`tail, this`bufferCount, this`byteCount, this`packetCount, pool`own,
               other`head, other`tail, other`bufferCount, other`byteCount, other`packetCount
      ensures Valid() && other.Valid()
      ensures ok <==> pool == other.pool
      ensures ok ==> pool.own == old(pool.own).Exchange(this, other)
      ensures ok ==> Bytes() == old(other.Bytes()) && other.Bytes() == old(Bytes())
      ensures ok ==> Datagrams() == old(other.Datagrams()) && other.Datagrams() == old(Datagrams())
      ensures !ok ==> pool.own == old(pool.own) && head == old(head) && other.head == old(other.head)
    {
      hide Bodies; hide BytesOf; hide DatagramsOf; hide FreeLinked; hide Holds; hide Ownership.Exclusive; hide NoDuplicates; hide Linked;
      if pool != other.pool {
        return false;
      }
      ok := true;
      ghost var own := pool.own;
      own.ExchangeExclusive(this, other);
      SwapFields(other, own.chains[this], own.chains[other]);
      KeepsOthersButOne(own, other, null);
      pool.own := own.Exchange(this, other);
    }

    method SwapFields(other: Batch, ghost mine: seq<Buffer>, ghost theirs: seq<Buffer>)
      requires Holds(mine) && other.Holds(theirs)
      modifies this`head, this`tail, this`bufferCount, this`byteCount, this`packetCount,
               other`head, other`tail, other`bufferCount, other`byteCount, other`packetCount
      ensures Holds(theirs) && other.Holds(mine)
      ensures packetCount == old(other.packetCount) && other.packetCount == old(packetCount)
      ensures byteCount == old(other.byteCount) && other.byteCount == old(byteCount)
    {
      head, other.head := other.head, head;
      tail, other.tail := other.tail, tail;
      packetCount, other.packetCount := other.packetCount, packetCount;
      byteCount, other.byteCount := other.byteCount, byteCount;
      bufferCount, other.bufferCount := other.bufferCount, bufferCount;
    }

    /** The destructor: every buffer of the chain is back on the free list. */
    method Destroy()
      requires Live()
      modifies pool, Chain()
      ensures pool.Inv() && pool.own == old(pool.own).Close(this).PushAll(old(Chain()))
      ensures this !in pool.own.chains && pool.own.loose == old(pool.own.loose)
    {
      ghost var own := pool.own;
      ghost var chain := own.chains[this];
      own.CloseExclusive(this);
      pool.own := own.Close(this);
      assert own.Close(this).PushAll(chain).loose == own.loose;
      if head != null {
        pool.ReleaseChain(head, chain);
      } else {
        assert own.Close(this).PushAll([]) == own.Close(this);
      }
    }

    /** StreamReceiveBatch::copyTo.  The mismatch exception is unreachable. */
    method CopyTo(destination: array?<byte>, capacity: nat) returns (r: CopyResult)
      requires Valid() && kind.Stream?
      requires destination != null ==> destination.Length == capacity
      modifies if destination == null then {} else {destination}
      ensures r.Copied? <==> capacity >= byteCount && (byteCount != 0 ==> destination != null)
      ensures r.CopyFailed? ==> !r.error.ByteCountMismatch?
      ensures r.Copied? && destination != null ==>
        destination[..] == Bytes() + old(destination[..])[byteCount..]
      ensures r.CopyFailed? && destination != null ==> destination[..] == old(destination[..])
    {
      hide Bodies; hide BytesOf;
      if capacity < byteCount {
        return CopyFailed(DestinationTooSmall);
      }
      if byteCount != 0 && destination == null {
        return CopyFailed(DestinationNull);
      }
      ghost var chain := Chain();
      var offset := CopyChain(head, chain, destination);
      if offset != byteCount {
        return CopyFailed(ByteCountMismatch);
      }
      r := Copied;
    }

    /** ReceiveBatch::forEachPacket, with the callback's arguments collected in order. */
    method ForEachPacket() returns (seen: seq<Datagram>)
      requires Valid() && kind.Packets?
      ensures seen == Datagrams() && |seen| == packetCount
    {
      hide Bodies; hide DatagramsOf;
      seen := ReadChain(head, Chain());
    }
  }

  /** The copy loop, on the chain alone. */
  method CopyChain(head: Buffer?, ghost chain: seq<Buffer>, destination: array?<byte>) returns (offset: nat)
    requires Linked(chain, head)
    requires |BytesOf(Bodies(chain))| <= if destination == null then 0 else destination.Length
    modifies if destination == null then {} else {destination}
    ensures offset == |BytesOf(Bodies(chain))|
    ensures destination != null ==> destination[..] == BytesOf(Bodies(chain)) + old(destination[..])[offset..]
  {
    hide Bodies; hide BytesOf;
    NoContents();
    ghost var bodies := Bodies(chain);
    ghost var original := if destination == null then [] else destination[..];
    var buffer := head;
    offset := 0;
    ghost var index := 0;
    assert bodies[..0] == [];
    while buffer != null
      invariant 0 <= index <= |chain| && buffer == (if index < |chain| then chain[index] else null)
      invariant offset == |BytesOf(bodies[..index])| <= |BytesOf(bodies)|
      invariant destination != null ==> destination[..] == BytesOf(bodies[..index]) + original[offset..]
      decreases |chain| - index
    {
      BytesPrefix(bodies, index);
      var size := CopyOne(destination, BytesOf(bodies[..index]), offset, buffer.body, original);
      offset := offset + size;
      index := index + 1;
      buffer := buffer.next;
    }
    assert bodies[..index] == bodies;
  }

  lemma BytesPrefix(bodies: seq<Body>, index: nat)
    requires index < |bodies|
    ensures BytesOf(bodies[..index + 1]) == BytesOf(bodies[..index]) + bodies[index].Data()
    ensures |BytesOf(bodies[..index + 1])| <= |BytesOf(bodies)|
  {
    hide BytesOf; hide DatagramsOf;
    assert bodies[..index + 1] == bodies[..index] + [bodies[index]];
    ContentsOfLast(bodies[..index], bodies[index]);
    assert bodies == bodies[..index + 1] + bodies[index + 1..];
    BytesOfAppend(bodies[..index + 1], bodies[index + 1..]);
  }

  /** The loop over the buffers of a datagram batch. */
  method ReadChain(head: Buffer?, ghost chain: seq<Buffer>) returns (seen: seq<Datagram>)
    requires Linked(chain, head)
    ensures seen == DatagramsOf(Bodies(chain))
  {
    hide Bodies; hide DatagramsOf;
    NoContents();
    ghost var bodies := Bodies(chain);
    assert bodies[..0] == [];
    var buffer := head;
    seen := [];
    ghost var index := 0;
    while buffer != null
      invariant 0 <= index <= |chain| && buffer == (if index < |chain| then chain[index] else null)
      invariant seen == DatagramsOf(bodies[..index])
      decreases |chain| - index
    {
      assert bodies[..index + 1] == bodies[..index] + [bodies[index]];
      ContentsOfLast(bodies[..index], bodies[index]);
      var packets := ReadPackets(buffer.body);
      seen := seen + packets;
      index := index + 1;
      buffer := buffer.next;
    }
    assert bodies[..index] == bodies;
  }

  /** One round of the copy loop; an empty buffer is skipped. */
  method CopyOne(destination: array?<byte>, ghost done: seq<byte>, offset: nat, body: Body, ghost original: seq<byte>)
    returns (size: nat)
    requires offset == |done|
    requires offset + body.payloadSize <= if destination == null then 0 else destination.Length
    requires destination != null ==> |original| == destination.Length && destination[..] == done + original[offset..]
    modifies if destination == null then {} else {destination}
    ensures size == body.payloadSize
    ensures destination != null ==> destination[..] == done + body.Data() + original[offset + size..]
  {
    size := body.payloadSize;
    if size != 0 {
      CopyBytes(destination, offset, body.payload, size);
      assert destination[..offset] == done;
      assert (done + original[offset..])[offset + size..] == original[offset + size..];
    } else {
      assert done + body.Data() == done;
    }
  }

  lemma NoContents()
    ensures BytesOf(Bodies([])) == [] && DatagramsOf(Bodies([])) == []
  {
  }

  /** The packet loop over one buffer; every table entry it reads is within the payload. */
  method ReadPackets(body: Body) returns (seen: seq<Datagram>)
    ensures seen == body.Datagrams()
  {
    seen := [];
    var k := 0;
    while k < body.packetCount
      invariant 0 <= k <= body.packetCount
      invariant |seen| == k && forall j :: 0 <= j < k ==> seen[j] == body.Datagrams()[j]
    {
      var packet := body.packets[k];
      seen := seen + [body.payload[packet.offset..packet.offset + packet.length]];
      k := k + 1;
    }
  }

  /** memcpy into a destination at a running offset. */
  method CopyBytes(destination: array?<byte>, offset: nat, source: seq<byte>, size: nat)
    requires size <= |source| && destination != null && offset + size <= destination.Length
    modifies destination
    ensures destination[..] == old(destination[..])[..offset] + source[..size] + old(destination[..])[offset + size..]
  {
    forall k | 0 <= k < size {
      destination[offset + k] := source[k];
    }
  }

  lemma BodiesAppend(a: seq<Buffer>, b: seq<Buffer>)
    ensures Bodies(a + b) == Bodies(a) + Bodies(b)
  {
  }

  class Pool {
    var freeHead: Buffer?
    ghost var own: Ownership

    ghost predicate Inv()
      reads this, own.buffers`next, own.chains.Keys`head, own.chains.Keys`tail, own.chains.Keys`bufferCount
    {
      && own.Exclusive()
      && FreeLinked(own.free, freeHead)
      && (forall t :: t in own.chains ==> t.pool == this && t.Holds(own.chains[t]))
    }

    constructor ()
      ensures Inv() && own.loose == {} && own.chains == map[] && |own.free| == INITIAL_COUNT && fresh(own.buffers)
    {
      freeHead := null;
      own := Ownership({}, [], {}, map[]);
      new;
      Grow(INITIAL_COUNT);
    }

    /** Puts one handed-out buffer on top of the free list. */
    method PushFree(buffer: Buffer)
      requires Inv() && buffer in own.loose
      modifies this, buffer`next
      ensures Inv() && own == old(own).Push(buffer)
    {
      own.PushExclusive(buffer);
      buffer.next := freeHead;
      freeHead := buffer;
      own := own.Push(buffer);
    }

    /** A new slab.  Its buffers go on the free list one by one. */
    method Grow(count: nat)
      requires Inv()
      modifies this
      ensures Inv() && own.loose == old(own.loose) && own.chains == old(own.chains)
      ensures old(own.free) <= own.free && |own.free| == |old(own.free)| + count
      ensures old(own.buffers) <= own.buffers && fresh(own.buffers - old(own.buffers))
      ensures fresh(set b | b in own.free[|old(own.free)|..])
    {
      var index := 0;
      while index < count
        invariant 0 <= index <= count
        invariant Inv() && own.loose == old(own.loose) && own.chains == old(own.chains)
        invariant old(own.free) <= own.free && |own.free| == |old(own.free)| + index
        invariant old(own.buffers) <= own.buffers && fresh(own.buffers - old(own.buffers))
        invariant fresh(set b | b in own.free[|old(own.free)|..])
      {
        var buffer := new Buffer();
        own.AddExclusive(buffer);
        own := own.Add(buffer);
        PushFree(buffer);
        index := index + 1;
      }
    }

    /** Never null and never a buffer that is in use: it comes from the free list, which grows first
        when it is empty. */
    method Acquire() returns (buffer: Buffer)
      requires Inv()
      modifies this, own.FreeSet()
      ensures Inv() && own.loose == old(own.loose) + {buffer} && own.chains == old(own.chains)
      ensures buffer !in old(own.loose) && (buffer in old(own.FreeSet()) || fresh(buffer))
      ensures forall b :: b in own.FreeSet() ==> b in old(own.FreeSet()) || fresh(b)
      ensures buffer.body.Empty() && buffer.next == null
      ensures old(own.buffers) <= own.buffers && fresh(own.buffers - old(own.buffers))
    {
      if freeHead == null {
        Grow(GROW_COUNT);
      }
      buffer := TakeTop();
    }

    method TakeTop() returns (buffer: Buffer)
      requires Inv() && freeHead != null
      modifies this, freeHead
      ensures Inv() && old(own.free) != [] && own == old(own).Pop() && buffer == old(own).Top()
      ensures buffer.body.Empty() && buffer.next == null && buffer == old(freeHead)
    {
      own.PopExclusive();
      buffer := freeHead;
      freeHead := buffer.next;
      buffer.Reset();
      own := own.Pop();
    }

    /** Gives back one buffer that was handed out. */
    method Release(buffer: Buffer?)
      requires Inv() && (buffer != null ==> buffer in own.loose)
      modifies this, if buffer == null then {} else {buffer}
      ensures Inv() && own == (if buffer == null then old(own) else old(own).Push(buffer))
    {
      if buffer == null {
        return;
      }
      buffer.Reset();
      PushFree(buffer);
    }

    /** The step of `ReleaseChain`. */
    method ReleaseFirst(buffer: Buffer, ghost rest: seq<Buffer>) returns (next: Buffer?)
      requires Inv() && Linked(rest, buffer) && NoDuplicates(rest)
      requires forall b :: b in rest ==> b in own.loose
      modifies this, buffer
      ensures Inv() && own == old(own).Push(buffer) && Linked(rest[1..], next)
      ensures NoDuplicates(rest[1..]) && forall b :: b in rest[1..] ==> b in own.loose
    {
      next := buffer.next;
      assert Linked(rest[1..], next) && buffer !in rest[1..];
      Release(buffer);
    }

    /** Gives back a whole chain of handed-out buffers, following `next` before overwriting it. */
    method ReleaseChain(head: Buffer?, ghost chain: seq<Buffer>)
      requires Inv() && Linked(chain, head) && NoDuplicates(chain)
      requires forall b :: b in chain ==> b in own.loose
      modifies this, chain
      ensures Inv() && own == old(own).PushAll(chain)
    {
      hide Inv; hide NoDuplicates;
      var buffer := head;
      ghost var done: seq<Buffer> := [];
      ghost var rest: seq<Buffer> := chain;
      while buffer != null
        invariant done + rest == chain
        invariant Inv() && Linked(rest, buffer) && NoDuplicates(rest)
        invariant forall b :: b in rest ==> b in own.loose
        invariant own == old(own).PushAll(done)
        decreases |rest|
      {
        assert buffer == rest[0] == chain[|done|];
        var next := ReleaseFirst(buffer, rest);
        old(own).PushAllStep(done, buffer);
        done, rest := done + [buffer], rest[1..];
        buffer := next;
      }
    }
  }

  // ---------------------------------------------------------------------------------------------
  // Clients: any mix of operations on two batches of one pool.

  datatype Action = Append(toFirst: bool, data: seq<byte>) | Splice(ontoFirst: bool) | Trade

  /** What an action means for the two streams. */
  function Meaning(action: Action, first: seq<byte>, second: seq<byte>): (seq<byte>, seq<byte>) {
    match action
    case Append(toFirst, data) => if toFirst then (first + data, second) else (first, second + data)
    case Splice(ontoFirst) => if ontoFirst then (first + second, []) else ([], second + first)
    case Trade => (second, first)
  }

  function Meanings(actions: seq<Action>): (seq<byte>, seq<byte>) {
    if actions == [] then ([], [])
    else
      var before := Meanings(actions[..|actions| - 1]);
      Meaning(actions[|actions| - 1], before.0, before.1)
  }

  /** Two stream batches of one pool, with nothing but them changed since `chains` and `loose`. */
  ghost predicate Pair(a: Batch, b: Batch, pool: Pool, chains: map<Batch, seq<Buffer>>, loose: set<Buffer>)
    reads a, b, pool, a.pool, b.pool, pool.own.buffers, pool.own.chains.Keys, a.pool.own.buffers, a.pool.own.chains.Keys,
          b.pool.own.buffers, b.pool.own.chains.Keys
  {
    && a != b && a.pool == pool && b.pool == pool && a.kind.Stream? && b.kind.Stream?
    && a !in chains && b !in chains
    && a.Valid() && b.Valid() && pool.own.chains - {a, b} == chains && pool.own.loose == loose
  }

  /** One action on the pair. */
  method Act(a: Batch, b: Batch, pool: Pool, action: Action, ghost chains: map<Batch, seq<Buffer>>,
             ghost loose: set<Buffer>)
    requires Pair(a, b, pool, chains, loose)
    modifies a, b, pool, pool.own.buffers
    ensures Pair(a, b, pool, chains, loose)
    ensures (a.Bytes(), b.Bytes()) == Meaning(action, old(a.Bytes()), old(b.Bytes()))
    ensures old(pool.own.buffers) <= pool.own.buffers && fresh(pool.own.buffers - old(pool.own.buffers))
  {
    hide Pool.Inv; hide Bodies; hide BytesOf; hide DatagramsOf;
    match action
    case Append(toFirst, data) =>
      if toFirst {
        AppendTo(a, b, pool, data, chains, loose);
      } else {
        AppendTo(b, a, pool, data, chains, loose);
      }
    case Splice(ontoFirst) =>
      if ontoFirst {
        SpliceTo(a, b, pool, chains, loose);
      } else {
        SpliceTo(b, a, pool, chains, loose);
      }
    case Trade => TradeBoth(a, b, pool, chains, loose);
  }

  method AppendTo(a: Batch, b: Batch, pool: Pool, data: seq<byte>, ghost chains: map<Batch, seq<Buffer>>,
                  ghost loose: set<Buffer>)
    requires Pair(a, b, pool, chains, loose)
    modifies a, pool, pool.own.buffers
    ensures Pair(a, b, pool, chains, loose)
    ensures a.Bytes() == old(a.Bytes()) + data && b.Bytes() == old(b.Bytes())
    ensures old(pool.own.buffers) <= pool.own.buffers && fresh(pool.own.buffers - old(pool.own.buffers))
  {
    hide Pool.Inv; hide Bodies; hide BytesOf; hide DatagramsOf;
    a.Owned();
    a.AppendBytes(data);
  }

  method SpliceTo(a: Batch, b: Batch, pool: Pool, ghost chains: map<Batch, seq<Buffer>>, ghost loose: set<Buffer>)
    requires Pair(a, b, pool, chains, loose)
    modifies a, b, pool, pool.own.buffers
    ensures Pair(a, b, pool, chains, loose) && pool.own.buffers == old(pool.own.buffers)
    ensures a.Bytes() == old(a.Bytes()) + old(b.Bytes()) && b.Bytes() == []
  {
    hide Pool.Inv; hide Bodies; hide BytesOf; hide DatagramsOf;
    a.Owned();
    var ok := a.AppendBatch(b);
  }

  method TradeBoth(a: Batch, b: Batch, pool: Pool, ghost chains: map<Batch, seq<Buffer>>, ghost loose: set<Buffer>)
    requires Pair(a, b, pool, chains, loose)
    modifies a, b, pool, pool.own.buffers
    ensures Pair(a, b, pool, chains, loose) && pool.own.buffers == old(pool.own.buffers)
    ensures a.Bytes() == old(b.Bytes()) && b.Bytes() == old(a.Bytes())
  {
    hide Pool.Inv; hide Bodies; hide BytesOf; hide DatagramsOf;
    var ok := a.Swap(b);
  }

  /** Any mix of operations on two new batches of one pool: the copies are what the operations mean
      for the two streams, and after the destruction every buffer is back where it was, or free. */
  method Replay(pool: Pool, actions: seq<Action>) returns (first: array<byte>, second: array<byte>)
    requires pool.Inv()
    modifies pool, pool.own.buffers
    ensures pool.Inv() && pool.own.chains == old(pool.own.chains) && pool.own.loose == old(pool.own.loose)
    ensures (first[..], second[..]) == Meanings(actions)
  {
    hide Pool.Inv; hide Pair; hide Bodies; hide BytesOf; hide DatagramsOf; hide Meanings;
    ghost var chains, loose := pool.own.chains, pool.own.loose;
    var a, b := OpenPair(pool);
    PlayAll(a, b, pool, actions, chains, loose);
    first, second := CopyBoth(a, b, pool, chains, loose);
    ClosePair(a, b, pool, chains, loose);
  }

  method PlayAll(a: Batch, b: Batch, pool: Pool, actions: seq<Action>, ghost chains: map<Batch, seq<Buffer>>,
                 ghost loose: set<Buffer>)
    requires Pair(a, b, pool, chains, loose) && a.Bytes() == b.Bytes() == []
    modifies a, b, pool, pool.own.buffers
    ensures Pair(a, b, pool, chains, loose) && (a.Bytes(), b.Bytes()) == Meanings(actions)
    ensures old(pool.own.buffers) <= pool.own.buffers && fresh(pool.own.buffers - old(pool.own.buffers))
  {
    hide Pool.Inv; hide Bodies; hide BytesOf; hide DatagramsOf;
    for k := 0 to |actions|
      invariant Pair(a, b, pool, chains, loose)
      invariant (a.Bytes(), b.Bytes()) == Meanings(actions[..k])
      invariant old(pool.own.buffers) <= pool.own.buffers && fresh(pool.own.buffers - old(pool.own.buffers))
    {
      assert actions[..k + 1][..k] == actions[..k];
      Act(a, b, pool, actions[k], chains, loose);
    }
    assert actions[..|actions|] == actions;
  }

  method OpenPair(pool: Pool) returns (a: Batch, b: Batch)
    requires pool.Inv()
    modifies pool`own
    ensures Pair(a, b, pool, old(pool.own.chains), old(pool.own.loose)) && fresh(a) && fresh(b)
    ensures a.Bytes() == [] && b.Bytes() == [] && pool.own.buffers == old(pool.own.buffers)
  {
    hide Pool.Inv; hide BytesOf; hide DatagramsOf;
    ghost var chains := pool.own.chains;
    a := new Batch(pool, Stream);
    b := new Batch(pool, Stream);
    NoContents();
    assert pool.own.chains - {a, b} == chains;
  }

  method CopyOut(a: Batch) returns (copy: array<byte>)
    requires a.Valid() && a.kind.Stream?
    ensures fresh(copy) && copy[..] == a.Bytes()
  {
    hide Pool.Inv; hide Bodies; hide BytesOf; hide DatagramsOf;
    copy := new byte[a.byteCount](_ => 0);
    var r := a.CopyTo(copy, copy.Length);
    assert copy[..] == a.Bytes() + [];
  }

  method CopyBoth(a: Batch, b: Batch, pool: Pool, ghost chains: map<Batch, seq<Buffer>>, ghost loose: set<Buffer>)
    returns (first: array<byte>, second: array<byte>)
    requires Pair(a, b, pool, chains, loose)
    ensures Pair(a, b, pool, chains, loose)
    ensures first[..] == old(a.Bytes()) && second[..] == old(b.Bytes())
  {
    hide Pool.Inv; hide Bodies; hide BytesOf; hide DatagramsOf;
    first := CopyOut(a);
    second := CopyOut(b);
  }

  method ClosePair(a: Batch, b: Batch, pool: Pool, ghost chains: map<Batch, seq<Buffer>>, ghost loose: set<Buffer>)
    requires Pair(a, b, pool, chains, loose)
    modifies pool, pool.own.buffers
    ensures pool.Inv() && pool.own.chains == chains && pool.own.loose == loose
  {
    hide Pool.Inv; hide Bodies; hide BytesOf; hide DatagramsOf;
    a.Owned();
    b.Owned();
    a.Destroy();
    b.Destroy();
  }
}
