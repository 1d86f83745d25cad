/** Backpressure on the writer: watermarks, the wait for capacity, and the memory bound that they
    give over whole runs. */
module WriteFlow {

  datatype Configuration = Configuration(high: int, low: int)

  function FromHighWatermarkBytes(high: int): (c: Configuration)
    ensures c.high == high && 1 <= c.low && (1 <= high ==> c.low <= high)
    ensures if 2 <= high then 2 * c.low <= high < 2 * c.low + 2 else c.low == 1
  {
    var half := high / 2;
    Configuration(high, if half < 1 then 1 else half)
  }

  predicate HasCapacity(c: Configuration, buffered: nat, size: nat) {
    (buffered == 0 && size > c.high) || buffered + size <= c.high
  }

  datatype Wait = Admitted(after: nat) | TimedOut

  /** The index of the read that lets the write through: the first if there is capacity, else the
      first at or below the low watermark. */
  ghost predicate Lets(c: Configuration, seen: seq<nat>, size: nat, k: nat) {
    && k < |seen|
    && if HasCapacity(c, seen[0], size) then k == 0
       else seen[k] <= c.low && forall i :: 0 <= i < k ==> seen[i] > c.low
  }

  /** `seen` are the values of bufferedWriteBytes in the order the loop sees them; when they run out
      the deadline has passed (or the runtime has failed). */
  method WaitForCapacity(c: Configuration, seen: seq<nat>, size: nat) returns (r: Wait)
    requires seen != []
    ensures r.Admitted? ==> 0 < r.after && Lets(c, seen, size, r.after - 1)
    ensures r.TimedOut? <==> forall k :: 0 <= k < |seen| ==> !Lets(c, seen, size, k)
  {
    var buffered := seen[0];
    if HasCapacity(c, buffered, size) {
      assert Lets(c, seen, size, 0);
      return Admitted(1);
    }
    var next := 1;
    while buffered > c.low
      invariant 1 <= next <= |seen| && buffered == seen[next - 1]
      invariant forall i :: 0 <= i < next - 1 ==> seen[i] > c.low
      decreases |seen| - next
    {
      if next == |seen| {
        return TimedOut;
      }
      buffered := seen[next];
      next := next + 1;
    }
    assert Lets(c, seen, size, next - 1);
    r := Admitted(next);
  }

  /** One write of the only writer: what it read, and what was really buffered when it queued.  Only
      acknowledgements can happen in between, so the readings never grow. */
  datatype Write = Write(size: nat, seen: seq<nat>, k: nat, atQueue: nat)

  ghost predicate Possible(c: Configuration, buffered: nat, w: Write) {
    && w.size > 0 && Lets(c, w.seen, w.size, w.k)
    && w.seen[0] <= buffered
    && (forall i :: 0 < i < |w.seen| ==> w.seen[i] <= w.seen[i - 1])
    && w.atQueue <= w.seen[w.k]
  }

  ghost function BufferedAfter(writes: seq<Write>): nat {
    if writes == [] then 0 else writes[|writes| - 1].atQueue + writes[|writes| - 1].size
  }

  ghost predicate Run(c: Configuration, writes: seq<Write>) {
    forall k :: 0 <= k < |writes| ==> Possible(c, BufferedAfter(writes[..k]), writes[k])
  }

  predicate ChunksWithin(writes: seq<Write>, chunk: nat) {
    forall k :: 0 <= k < |writes| ==> writes[k].size <= chunk
  }

  /** What can be buffered at most with writes of at most `chunk` bytes. */
  function Bound(c: Configuration, chunk: nat): int {
    if c.high >= c.low + chunk then c.high else c.low + chunk
  }

  /** On every run, whatever is acknowledged when, the buffered bytes stay within the bound.  They
      only shrink between two writes, so the moments after a write are the ones that count. */
  lemma BufferedBounded(c: Configuration, writes: seq<Write>, chunk: nat)
    requires 0 <= c.low && Run(c, writes) && ChunksWithin(writes, chunk)
    ensures writes != [] ==> BufferedAfter(writes) <= Bound(c, chunk)
  {
    if writes != [] {
      var last := writes[|writes| - 1];
      assert Possible(c, BufferedAfter(writes[..|writes| - 1]), last);
    }
  }

  /** Nothing is acknowledged and every write is let through at its first reading. */
  function Straight(buffered: nat, size: nat): Write {
    Write(size, [buffered], 0, buffered)
  }

  /** `n` writes of one byte, none acknowledged. */
  lemma {:induction false} FillByBytes(c: Configuration, n: nat) returns (writes: seq<Write>)
    requires 1 <= c.low && n <= if c.low <= c.high then c.high else c.low
    requires c.low <= c.high || n <= 1
    ensures Run(c, writes) && BufferedAfter(writes) == n
    ensures forall k :: 0 <= k < |writes| ==> writes[k].size == 1
  {
    writes := [];
    if n > 0 {
      var before := FillByBytes(c, n - 1);
      writes := Extend(c, before, Straight(n - 1, 1));
    }
  }

  lemma Extend(c: Configuration, writes: seq<Write>, w: Write) returns (longer: seq<Write>)
    requires Run(c, writes) && Possible(c, BufferedAfter(writes), w)
    ensures longer == writes + [w] && Run(c, longer) && BufferedAfter(longer) == w.atQueue + w.size
  {
    longer := writes + [w];
    forall k | 0 <= k < |longer| ensures Possible(c, BufferedAfter(longer[..k]), longer[k]) {
      assert longer[..k] == if k < |writes| then writes[..k] else writes;
    }
  }

  /** The bound is reached, with no acknowledgement at all. */
  lemma BoundReached(high: int, chunk: nat) returns (writes: seq<Write>)
    requires chunk > 0
    ensures var c := FromHighWatermarkBytes(high);
            Run(c, writes) && BufferedAfter(writes) == Bound(c, chunk)
    ensures ChunksWithin(writes, chunk)
  {
    var c := FromHighWatermarkBytes(high);
    if c.high >= c.low + chunk {
      writes := FillByBytes(c, c.high);
    } else {
      var before := FillByBytes(c, c.low);
      writes := Extend(c, before, Straight(c.low, chunk));
    }
  }

  /** "Buffered writes never exceed the high watermark" is true exactly when a whole chunk fits
      between the two watermarks. */
  lemma HighWatermarkHolds(high: int, chunk: nat)
    requires chunk > 0
    ensures var c := FromHighWatermarkBytes(high);
            (forall writes: seq<Write> :: Run(c, writes) && ChunksWithin(writes, chunk)
               ==> BufferedAfter(writes) <= high)
            <==> c.low + chunk <= high
  {
    var c := FromHighWatermarkBytes(high);
    if c.low + chunk <= high {
      forall writes: seq<Write> | Run(c, writes) && ChunksWithin(writes, chunk)
        ensures BufferedAfter(writes) <= high
      {
        BufferedBounded(c, writes, chunk);
      }
    } else {
      var writes := BoundReached(high, chunk);
    }
  }
}
