/** Datagram boundaries.  Everything the send and receive paths do with a contiguous buffer of
    several datagrams is described by one function: `Cut`, which splits a byte string into
    pieces of the segment size with a possibly shorter last piece. */
module Datagrams {
  import opened Sequences

  type byte = x: int | 0 <= x < 256

  type Datagram = seq<byte>

  /** The datagrams a buffer holds when it is segmented every `segment` bytes. */
  function Cut(data: seq<byte>, segment: nat): seq<Datagram>
    requires 0 < segment
    decreases |data|
  {
    if data == [] then []
    else if |data| <= segment then [data]
    else [data[..segment]] + Cut(data[segment..], segment)
  }

  function Join(datagrams: seq<Datagram>): seq<byte> {
    if datagrams == [] then [] else datagrams[0] + Join(datagrams[1..])
  }

  lemma JoinCons(datagram: Datagram, rest: seq<Datagram>)
    ensures Join([datagram] + rest) == datagram + Join(rest)
  {
    assert ([datagram] + rest)[1..] == rest;
  }

  lemma {:induction false} JoinAppend(a: seq<Datagram>, b: seq<Datagram>)
    ensures Join(a + b) == Join(a) + Join(b)
  {
    if a == [] {
      assert a + b == b;
    } else {
      JoinMore(a, b);
      JoinAppend(a[1..], b);
      Regroup(a[0], Join(a[1..]), Join(b));
    }
  }

  lemma JoinMore(a: seq<Datagram>, b: seq<Datagram>)
    requires a != []
    ensures Join(a) == a[0] + Join(a[1..]) && Join(a + b) == a[0] + Join(a[1..] + b)
  {
    Uncons(a, b);
    JoinCons(a[0], a[1..] + b);
  }

  lemma JoinOne(datagram: Datagram)
    ensures Join([datagram]) == datagram
  {
    assert [datagram][1..] == [];
    assert Join([]) == [];
    assert datagram + [] == datagram;
  }

  /** No byte is lost, added or reordered by segmentation. */
  lemma {:induction false} CutKeepsBytes(data: seq<byte>, segment: nat)
    requires 0 < segment
    ensures Join(Cut(data, segment)) == data
    decreases |data|
  {
    if |data| > segment {
      var head, rest := data[..segment], data[segment..];
      CutKeepsBytes(rest, segment);
      JoinAppend([head], Cut(rest, segment));
      JoinOne(head);
      assert data == head + rest;
    } else if data != [] {
      JoinOne(data);
    }
  }

  /** Every datagram but the last has exactly the segment size, the last is not empty, and there
      are ceil(size / segment) of them. */
  lemma {:induction false} CutShape(data: seq<byte>, segment: nat)
    requires 0 < segment
    ensures |Cut(data, segment)| == (|data| + segment - 1) / segment
    ensures forall k :: 0 <= k < |Cut(data, segment)| - 1 ==> |Cut(data, segment)[k]| == segment
    ensures forall k :: 0 <= k < |Cut(data, segment)| ==> 0 < |Cut(data, segment)[k]| <= segment
    decreases |data|
  {
    if |data| > segment {
      CutShape(data[segment..], segment);
      DivideStep(|data| - 1, segment);
    } else if data != [] {
      DivideOnce(|data| + segment - 1, segment);
    } else {
      DivideNone(segment - 1, segment);
    }
  }

  /** Division with remainder is unique. */
  lemma DivisionUnique(n: nat, d: nat, q: int, r: int)
    requires 0 < d && 0 <= r < d && n == q * d + r
    ensures n / d == q && n % d == r
  {
    var p := n / d;
    assert n == p * d + n % d;
    assert (q - p) * d == n % d - r;
    if q > p {
      MultipleAtLeast(q - p, d);
    } else if q < p {
      MultipleAtLeast(p - q, d);
    }
  }

  lemma MultipleAtLeast(k: nat, d: nat)
    requires 0 < k
    ensures d <= k * d
  {
  }

  lemma DivideStep(n: nat, d: nat)
    requires 0 < d
    ensures (n + d) / d == n / d + 1 && (n + d) % d == n % d
  {
    DivisionUnique(n + d, d, n / d + 1, n % d);
  }

  lemma DivideOnce(n: nat, d: nat)
    requires 0 < d <= n < 2 * d
    ensures n / d == 1
  {
  }

  lemma DivideNone(n: nat, d: nat)
    requires n < d
    ensures n / d == 0
  {
  }

  /** Splitting at a segment boundary splits the datagrams without re-cutting any of them. */
  lemma {:induction false} CutAtBoundary(data: seq<byte>, segment: nat, k: nat)
    requires 0 < segment
    requires k <= |data| && k % segment == 0
    ensures Cut(data, segment) == Cut(data[..k], segment) + Cut(data[k..], segment)
    decreases |data|
  {
    if k == 0 {
      assert data[..k] == [] && data[k..] == data;
    } else {
      assert segment <= k by { SmallRemainder(k, segment); }
      if |data| <= segment {
        assert data[..k] == data && data[k..] == [];
      } else {
        RemainderStep(k, segment);
        CutAtBoundary(data[segment..], segment, k - segment);
        assert data[segment..][..k - segment] == data[..k][segment..];
        assert data[segment..][k - segment..] == data[k..];
        assert data[..k][..segment] == data[..segment];
        if |data[..k]| <= segment {
          assert data[..k] == data[..segment];
          assert data[..k][segment..] == [];
        }
      }
    }
  }

  lemma SmallRemainder(k: nat, segment: nat)
    requires 0 < segment && 0 < k && k % segment == 0
    ensures segment <= k
  {
  }

  lemma RemainderStep(k: nat, segment: nat)
    requires 0 < segment <= k
    ensures (k - segment) % segment == k % segment
  {
    DivideStep(k - segment, segment);
  }

  /** A segment size above the buffer size means one datagram, as does the buffer size itself. */
  lemma CutOversized(data: seq<byte>, segment: nat, effective: nat)
    requires 0 < effective
    requires effective == segment || |data| == effective <= segment
    ensures Cut(data, segment) == Cut(data, effective)
  {
  }
}
