/** Facts about sequences that proofs elsewhere name instead of leaving them to the solver. */
module Sequences {

  lemma Regroup<T>(a: seq<T>, b: seq<T>, c: seq<T>)
    ensures a + (b + c) == a + b + c
  {
  }

  lemma Front<T>(a: seq<T>, b: seq<T>)
    ensures (a + b)[..|a|] == a && (a + b)[|a|..] == b && |a + b| == |a| + |b|
  {
  }

  lemma Front3<T>(a: seq<T>, b: seq<T>, c: seq<T>)
    ensures a <= a + b + c && |a + b + c| == |a| + |b| + |c|
    ensures |a| == |a + b + c| ==> a == a + b + c && b == c == []
  {
    Regroup(a, b, c);
  }

  lemma Cancel<T>(a: seq<T>, b: seq<T>, c: seq<T>)
    ensures a + b == a + c ==> b == c
    ensures a + b == a ==> b == []
  {
    Front(a, b);
    Front(a, c);
  }

  lemma Uncons<T>(a: seq<T>, b: seq<T>)
    requires a != []
    ensures a == [a[0]] + a[1..] && a + b == [a[0]] + (a[1..] + b)
  {
  }

  lemma PopFront<T>(a: seq<T>, b: seq<T>)
    ensures b != [] ==> a + [b[0]] + b[1..] == a + b
  {
  }

  lemma Slices<T>(s: seq<T>, from: nat, to: nat, k: nat)
    requires from + k <= to <= |s|
    ensures s[from..to][..k] == s[from..from + k] && s[from..to][k..] == s[from + k..to]
  {
  }

  lemma WholeSlice<T>(s: seq<T>)
    ensures s[..0] == [] && s[..|s|] == s && s[|s|..] == [] && s[0..] == s
  {
  }
}
