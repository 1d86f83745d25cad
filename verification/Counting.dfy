/** Sums over the threads of a state machine, and how one thread's step changes them. */
module Counting {

  function Bit(b: bool): nat {
    if b then 1 else 0
  }

  ghost function Total<T>(weight: T -> nat, threads: seq<T>): nat {
    if threads == [] then 0 else weight(threads[0]) + Total(weight, threads[1..])
  }

  lemma {:induction false} TotalUpdate<T>(weight: T -> nat, threads: seq<T>, i: nat, t: T)
    requires i < |threads|
    ensures Total(weight, threads[i := t]) + weight(threads[i]) == Total(weight, threads) + weight(t)
    ensures weight(threads[i]) <= Total(weight, threads)
  {
    if i == 0 {
      assert threads[i := t][1..] == threads[1..];
    } else {
      TotalUpdate(weight, threads[1..], i - 1, t);
      assert threads[i := t][1..] == threads[1..][i - 1 := t];
    }
  }

  lemma {:induction false} TotalZero<T>(weight: T -> nat, threads: seq<T>)
    requires forall i :: 0 <= i < |threads| ==> weight(threads[i]) == 0
    ensures Total(weight, threads) == 0
  {
    if threads != [] {
      TotalZero(weight, threads[1..]);
    }
  }

  lemma {:induction false} TotalWitness<T>(weight: T -> nat, threads: seq<T>) returns (i: nat)
    requires Total(weight, threads) > 0
    ensures i < |threads| && weight(threads[i]) > 0
  {
    if weight(threads[0]) > 0 {
      i := 0;
    } else {
      var rest := TotalWitness(weight, threads[1..]);
      i := rest + 1;
    }
  }

  /** How often x occurs in a queue, and how a push and a pop change that. */
  ghost function Count<T>(queue: seq<T>, x: T): nat {
    if queue == [] then 0 else Count(queue[1..], x) + if queue[0] == x then 1 else 0
  }

  lemma {:induction false} CountPush<T>(queue: seq<T>, y: T, x: T)
    ensures Count(queue + [y], x) == Count(queue, x) + if y == x then 1 else 0
  {
    if queue == [] {
      assert queue + [y] == [y];
    } else {
      assert (queue + [y])[1..] == queue[1..] + [y];
      CountPush(queue[1..], y, x);
    }
  }

  lemma CountPop<T>(queue: seq<T>, x: T)
    requires queue != []
    ensures Count(queue, x) == Count(queue[1..], x) + if queue[0] == x then 1 else 0
  {
  }

  lemma {:induction false} CountZero<T>(queue: seq<T>, x: T)
    requires Count(queue, x) == 0
    ensures x !in queue
  {
    if queue != [] {
      CountZero(queue[1..], x);
    }
  }
}
