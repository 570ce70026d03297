/** Recorded call sequences: the order of two calls and how often a kind of
    call was made. Shared by every model that records its outside calls. */
module Traces {

  /** `a` occurs in `t` strictly before `b`. */
  ghost predicate Precedes<T>(t: seq<T>, a: T, b: T)
  {
    exists i, j :: 0 <= i < j < |t| && t[i] == a && t[j] == b
  }

  /** The number of elements of `t` that satisfy `p`. */
  function Count<T>(t: seq<T>, p: T -> bool): nat
  {
    if |t| == 0 then 0 else (if p(t[0]) then 1 else 0) + Count(t[1..], p)
  }

  /** Counting distributes over concatenation. */
  lemma {:induction false} CountConcat<T>(a: seq<T>, b: seq<T>, p: T -> bool)
    ensures Count(a + b, p) == Count(a, p) + Count(b, p)
  {
    if |a| == 0 {
      assert a + b == b;
    } else {
      assert (a + b)[1..] == a[1..] + b;
      CountConcat(a[1..], b, p);
    }
  }

  /** No element of `t` satisfies `p`: it occurs zero times. */
  lemma {:induction false} CountNone<T>(t: seq<T>, p: T -> bool)
    requires forall i :: 0 <= i < |t| ==> !p(t[i])
    ensures Count(t, p) == 0
  {
    if |t| > 0 {
      CountNone(t[1..], p);
    }
  }

  /** Exactly the element at `k` satisfies `p`: it occurs once. */
  lemma {:induction false} CountOnce<T>(t: seq<T>, p: T -> bool, k: nat)
    requires k < |t| && p(t[k])
    requires forall i :: 0 <= i < |t| && i != k ==> !p(t[i])
    ensures Count(t, p) == 1
  {
    if k == 0 {
      CountNone(t[1..], p);
    } else {
      CountOnce(t[1..], p, k - 1);
    }
  }
}
