/** Weighted sums over sequences: the bookkeeping behind every counting invariant
    and every progress measure of the concurrent models. */
module Sums {

  /** The indicator of a condition. */
  function One(b: bool): int {
    if b then 1 else 0
  }

  function Sum<T>(s: seq<T>, w: T -> int): int {
    if s == [] then 0 else w(s[0]) + Sum(s[1..], w)
  }

  /** Changing one element changes the sum by the difference of the weights. */
  lemma {:induction false} SumUpdate<T>(s: seq<T>, i: nat, x: T, w: T -> int)
    requires i < |s|
    ensures Sum(s[i := x], w) == Sum(s, w) - w(s[i]) + w(x)
  {
    if i == 0 {
      assert s[i := x][1..] == s[1..];
    } else {
      SumUpdate(s[1..], i - 1, x, w);
      assert s[i := x][1..] == s[1..][i - 1 := x];
    }
  }

  lemma {:induction false} SumAppend<T>(s: seq<T>, t: seq<T>, w: T -> int)
    ensures Sum(s + t, w) == Sum(s, w) + Sum(t, w)
  {
    if s == [] {
      assert s + t == t;
    } else {
      SumAppend(s[1..], t, w);
      assert (s + t)[1..] == s[1..] + t;
    }
  }

  /** Pointwise smaller weights give a smaller sum. */
  lemma {:induction false} SumMonotone<T>(s: seq<T>, v: T -> int, w: T -> int)
    requires forall i :: 0 <= i < |s| ==> v(s[i]) <= w(s[i])
    ensures Sum(s, v) <= Sum(s, w)
  {
    if s == [] {
    } else {
      assert v(s[0]) <= w(s[0]);
      SumMonotone(s[1..], v, w);
    }
  }

  lemma OneMore(c: int, n: nat)
    ensures c * (n + 1) == c * n + c
  {
  }

  lemma {:induction false} SumBounds<T>(s: seq<T>, w: T -> int, lo: int, hi: int)
    requires forall i :: 0 <= i < |s| ==> lo <= w(s[i]) <= hi
    ensures lo * |s| <= Sum(s, w) <= hi * |s|
  {
    if s == [] {
    } else {
      assert lo <= w(s[0]) <= hi;
      SumBounds(s[1..], w, lo, hi);
      OneMore(lo, |s[1..]|);
      OneMore(hi, |s[1..]|);
    }
  }

  lemma {:induction false} SumNonNegative<T>(s: seq<T>, w: T -> int)
    requires forall k :: 0 <= k < |s| ==> 0 <= w(s[k])
    ensures 0 <= Sum(s, w)
  {
    if s == [] {
    } else {
      assert 0 <= w(s[0]);
      SumNonNegative(s[1..], w);
    }
  }

  /** No single non-negative weight exceeds the sum. */
  lemma {:induction false} SumIncludesOne<T>(s: seq<T>, i: nat, w: T -> int)
    requires i < |s|
    requires forall k :: 0 <= k < |s| ==> 0 <= w(s[k])
    ensures w(s[i]) <= Sum(s, w)
  {
    if i == 0 {
      SumNonNegative(s[1..], w);
    } else {
      assert 0 <= w(s[0]);
      SumIncludesOne(s[1..], i - 1, w);
    }
  }

  /** Nor do two of them together. */
  lemma {:induction false} SumIncludesTwo<T>(s: seq<T>, i: nat, j: nat, w: T -> int)
    requires i < j < |s|
    requires forall k :: 0 <= k < |s| ==> 0 <= w(s[k])
    ensures w(s[i]) + w(s[j]) <= Sum(s, w)
  {
    if i == 0 {
      SumIncludesOne(s[1..], j - 1, w);
    } else {
      assert 0 <= w(s[0]);
      SumIncludesTwo(s[1..], i - 1, j - 1, w);
    }
  }

  /** Weights add up pointwise. */
  lemma {:induction false} SumPlus<T>(s: seq<T>, u: T -> int, v: T -> int, w: T -> int)
    requires forall i :: 0 <= i < |s| ==> w(s[i]) == u(s[i]) + v(s[i])
    ensures Sum(s, w) == Sum(s, u) + Sum(s, v)
  {
    if s == [] {
    } else {
      assert w(s[0]) == u(s[0]) + v(s[0]);
      SumPlus(s[1..], u, v, w);
    }
  }

  /** A positive sum has a positive summand. */
  lemma {:induction false} SumWitness<T>(s: seq<T>, w: T -> int) returns (i: nat)
    requires 0 < Sum(s, w)
    ensures i < |s| && 0 < w(s[i])
  {
    if 0 < w(s[0]) {
      i := 0;
    } else {
      i := SumWitness(s[1..], w);
      i := i + 1;
    }
  }

  /** A sum of equal weights is a product. */
  lemma {:induction false} SumConstant<T>(s: seq<T>, w: T -> int, c: int)
    requires forall i :: 0 <= i < |s| ==> w(s[i]) == c
    ensures Sum(s, w) == c * |s|
  {
    SumBounds(s, w, c, c);
  }
}
