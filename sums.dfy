/** Exact finite sums over sequences of reals and of integers, accumulated left
    to right as the source's loops and `np.sum` calls accumulate them. */
module Sums {

  /** Sum of a sequence of reals; the empty sum is zero. */
  function Sum(s: seq<real>): real
  {
    if s == [] then 0.0 else Sum(s[..|s| - 1]) + s[|s| - 1]
  }

  /** Sum of a sequence of integers; the empty sum is zero. */
  function IntSum(s: seq<int>): int
  {
    if s == [] then 0 else IntSum(s[..|s| - 1]) + s[|s| - 1]
  }

  /** Sum of a sequence of natural numbers (counts, row numbers). */
  function NatSum(s: seq<nat>): nat
  {
    if s == [] then 0 else NatSum(s[..|s| - 1]) + s[|s| - 1]
  }

  lemma SumSnoc(s: seq<real>, x: real)
    ensures Sum(s + [x]) == Sum(s) + x
  {
    assert (s + [x])[..|s|] == s;
  }

  lemma {:induction false} SumConcat(s: seq<real>, t: seq<real>)
    ensures Sum(s + t) == Sum(s) + Sum(t)
    decreases |t|
  {
    if t == [] {
      assert s + t == s;
    } else {
      var t' := t[..|t| - 1];
      assert s + t == (s + t') + [t[|t| - 1]];
      assert t == t' + [t[|t| - 1]];
      SumConcat(s, t');
      SumSnoc(s + t', t[|t| - 1]);
      SumSnoc(t', t[|t| - 1]);
    }
  }

  /** Summation is additive: summing entry-wise sums gives the sum of the sums. */
  lemma {:induction false} SumPlus(s: seq<real>, t: seq<real>, u: seq<real>)
    requires |s| == |t| == |u|
    requires forall i :: 0 <= i < |u| ==> u[i] == s[i] + t[i]
    ensures Sum(u) == Sum(s) + Sum(t)
    decreases |u|
  {
    if u != [] {
      var k := |u| - 1;
      SumPlus(s[..k], t[..k], u[..k]);
    }
  }

  /** Summation commutes with entry-wise subtraction. */
  lemma {:induction false} SumMinus(s: seq<real>, t: seq<real>, u: seq<real>)
    requires |s| == |t| == |u|
    requires forall i :: 0 <= i < |u| ==> u[i] == s[i] - t[i]
    ensures Sum(u) == Sum(s) - Sum(t)
    decreases |u|
  {
    if u != [] {
      var k := |u| - 1;
      SumMinus(s[..k], t[..k], u[..k]);
    }
  }

  /** Summation commutes with negation. */
  lemma {:induction false} SumNegate(s: seq<real>, t: seq<real>)
    requires |s| == |t|
    requires forall i :: 0 <= i < |t| ==> t[i] == -s[i]
    ensures Sum(t) == -Sum(s)
    decreases |t|
  {
    if t != [] {
      var k := |t| - 1;
      SumNegate(s[..k], t[..k]);
    }
  }

  /** A sum of zeros is zero. */
  lemma {:induction false} SumZeros(s: seq<real>)
    requires forall i :: 0 <= i < |s| ==> s[i] == 0.0
    ensures Sum(s) == 0.0
    decreases |s|
  {
    if s != [] {
      SumZeros(s[..|s| - 1]);
    }
  }

  /** Summing a constant `k` over `n` positions gives `n * k`. */
  lemma {:induction false} SumConstant(s: seq<real>, k: real)
    requires forall i :: 0 <= i < |s| ==> s[i] == k
    ensures Sum(s) == |s| as real * k
    decreases |s|
  {
    if s != [] {
      SumConstant(s[..|s| - 1], k);
    }
  }

  /** Summing `v` masked to the single position `p` picks out `v[p]`. */
  lemma {:induction false} SumIndicator(v: seq<real>, s: seq<real>, p: nat)
    requires |s| == |v| && p < |v|
    requires forall j :: 0 <= j < |s| ==> s[j] == (if j == p then v[j] else 0.0)
    ensures Sum(s) == v[p]
    decreases |s|
  {
    var k := |s| - 1;
    if k == p {
      SumZeros(s[..k]);
    } else {
      SumIndicator(v[..k], s[..k], p);
    }
  }

  /** n copies of the mean s / n add back up to s. */
  lemma CountedMean(s: real, n: real, k: real)
    requires n != 0.0 && k == s / n
    ensures n * k == s
  {
  }

  /** Integer summation is additive. */
  lemma {:induction false} IntSumPlus(s: seq<int>, t: seq<int>, u: seq<int>)
    requires |s| == |t| == |u|
    requires forall i :: 0 <= i < |u| ==> u[i] == s[i] + t[i]
    ensures IntSum(u) == IntSum(s) + IntSum(t)
    decreases |u|
  {
    if u != [] {
      var k := |u| - 1;
      IntSumPlus(s[..k], t[..k], u[..k]);
    }
  }

  /** A 0/1 sequence that is one exactly on the first `r` positions sums to `r`. */
  lemma {:induction false} IntSumPrefixOnes(s: seq<int>, r: nat)
    requires r <= |s|
    requires forall i :: 0 <= i < |s| ==> s[i] == (if i < r then 1 else 0)
    ensures IntSum(s) == r
    decreases |s|
  {
    if s != [] {
      var k := |s| - 1;
      if k < r {
        IntSumPrefixOnes(s[..k], r - 1);
      } else {
        IntSumPrefixOnes(s[..k], r);
      }
    }
  }
}
