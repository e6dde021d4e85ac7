/** Dense real matrices as sequences of rows, with the element-wise operations
    the source performs with numpy (`+`, `-`, `np.sum(..., axis=0)`). */
module Matrices {
  import opened Sums

  type Matrix = seq<seq<real>>

  /** `A` has `r` rows of `c` entries each (a numpy array of shape (r, c)). */
  predicate IsMatrix(A: Matrix, r: nat, c: nat)
  {
    |A| == r && forall a :: 0 <= a < r ==> |A[a]| == c
  }

  /** Number of rows (`A.shape[0]`). */
  function Rows(A: Matrix): nat
  {
    |A|
  }

  /** Number of columns (`A.shape[1]`), read off the first row. */
  function Cols(A: Matrix): nat
  {
    if A == [] then 0 else |A[0]|
  }

  /** Every matrix of the list has shape (r, c). */
  predicate AllShaped(xs: seq<Matrix>, r: nat, c: nat)
  {
    forall k :: 0 <= k < |xs| ==> IsMatrix(xs[k], r, c)
  }

  /** `A` and `B` have the same shape, row by row. */
  predicate SameShape(A: Matrix, B: Matrix)
  {
    |A| == |B| && forall a :: 0 <= a < |A| ==> |A[a]| == |B[a]|
  }

  function Zero(r: nat, c: nat): (Z: Matrix)
    ensures IsMatrix(Z, r, c)
    ensures forall a, b :: 0 <= a < r && 0 <= b < c ==> Z[a][b] == 0.0
  {
    seq(r, a => seq(c, b => 0.0))
  }

  /** Element-wise sum `A + B`. */
  function Add(A: Matrix, B: Matrix): (S: Matrix)
    requires SameShape(A, B)
    ensures SameShape(S, A)
  {
    seq(|A|, a requires 0 <= a < |A| => seq(|A[a]|, b requires 0 <= b < |A[a]| => A[a][b] + B[a][b]))
  }

  /** Element-wise difference `A - B`. */
  function Sub(A: Matrix, B: Matrix): (D: Matrix)
    requires SameShape(A, B)
    ensures SameShape(D, A)
  {
    seq(|A|, a requires 0 <= a < |A| => seq(|A[a]|, b requires 0 <= b < |A[a]| => A[a][b] - B[a][b]))
  }

  /** The entries at position (a, b) of every matrix of the list, in list order. */
  function Entries(xs: seq<Matrix>, a: nat, b: nat): (e: seq<real>)
    requires forall k :: 0 <= k < |xs| ==> a < |xs[k]| && b < |xs[k][a]|
    ensures |e| == |xs|
  {
    seq(|xs|, k requires 0 <= k < |xs| => xs[k][a][b])
  }

  /** Element-wise sum of a list of (r, c) matrices (`np.sum(xs, axis=0)`);
      the empty list sums to the zero matrix. */
  function MatSum(xs: seq<Matrix>, r: nat, c: nat): (S: Matrix)
    requires AllShaped(xs, r, c)
    ensures IsMatrix(S, r, c)
  {
    seq(r, a requires 0 <= a < r => seq(c, b requires 0 <= b < c => Sum(Entries(xs, a, b))))
  }

  /** Adding one more matrix to the list adds it to the element-wise sum. */
  lemma MatSumSnoc(xs: seq<Matrix>, x: Matrix, r: nat, c: nat)
    requires AllShaped(xs, r, c) && IsMatrix(x, r, c)
    ensures AllShaped(xs + [x], r, c)
    ensures MatSum(xs + [x], r, c) == Add(MatSum(xs, r, c), x)
  {
    var L := MatSum(xs + [x], r, c);
    var R := Add(MatSum(xs, r, c), x);
    forall a | 0 <= a < r
      ensures L[a] == R[a]
    {
      forall b | 0 <= b < c
        ensures L[a][b] == R[a][b]
      {
        assert Entries(xs + [x], a, b) == Entries(xs, a, b) + [x[a][b]];
        SumSnoc(Entries(xs, a, b), x[a][b]);
      }
    }
  }

  /** The sum of a one-element list is that element. */
  lemma MatSumSingle(x: Matrix, r: nat, c: nat)
    requires IsMatrix(x, r, c)
    ensures MatSum([x], r, c) == x
  {
    var S := MatSum([x], r, c);
    forall a | 0 <= a < r
      ensures S[a] == x[a]
    {
      forall b | 0 <= b < c
        ensures S[a][b] == x[a][b]
      {
        SumSnoc([], x[a][b]);
        assert Entries([x], a, b) == [] + [x[a][b]];
      }
    }
  }
}
