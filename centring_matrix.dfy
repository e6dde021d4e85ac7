/** The centring matrix `H = I - (1/n) e e^T` that the dual and kernel
    variants of `fit` build (e a column of n ones). */
module CentringMatrix {
  import opened Sums
  import opened Matrices
  import opened Results
  import opened MeanCentring

  /** The n x n identity (`np.identity(n)`). */
  function Identity(n: nat): (I: Matrix)
    ensures IsMatrix(I, n, n)
  {
    seq(n, i requires 0 <= i < n => seq(n, j requires 0 <= j < n => if i == j then 1.0 else 0.0))
  }

  /** The vector of n ones (`np.ones((n, 1))`). */
  function Ones(n: nat): (e: seq<real>)
    ensures |e| == n
  {
    seq(n, i => 1.0)
  }

  /** Outer product `u v^T` (`np.dot` of a column and a row). */
  function Outer(u: seq<real>, v: seq<real>): (P: Matrix)
    ensures IsMatrix(P, |u|, |v|)
  {
    seq(|u|, i requires 0 <= i < |u| => seq(|v|, j requires 0 <= j < |v| => u[i] * v[j]))
  }

  /** Scalar multiple `k * A`. */
  function Scale(k: real, A: Matrix): (B: Matrix)
    ensures SameShape(B, A)
  {
    seq(|A|, a requires 0 <= a < |A| => seq(|A[a]|, b requires 0 <= b < |A[a]| => k * A[a][b]))
  }

  /** `H = I - (1/n) e e^T`; Python's `1/n` raises for n = 0. */
  function Centring(n: nat): (H: Result<Matrix>)
    ensures H.Success? ==> IsMatrix(H.value, n, n)
  {
    if n == 0 then Failure(EmptyInput)
    else Success(Sub(Identity(n), Scale(1.0 / n as real, Outer(Ones(n), Ones(n)))))
  }

  /** Inner product of two vectors of equal length. */
  function Dot(u: seq<real>, v: seq<real>): real
    requires |u| == |v|
  {
    Sum(seq(|u|, t requires 0 <= t < |u| => u[t] * v[t]))
  }

  /** Matrix-vector product `A v`. */
  function MatVec(A: Matrix, v: seq<real>): (w: seq<real>)
    requires IsMatrix(A, |A|, |v|)
    ensures |w| == |A|
  {
    seq(|A|, i requires 0 <= i < |A| => Dot(A[i], v))
  }

  /** The entries of H: 1 - 1/n on the diagonal and -1/n elsewhere. */
  lemma CentringEntries(n: nat)
    requires n > 0
    ensures forall i, j :: 0 <= i < n && 0 <= j < n ==>
              Centring(n).value[i][j] == (if i == j then 1.0 else 0.0) - 1.0 / n as real
  {
    var k := 1.0 / n as real;
    var O := Outer(Ones(n), Ones(n));
    var H := Centring(n).value;
    assert H == Sub(Identity(n), Scale(k, O));
    forall i, j | 0 <= i < n && 0 <= j < n
      ensures H[i][j] == (if i == j then 1.0 else 0.0) - k
    {
      assert O[i][j] == 1.0;
      assert Scale(k, O)[i][j] == k;
    }
  }

  /** H exists exactly for n > 0, is symmetric, and each of its rows sums
      to zero. */
  lemma CentringShape(n: nat)
    ensures Centring(n).Success? <==> n > 0
    ensures n > 0 ==> var H := Centring(n).value;
              (forall i, j :: 0 <= i < n && 0 <= j < n ==> H[i][j] == H[j][i]) &&
              (forall i :: 0 <= i < n ==> Sum(H[i]) == 0.0)
  {
    if n > 0 {
      var H := Centring(n).value;
      CentringEntries(n);
      forall i | 0 <= i < n
        ensures Sum(H[i]) == 0.0
      {
        UnitMinusMeanRowSum(H[i], i);
      }
    }
  }

  /** The i-th unit row minus 1/n, of length n, sums to zero. */
  lemma UnitMinusMeanRowSum(row: seq<real>, i: nat)
    requires i < |row|
    requires forall t :: 0 <= t < |row| ==> row[t] == (if i == t then 1.0 else 0.0) - 1.0 / |row| as real
    ensures Sum(row) == 0.0
  {
    var n := |row| as real;
    var e := Ones(|row|);
    var ind, divided := Picked(e, i), DividedBy(e, n);
    SumIndicator(e, ind, i);
    SumConstant(e, 1.0);
    SumDivide(e, divided, n);
    SumMinus(ind, divided, row);
    SelfQuotient(n);
  }

  lemma SelfQuotient(n: real)
    requires n != 0.0
    ensures 1.0 - (n * 1.0) / n == 0.0
  {
  }

  lemma ShiftedProduct(h: real, x: real, unit: bool, n: real)
    requires n != 0.0 && h == (if unit then 1.0 else 0.0) - 1.0 / n
    ensures h * x == (if unit then x else 0.0) - x / n
  {
  }

  /** Every entry of v divided by n. */
  function DividedBy(v: seq<real>, n: real): (w: seq<real>)
    requires n != 0.0
    ensures |w| == |v| && forall t :: 0 <= t < |v| ==> w[t] == v[t] / n
  {
    seq(|v|, t requires 0 <= t < |v| => v[t] / n)
  }

  /** v with every entry but the one at position p set to zero. */
  function Picked(v: seq<real>, p: nat): (w: seq<real>)
    ensures |w| == |v| && forall t :: 0 <= t < |v| ==> w[t] == if t == p then v[t] else 0.0
  {
    seq(|v|, t requires 0 <= t < |v| => if t == p then v[t] else 0.0)
  }

  /** A row that is the i-th unit row minus 1/n, applied to v, splits into
      the picked entry minus the entries divided by n. */
  lemma RowProducts(row: seq<real>, v: seq<real>, i: nat, n: real)
    requires |row| == |v| && i < |v| && n != 0.0
    requires forall t :: 0 <= t < |row| ==> row[t] == (if i == t then 1.0 else 0.0) - 1.0 / n
    ensures Dot(row, v) == Sum(Picked(v, i)) - Sum(DividedBy(v, n))
  {
    var prods := seq(|v|, t requires 0 <= t < |v| => row[t] * v[t]);
    var picked, divided := Picked(v, i), DividedBy(v, n);
    forall t | 0 <= t < |v|
      ensures prods[t] == picked[t] - divided[t]
    {
      ShiftedProduct(row[t], v[t], t == i, n);
    }
    SumMinus(picked, divided, prods);
  }

  /** Row i of H applied to v gives v[i] minus the mean of v. */
  lemma CentringRow(n: nat, v: seq<real>, i: nat)
    requires n > 0 && |v| == n && i < n
    ensures Dot(Centring(n).value[i], v) == v[i] - Sum(v) / n as real
  {
    CentringEntries(n);
    UnitMinusMeanRow(Centring(n).value[i], v, i);
  }

  /** A row that is the i-th unit row minus 1/n, applied to a vector of
      length n, gives the vector's i-th entry minus its mean. */
  lemma UnitMinusMeanRow(row: seq<real>, v: seq<real>, i: nat)
    requires |row| == |v| && i < |v|
    requires forall t :: 0 <= t < |row| ==> row[t] == (if i == t then 1.0 else 0.0) - 1.0 / |v| as real
    ensures Dot(row, v) == v[i] - Sum(v) / |v| as real
  {
    var n := |v| as real;
    RowProducts(row, v, i, n);
    SumIndicator(v, Picked(v, i), i);
    SumDivide(v, DividedBy(v, n), n);
  }

  /** Multiplying by H centres a vector: it subtracts the vector's mean from
      every entry. */
  lemma CentringCentres(n: nat, v: seq<real>)
    requires n > 0 && |v| == n
    ensures MatVec(Centring(n).value, v) == seq(n, i requires 0 <= i < n => v[i] - Sum(v) / n as real)
  {
    var H := Centring(n).value;
    var target := seq(n, i requires 0 <= i < n => v[i] - Sum(v) / n as real);
    forall i | 0 <= i < n
      ensures MatVec(H, v)[i] == target[i]
    {
      CentringRow(n, v, i);
    }
  }

  /** Summation commutes with division by a non-zero constant. */
  lemma {:induction false} SumDivide(s: seq<real>, t: seq<real>, n: real)
    requires |t| == |s| && n != 0.0
    requires forall i :: 0 <= i < |t| ==> t[i] == s[i] / n
    ensures Sum(t) == Sum(s) / n
    decreases |s|
  {
    if s != [] {
      var k := |s| - 1;
      SumDivide(s[..k], t[..k], n);
      DivideAdds(Sum(s[..k]), s[k], n);
    }
  }

  lemma DivideAdds(a: real, b: real, n: real)
    requires n != 0.0
    ensures a / n + b / n == (a + b) / n
  {
  }

  /** A vector centred by H sums to zero. */
  lemma CentredVectorSumsToZero(n: nat, v: seq<real>)
    requires n > 0 && |v| == n
    ensures Sum(MatVec(Centring(n).value, v)) == 0.0
  {
    CentringCentres(n, v);
    DeviationsSumToZero(v, MatVec(Centring(n).value, v));
  }

  /** The dual variant centres with H over all n stacked samples; on every
      feature column this is the same as subtracting the global column mean
      that the standard variant computes. */
  lemma CentringMatchesMeanCentring(Xs: seq<Matrix>, m: nat, b: nat)
    requires Xs != [] && Clients(Xs, m) && b < m
    ensures IsMatrix(Concat(Xs), TotalRows(Xs), m) && TotalRows(Xs) > 0
    ensures MatVec(Centring(TotalRows(Xs)).value, Column(Concat(Xs), b))
            == Column(Centred(Concat(Xs), ColumnMean(Concat(Xs), m)), b)
  {
    ConcatShape(Xs, m);
    var X := Concat(Xs);
    CentringCentres(|X|, Column(X, b));
  }
}
