/** Global mean and mean-centring of the standard (primal) variant of `fit`.

    Every client sends its column means scaled by its row count, i.e. its
    column sums, as a 1 x m matrix; the server adds these (securely or
    plainly) and divides by the total number of samples n; every client then
    subtracts the global mean from its own rows, rebinding its entry of the
    caller's list. */
module MeanCentring {
  import opened Sums
  import opened Matrices
  import opened Results
  import opened Aggregation

  /** Column b of X. */
  function Column(X: Matrix, b: nat): (col: seq<real>)
    requires forall a :: 0 <= a < |X| ==> b < |X[a]|
    ensures |col| == |X|
  {
    seq(|X|, a requires 0 <= a < |X| => X[a][b])
  }

  /** Column sums of an (r x m) matrix. */
  function ColumnSums(X: Matrix, m: nat): (s: seq<real>)
    requires IsMatrix(X, |X|, m)
    ensures |s| == m
  {
    seq(m, b requires 0 <= b < m => Sum(Column(X, b)))
  }

  /** Column means of a non-empty matrix (`np.mean(X, axis=0)`). */
  function ColumnMean(X: Matrix, m: nat): (mu: seq<real>)
    requires IsMatrix(X, |X|, m) && |X| > 0
    ensures |mu| == m
  {
    seq(m, b requires 0 <= b < m => Sum(Column(X, b)) / |X| as real)
  }

  /** The clients' matrices stacked row-wise (`np.concatenate(Xs, axis=0)`). */
  function Concat(Xs: seq<Matrix>): Matrix
  {
    if Xs == [] then [] else Concat(Xs[..|Xs| - 1]) + Xs[|Xs| - 1]
  }

  /** Total number of samples `n = sum(X.shape[0] for X in Xs)`: at least
      every client's own count, and zero exactly when no client has a row. */
  function TotalRows(Xs: seq<Matrix>): (n: nat)
    ensures forall i :: 0 <= i < |Xs| ==> |Xs[i]| <= n
    ensures n == 0 <==> forall i :: 0 <= i < |Xs| ==> Xs[i] == []
  {
    if Xs == [] then 0 else TotalRows(Xs[..|Xs| - 1]) + |Xs[|Xs| - 1]|
  }

  /** Every client holds at least one sample of m features. */
  predicate Clients(Xs: seq<Matrix>, m: nat)
  {
    forall i :: 0 <= i < |Xs| ==> |Xs[i]| > 0 && IsMatrix(Xs[i], |Xs[i]|, m)
  }

  /** Some client holds no sample at all. */
  predicate SomeClientEmpty(Xs: seq<Matrix>)
  {
    exists i :: 0 <= i < |Xs| && Xs[i] == []
  }

  lemma {:induction false} ConcatShape(Xs: seq<Matrix>, m: nat)
    requires Clients(Xs, m)
    ensures IsMatrix(Concat(Xs), TotalRows(Xs), m)
    ensures Xs != [] ==> TotalRows(Xs) > 0
    decreases |Xs|
  {
    if Xs != [] {
      ConcatShape(Xs[..|Xs| - 1], m);
    }
  }

  /** What client i sends: its column means times its row count, a 1 x m
      matrix (`np.mean(X, axis=0).reshape((1, -1)) * X.shape[0]`). */
  function ScaledMean(X: Matrix, m: nat): (s: Matrix)
    requires IsMatrix(X, |X|, m) && |X| > 0
    ensures IsMatrix(s, 1, m)
  {
    [seq(m, b requires 0 <= b < m => ColumnMean(X, m)[b] * |X| as real)]
  }

  /** The contributions of all clients. */
  function Contributions(Xs: seq<Matrix>, m: nat): (cs: seq<Matrix>)
    requires Clients(Xs, m)
    ensures |cs| == |Xs| && AllShaped(cs, 1, m)
  {
    seq(|Xs|, i requires 0 <= i < |Xs| => ScaledMean(Xs[i], m))
  }

  /** A client's scaled mean is exactly its row of column sums. */
  lemma ScaledMeanIsColumnSums(X: Matrix, m: nat)
    requires IsMatrix(X, |X|, m) && |X| > 0
    ensures ScaledMean(X, m) == [ColumnSums(X, m)]
  {
    forall b | 0 <= b < m
      ensures ScaledMean(X, m)[0][b] == ColumnSums(X, m)[b]
    {
      var total, n := Sum(Column(X, b)), |X| as real;
      assert ColumnMean(X, m)[b] == total / n;
      assert (total / n) * n == total;
    }
    assert ScaledMean(X, m)[0] == ColumnSums(X, m);
  }

  /** Column sums of stacked matrices add up. */
  lemma ColumnSumsAppend(A: Matrix, B: Matrix, m: nat, b: nat)
    requires IsMatrix(A, |A|, m) && IsMatrix(B, |B|, m) && b < m
    ensures Sum(Column(A + B, b)) == Sum(Column(A, b)) + Sum(Column(B, b))
  {
    assert Column(A + B, b) == Column(A, b) + Column(B, b);
    SumConcat(Column(A, b), Column(B, b));
  }

  /** The clients' contributions add up to the column sums of the stacked data. */
  lemma {:induction false} ContributionsSum(Xs: seq<Matrix>, m: nat)
    requires Clients(Xs, m)
    ensures IsMatrix(Concat(Xs), TotalRows(Xs), m)
    ensures MatSum(Contributions(Xs, m), 1, m) == [ColumnSums(Concat(Xs), m)]
    decreases |Xs|
  {
    ConcatShape(Xs, m);
    var S := MatSum(Contributions(Xs, m), 1, m);
    if Xs == [] {
      assert S[0] == ColumnSums(Concat(Xs), m);
    } else {
      var k := |Xs| - 1;
      var P := Xs[..k];
      ContributionsSum(P, m);
      assert Contributions(Xs, m) == Contributions(P, m) + [ScaledMean(Xs[k], m)];
      MatSumSnoc(Contributions(P, m), ScaledMean(Xs[k], m), 1, m);
      ScaledMeanIsColumnSums(Xs[k], m);
      forall b | 0 <= b < m
        ensures S[0][b] == ColumnSums(Concat(Xs), m)[b]
      {
        ColumnSumsAppend(Concat(P), Xs[k], m, b);
      }
      assert S[0] == ColumnSums(Concat(Xs), m);
    }
  }

  /** The global mean, from the clients' contributions aggregated securely
      (`secure` set, with the given perturbation draws) or plainly.  Either
      path yields the column mean of the row-stacked client data. */
  method GlobalMean(Xs: seq<Matrix>, secure: bool, draws: Grid) returns (res: Result<seq<real>>)
    requires Xs != [] && Xs[0] != [] ==> IsGrid(draws, |Xs|, 1, |Xs[0][0]|)
    ensures Xs == [] || SomeClientEmpty(Xs) ==> res == Failure(EmptyInput)
    ensures Xs != [] && !SomeClientEmpty(Xs) && !Clients(Xs, Cols(Xs[0])) ==>
              res == Failure(ShapeMismatch)
    ensures Xs != [] && Clients(Xs, Cols(Xs[0])) ==>
              IsMatrix(Concat(Xs), TotalRows(Xs), Cols(Xs[0])) &&
              res == Success(ColumnMean(Concat(Xs), Cols(Xs[0])))
  {
    if Xs == [] || SomeClientEmpty(Xs) {
      return Failure(EmptyInput);
    }
    var m := Cols(Xs[0]);
    if !Clients(Xs, m) {
      return Failure(ShapeMismatch);
    }
    ContributionsSum(Xs, m);
    var n := TotalRows(Xs);
    // clients compute their scaled means
    var means: seq<Matrix> := [];
    for i := 0 to |Xs|
      invariant |means| == i
      invariant forall k :: 0 <= k < i ==> means[k] == ScaledMean(Xs[k], m)
    {
      means := means + [ScaledMean(Xs[i], m)];
    }
    assert means == Contributions(Xs, m);
    var total: Matrix;
    if secure {
      var agg := SecureAggregation(means, draws);
      total := agg.value;
    } else {
      total := MatSum(means, 1, m);
    }
    var mean := seq(m, b requires 0 <= b < m => total[0][b] / n as real);
    assert mean == ColumnMean(Concat(Xs), m);
    res := Success(mean);
  }

  /** X with mu subtracted from every row (`X - mu`, broadcast over rows). */
  function Centred(X: Matrix, mu: seq<real>): (Y: Matrix)
    requires IsMatrix(X, |X|, |mu|)
    ensures IsMatrix(Y, |X|, |mu|)
  {
    seq(|X|, a requires 0 <= a < |X| => seq(|mu|, b requires 0 <= b < |mu| => X[a][b] - mu[b]))
  }

  /** Every client's matrix centred by mu. */
  function CentredAll(Xs: seq<Matrix>, mu: seq<real>): (Ys: seq<Matrix>)
    requires forall i :: 0 <= i < |Xs| ==> IsMatrix(Xs[i], |Xs[i]|, |mu|)
    ensures |Ys| == |Xs|
  {
    seq(|Xs|, i requires 0 <= i < |Xs| => Centred(Xs[i], mu))
  }

  /** Each client subtracts the global mean, rebinding its entry of the list. */
  method CentreClients(Xs: array<Matrix>, mu: seq<real>)
    requires forall i :: 0 <= i < Xs.Length ==> IsMatrix(Xs[i], |Xs[i]|, |mu|)
    modifies Xs
    ensures Xs[..] == CentredAll(old(Xs[..]), mu)
  {
    for i := 0 to Xs.Length
      invariant forall k :: 0 <= k < i ==> Xs[k] == Centred(old(Xs[k]), mu)
      invariant forall k :: i <= k < Xs.Length ==> Xs[k] == old(Xs[k])
    {
      Xs[i] := Centred(Xs[i], mu);
    }
  }

  /** Lines 118-129 of `fit` together: compute the global mean, then centre
      every client's data in the caller's list; on failure the list is left
      untouched. */
  method MeanCentre(Xs: array<Matrix>, secure: bool, draws: Grid) returns (res: Result<seq<real>>)
    requires Xs.Length > 0 && Xs[0] != [] ==> IsGrid(draws, Xs.Length, 1, |Xs[0][0]|)
    modifies Xs
    ensures res.Success? <==> Xs.Length > 0 && Clients(old(Xs[..]), Cols(old(Xs[0])))
    ensures res.Failure? ==> Xs[..] == old(Xs[..])
    ensures res.Success? ==>
              IsMatrix(Concat(old(Xs[..])), TotalRows(old(Xs[..])), Cols(old(Xs[0]))) &&
              res.value == ColumnMean(Concat(old(Xs[..])), Cols(old(Xs[0]))) &&
              Xs[..] == CentredAll(old(Xs[..]), res.value)
  {
    res := GlobalMean(Xs[..], secure, draws);
    if res.Success? {
      CentreClients(Xs, res.value);
    }
  }

  /** Centring by mu distributes over stacking. */
  lemma {:induction false} ConcatCentred(Xs: seq<Matrix>, mu: seq<real>)
    requires Clients(Xs, |mu|)
    ensures Clients(CentredAll(Xs, mu), |mu|)
    ensures IsMatrix(Concat(Xs), |Concat(Xs)|, |mu|)
    ensures Concat(CentredAll(Xs, mu)) == Centred(Concat(Xs), mu)
    decreases |Xs|
  {
    ConcatShape(Xs, |mu|);
    if Xs != [] {
      var k := |Xs| - 1;
      ConcatCentred(Xs[..k], mu);
      assert CentredAll(Xs, mu)[..k] == CentredAll(Xs[..k], mu);
    }
  }

  /** Summing `s[a] - k` over all positions gives `Sum(s) - |s| * k`. */
  lemma {:induction false} SumShifted(s: seq<real>, t: seq<real>, k: real)
    requires |t| == |s|
    requires forall a :: 0 <= a < |t| ==> t[a] == s[a] - k
    ensures Sum(t) == Sum(s) - |s| as real * k
    decreases |s|
  {
    if s != [] {
      var last := |s| - 1;
      SumShifted(s[..last], t[..last], k);
      assert (last + 1) as real * k == last as real * k + k;
    }
  }

  /** The deviations of the entries of s from their mean sum to zero. */
  lemma DeviationsSumToZero(s: seq<real>, t: seq<real>)
    requires |t| == |s| > 0
    requires forall a :: 0 <= a < |t| ==> t[a] == s[a] - Sum(s) / |s| as real
    ensures Sum(t) == 0.0
  {
    var mean := Sum(s) / |s| as real;
    CountedMean(Sum(s), |s| as real, mean);
    DeviationsFromSumToZero(s, t, mean);
  }

  /** Deviations from any value that |s| copies of make up the sum of s. */
  lemma DeviationsFromSumToZero(s: seq<real>, t: seq<real>, mean: real)
    requires |t| == |s| && |s| as real * mean == Sum(s)
    requires forall a :: 0 <= a < |t| ==> t[a] == s[a] - mean
    ensures Sum(t) == 0.0
  {
    SumShifted(s, t, mean);
  }

  /** After centring by the global mean every client keeps its shape and the
      stacked centred data has zero column sums. */
  lemma CentredColumnSumsZero(Xs: seq<Matrix>, m: nat)
    requires Xs != [] && Clients(Xs, m)
    ensures IsMatrix(Concat(Xs), TotalRows(Xs), m)
    ensures forall i :: 0 <= i < |Xs| ==>
              IsMatrix(Centred(Xs[i], ColumnMean(Concat(Xs), m)), |Xs[i]|, m)
    ensures IsMatrix(Concat(CentredAll(Xs, ColumnMean(Concat(Xs), m))), TotalRows(Xs), m)
    ensures forall b :: 0 <= b < m ==>
              Sum(Column(Concat(CentredAll(Xs, ColumnMean(Concat(Xs), m))), b)) == 0.0
  {
    ConcatShape(Xs, m);
    var X := Concat(Xs);
    var mu := ColumnMean(X, m);
    ConcatCentred(Xs, mu);
    forall b | 0 <= b < m
      ensures Sum(Column(Centred(X, mu), b)) == 0.0
    {
      CentredColumnSumZero(X, m, b);
    }
  }

  /** One column of a matrix centred by its own column mean sums to zero. */
  lemma CentredColumnSumZero(X: Matrix, m: nat, b: nat)
    requires IsMatrix(X, |X|, m) && |X| > 0 && b < m
    ensures Sum(Column(Centred(X, ColumnMean(X, m)), b)) == 0.0
  {
    var mu := ColumnMean(X, m);
    DeviationsSumToZero(Column(X, b), Column(Centred(X, mu), b));
  }
}
