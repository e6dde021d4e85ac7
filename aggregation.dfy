/** Plain and secure summation of same-shaped matrices held by `n` parties
    (`inplace_sum` and `secure_aggregation`, after FedSVD).

    In the secure protocol every ordered pair of parties (i, j) gets a
    perturbation matrix R[i][j]; the grid is made antisymmetric
    (R[i][j] = -R[j][i]), party i reveals only `x_i - sum_j R[i][j]`, and the
    server adds the revealed shares.  The perturbations cancel exactly, so the
    server obtains the element-wise sum of the inputs.  The random draws are a
    parameter of the model: the results hold for every draw. */
module Aggregation {
  import opened Sums
  import opened Matrices
  import opened Results

  /** An n x n grid of matrices, indexed by an ordered pair of parties. */
  type Grid = seq<seq<Matrix>>

  predicate IsGrid(G: Grid, n: nat, r: nat, c: nat)
  {
    |G| == n && forall i :: 0 <= i < n ==> |G[i]| == n && AllShaped(G[i], r, c)
  }

  /** A non-empty list whose matrices all have the shape of the first one. */
  predicate Uniform(xs: seq<Matrix>)
  {
    xs != [] && AllShaped(xs, Rows(xs[0]), Cols(xs[0]))
  }

  /** Plain summation: copy the first matrix, then add the others to the copy
      one by one.  Because the accumulator is a copy, the list itself (and in
      particular its first matrix) is left as it was. */
  method InplaceSum(arrlist: seq<Matrix>) returns (res: Result<Matrix>)
    ensures arrlist == [] ==> res == Failure(EmptyInput)
    ensures arrlist != [] && !Uniform(arrlist) ==> res == Failure(ShapeMismatch)
    ensures Uniform(arrlist) ==>
              res == Success(MatSum(arrlist, Rows(arrlist[0]), Cols(arrlist[0])))
  {
    if arrlist == [] {
      return Failure(EmptyInput);
    }
    var r, c := Rows(arrlist[0]), Cols(arrlist[0]);
    if !AllShaped(arrlist, r, c) {
      return Failure(ShapeMismatch);
    }
    var sum := arrlist[0];
    MatSumSingle(sum, r, c);
    assert arrlist[..1] == [sum];
    for k := 1 to |arrlist|
      invariant sum == MatSum(arrlist[..k], r, c)
    {
      assert arrlist[..k + 1] == arrlist[..k] + [arrlist[k]];
      MatSumSnoc(arrlist[..k], arrlist[k], r, c);
      sum := Add(sum, arrlist[k]);
    }
    assert arrlist[..|arrlist|] == arrlist;
    return Success(sum);
  }

  /** The grid after `perturbations -= transpose(perturbations)`: numpy reads
      the transposed operand before writing, so every entry becomes the
      difference of the two original draws of its pair. */
  function Antisymmetrised(G: Grid, n: nat, r: nat, c: nat): (R: Grid)
    requires IsGrid(G, n, r, c)
    ensures IsGrid(R, n, r, c)
  {
    seq(n, i requires 0 <= i < n =>
      seq(n, j requires 0 <= j < n => Sub(G[i][j], G[j][i])))
  }

  /** R[i][j] = -R[j][i], entry by entry. */
  predicate Antisymmetric(R: Grid, n: nat, r: nat, c: nat)
    requires IsGrid(R, n, r, c)
  {
    forall i, j, a, b :: 0 <= i < n && 0 <= j < n && 0 <= a < r && 0 <= b < c ==>
      R[i][j][a][b] == -R[j][i][a][b]
  }

  /** After the subtraction the grid is antisymmetric and every diagonal
      block (a party paired with itself) is zero. */
  lemma AntisymmetrisedIsAntisymmetric(G: Grid, n: nat, r: nat, c: nat)
    requires IsGrid(G, n, r, c)
    ensures Antisymmetric(Antisymmetrised(G, n, r, c), n, r, c)
    ensures forall i :: 0 <= i < n ==> Antisymmetrised(G, n, r, c)[i][i] == Zero(r, c)
  {
    var R := Antisymmetrised(G, n, r, c);
    forall i | 0 <= i < n
      ensures R[i][i] == Zero(r, c)
    {
      forall a | 0 <= a < r
        ensures R[i][i][a] == Zero(r, c)[a]
      {
      }
    }
  }

  /** What party i reveals: its input minus the sum of its row of perturbations. */
  function Share(x: Matrix, row: seq<Matrix>, r: nat, c: nat): (y: Matrix)
    requires IsMatrix(x, r, c) && AllShaped(row, r, c)
    ensures IsMatrix(y, r, c)
  {
    Sub(x, MatSum(row, r, c))
  }

  /** The shares revealed by all parties. */
  function Shares(xs: seq<Matrix>, R: Grid, n: nat, r: nat, c: nat): (ys: seq<Matrix>)
    requires |xs| == n && AllShaped(xs, r, c) && IsGrid(R, n, r, c)
    ensures |ys| == n && AllShaped(ys, r, c)
  {
    seq(n, i requires 0 <= i < n => Share(xs[i], R[i], r, c))
  }

  /** The perturbation each party subtracts: the sum of its row of the grid. */
  function PartyTotals(R: Grid, n: nat, r: nat, c: nat): (ts: seq<Matrix>)
    requires IsGrid(R, n, r, c)
    ensures |ts| == n && AllShaped(ts, r, c)
  {
    seq(n, i requires 0 <= i < n => MatSum(R[i], r, c))
  }

  /** Sums of the rows of a real matrix. */
  function RowTotals(g: seq<seq<real>>): (t: seq<real>)
    ensures |t| == |g|
  {
    seq(|g|, i requires 0 <= i < |g| => Sum(g[i]))
  }

  /** g is square and g[i][j] = -g[j][i]. */
  predicate AntisymmetricSquare(g: seq<seq<real>>)
  {
    (forall i :: 0 <= i < |g| ==> |g[i]| == |g|) &&
    forall i, j :: 0 <= i < |g| && 0 <= j < |g| ==> g[i][j] == -g[j][i]
  }

  /** The entries of an antisymmetric real matrix add up to zero: peel off the
      last row and column, which cancel each other, and the zero corner. */
  lemma {:induction false} AntisymmetricTotalZero(g: seq<seq<real>>)
    requires AntisymmetricSquare(g)
    ensures Sum(RowTotals(g)) == 0.0
    decreases |g|
  {
    if g != [] {
      CornerAntisymmetric(g);
      AntisymmetricTotalZero(Corner(g));
      var k := |g| - 1;
      assert g[k][k] == 0.0 && forall i :: 0 <= i < k ==> g[k][i] == -g[i][k];
      LastRowAndColumnCancel(g);
    }
  }

  /** g without its last row and last column. */
  function Corner(g: seq<seq<real>>): (h: seq<seq<real>>)
    requires g != [] && forall i :: 0 <= i < |g| ==> |g[i]| == |g|
    ensures |h| == |g| - 1
  {
    seq(|g| - 1, i requires 0 <= i < |g| - 1 => g[i][..|g| - 1])
  }

  lemma CornerAntisymmetric(g: seq<seq<real>>)
    requires g != [] && AntisymmetricSquare(g)
    ensures AntisymmetricSquare(Corner(g))
  {
  }

  /** The last row and the last column of an antisymmetric matrix cancel, so
      the matrix has the same total as its corner. */
  lemma LastRowAndColumnCancel(g: seq<seq<real>>)
    requires g != [] && forall i :: 0 <= i < |g| ==> |g[i]| == |g|
    requires var k := |g| - 1; g[k][k] == 0.0 && forall i :: 0 <= i < k ==> g[k][i] == -g[i][k]
    ensures Sum(RowTotals(g)) == Sum(RowTotals(Corner(g)))
  {
    var k := |g| - 1;
    var col := seq(k, i requires 0 <= i < k => g[i][k]);
    var row := g[k][..k];
    CornerRows(g, col);
    LeadingRowTotals(g, Corner(g), col);
    SumNegate(row, col);
    assert g[k] == row + [g[k][k]];
    SumSnoc(row, g[k][k]);
    RowTotalsSnoc(g);
  }

  /** Every row but the last is its corner row followed by its last entry. */
  lemma CornerRows(g: seq<seq<real>>, col: seq<real>)
    requires g != [] && forall i :: 0 <= i < |g| ==> |g[i]| == |g|
    requires |col| == |g| - 1 && forall i :: 0 <= i < |col| ==> col[i] == g[i][|g| - 1]
    ensures forall i :: 0 <= i < |col| ==> g[i] == Corner(g)[i] + [col[i]]
  {
    forall i | 0 <= i < |col|
      ensures g[i] == Corner(g)[i] + [col[i]]
    {
    }
  }

  /** The total of g is the total of its leading rows plus its last row. */
  lemma RowTotalsSnoc(g: seq<seq<real>>)
    requires g != []
    ensures Sum(RowTotals(g)) == Sum(RowTotals(g)[..|g| - 1]) + Sum(g[|g| - 1])
  {
    var totals := RowTotals(g);
    assert totals == totals[..|g| - 1] + [totals[|g| - 1]];
    SumSnoc(totals[..|g| - 1], totals[|g| - 1]);
  }

  /** When the first rows of g are the rows of h, each extended by one entry
      of col, their totals add up to the total of h plus the total of col. */
  lemma LeadingRowTotals(g: seq<seq<real>>, h: seq<seq<real>>, col: seq<real>)
    requires |h| == |col| <= |g|
    requires forall i :: 0 <= i < |h| ==> g[i] == h[i] + [col[i]]
    ensures Sum(RowTotals(g)[..|h|]) == Sum(RowTotals(h)) + Sum(col)
  {
    var lead := RowTotals(g)[..|h|];
    forall i | 0 <= i < |h|
      ensures lead[i] == RowTotals(h)[i] + col[i]
    {
      SumSnoc(h[i], col[i]);
    }
    SumPlus(RowTotals(h), col, lead);
  }

  /** For any antisymmetric grid, the perturbations all parties subtract add
      up to the zero matrix. */
  lemma PerturbationsCancel(R: Grid, n: nat, r: nat, c: nat)
    requires IsGrid(R, n, r, c) && Antisymmetric(R, n, r, c)
    ensures MatSum(PartyTotals(R, n, r, c), r, c) == Zero(r, c)
  {
    var T := PartyTotals(R, n, r, c);
    var S := MatSum(T, r, c);
    forall a | 0 <= a < r
      ensures S[a] == Zero(r, c)[a]
    {
      forall b | 0 <= b < c
        ensures S[a][b] == 0.0
      {
        var g := seq(n, i requires 0 <= i < n => Entries(R[i], a, b));
        assert AntisymmetricSquare(g);
        AntisymmetricTotalZero(g);
        assert Entries(T, a, b) == RowTotals(g);
      }
    }
  }

  /** The server's sum of the revealed shares is exactly the element-wise sum
      of the inputs, whatever the (antisymmetric) perturbations are. */
  lemma SecureSumCorrect(xs: seq<Matrix>, R: Grid, n: nat, r: nat, c: nat)
    requires |xs| == n && AllShaped(xs, r, c)
    requires IsGrid(R, n, r, c) && Antisymmetric(R, n, r, c)
    ensures MatSum(Shares(xs, R, n, r, c), r, c) == MatSum(xs, r, c)
  {
    var T := PartyTotals(R, n, r, c);
    var ys := Shares(xs, R, n, r, c);
    PerturbationsCancel(R, n, r, c);
    var L := MatSum(ys, r, c);
    var X := MatSum(xs, r, c);
    forall a | 0 <= a < r
      ensures L[a] == X[a]
    {
      forall b | 0 <= b < c
        ensures L[a][b] == X[a][b]
      {
        SumMinus(Entries(xs, a, b), Entries(T, a, b), Entries(ys, a, b));
        assert MatSum(T, r, c)[a][b] == 0.0;
      }
    }
  }

  /** A revealed share equals the party's raw input exactly when the party's
      perturbations add up to zero; a non-degenerate draw therefore hides the
      input. */
  lemma ShareIsInputIff(x: Matrix, row: seq<Matrix>, r: nat, c: nat)
    requires IsMatrix(x, r, c) && AllShaped(row, r, c)
    ensures Share(x, row, r, c) == x <==> MatSum(row, r, c) == Zero(r, c)
  {
    var T := MatSum(row, r, c);
    var y := Share(x, row, r, c);
    if y == x {
      forall a | 0 <= a < r
        ensures T[a] == Zero(r, c)[a]
      {
        forall b | 0 <= b < c
          ensures T[a][b] == 0.0
        {
          assert y[a][b] == x[a][b];
        }
      }
    }
    if T == Zero(r, c) {
      forall a | 0 <= a < r
        ensures y[a] == x[a]
      {
        forall b | 0 <= b < c
          ensures y[a][b] == x[a][b]
        {
          assert T[a][b] == 0.0;
        }
      }
    }
  }

  /** With a single party its only perturbation is paired with itself and
      cancels, so the revealed share is the raw input. */
  lemma SinglePartyRevealsInput(x: Matrix, G: Grid, r: nat, c: nat)
    requires IsMatrix(x, r, c) && IsGrid(G, 1, r, c)
    ensures Shares([x], Antisymmetrised(G, 1, r, c), 1, r, c) == [x]
  {
    var R := Antisymmetrised(G, 1, r, c);
    AntisymmetrisedIsAntisymmetric(G, 1, r, c);
    assert R[0] == [Zero(r, c)];
    MatSumSingle(Zero(r, c), r, c);
    ShareIsInputIff(x, R[0], r, c);
  }

  /** The grid held in a two-dimensional array, as a value. */
  function GridOf(p: array2<Matrix>): (G: Grid)
    reads p
    ensures |G| == p.Length0
    ensures forall i :: 0 <= i < p.Length0 ==>
              |G[i]| == p.Length1 && forall j :: 0 <= j < p.Length1 ==> G[i][j] == p[i, j]
  {
    seq(p.Length0, i requires 0 <= i < p.Length0 reads p =>
      seq(p.Length1, j requires 0 <= j < p.Length1 reads p => p[i, j]))
  }

  /** `perturbations -= transpose(perturbations)`, in place.  The transposed
      operand overlaps the array being updated, so numpy reads it from a copy:
      the model takes a snapshot of the grid and rewrites every entry from it. */
  method Antisymmetrise(p: array2<Matrix>, r: nat, c: nat)
    requires p.Length0 == p.Length1
    requires IsGrid(GridOf(p), p.Length0, r, c)
    modifies p
    ensures GridOf(p) == Antisymmetrised(old(GridOf(p)), p.Length0, r, c)
  {
    var snapshot := GridOf(p);
    var n := p.Length0;
    for i := 0 to n
      invariant forall x, y :: 0 <= x < n && 0 <= y < n ==>
        p[x, y] == if x < i then Sub(snapshot[x][y], snapshot[y][x]) else snapshot[x][y]
    {
      AntisymmetriseRow(p, i, snapshot, r, c);
    }
    ghost var R := Antisymmetrised(snapshot, n, r, c);
    assert forall x :: 0 <= x < n ==> GridOf(p)[x] == R[x];
  }

  /** Row i of the update: entry (i, j) becomes the snapshot's (i, j) minus
      its (j, i), for every j; the other rows are left alone. */
  method AntisymmetriseRow(p: array2<Matrix>, i: nat, snapshot: Grid, r: nat, c: nat)
    requires p.Length0 == p.Length1 && i < p.Length0 && IsGrid(snapshot, p.Length0, r, c)
    requires forall x, y :: 0 <= x < p.Length0 && 0 <= y < p.Length0 ==>
      p[x, y] == if x < i then Sub(snapshot[x][y], snapshot[y][x]) else snapshot[x][y]
    modifies p
    ensures forall x, y :: 0 <= x < p.Length0 && 0 <= y < p.Length0 ==>
      p[x, y] == if x <= i then Sub(snapshot[x][y], snapshot[y][x]) else snapshot[x][y]
  {
    for j := 0 to p.Length1
      invariant forall x, y :: 0 <= x < p.Length0 && 0 <= y < p.Length0 ==>
        p[x, y] == if x < i || (x == i && y < j) then Sub(snapshot[x][y], snapshot[y][x]) else snapshot[x][y]
    {
      p[i, j] := Sub(snapshot[i][j], snapshot[j][i]);
    }
  }

  /** One perturbation per ordered pair of parties, stored in a fresh
      n x n array; the draws are supplied by the caller. */
  method DrawPerturbations(draws: Grid, n: nat) returns (p: array2<Matrix>)
    requires |draws| == n && forall i :: 0 <= i < n ==> |draws[i]| == n
    ensures fresh(p) && p.Length0 == n && p.Length1 == n
    ensures GridOf(p) == draws
  {
    p := new Matrix[n, n];
    for i := 0 to n
      invariant forall x, y :: 0 <= x < i && 0 <= y < n ==> p[x, y] == draws[x][y]
    {
      for j := 0 to n
        invariant forall x, y :: 0 <= x < i && 0 <= y < n ==> p[x, y] == draws[x][y]
        invariant forall y :: 0 <= y < j ==> p[i, y] == draws[i][y]
      {
        p[i, j] := draws[i][j];
      }
    }
    assert forall x :: 0 <= x < n ==> GridOf(p)[x] == draws[x];
  }

  /** Secure summation of the parties' matrices with the given draws as the
      perturbation grid; fails on an empty list or on differing shapes. */
  method SecureAggregation(xs: seq<Matrix>, draws: Grid) returns (res: Result<Matrix>)
    requires xs != [] ==> IsGrid(draws, |xs|, Rows(xs[0]), Cols(xs[0]))
    ensures xs == [] ==> res == Failure(EmptyInput)
    ensures xs != [] && !Uniform(xs) ==> res == Failure(ShapeMismatch)
    ensures Uniform(xs) ==> res == Success(MatSum(xs, Rows(xs[0]), Cols(xs[0])))
  {
    if xs == [] {
      return Failure(EmptyInput);
    }
    var n, r, c := |xs|, Rows(xs[0]), Cols(xs[0]);
    if !AllShaped(xs, r, c) {
      return Failure(ShapeMismatch);
    }
    var perturbations := DrawPerturbations(draws, n);
    Antisymmetrise(perturbations, r, c);
    var grid := GridOf(perturbations);
    // each party reveals its input minus its row of perturbations
    var ys := Shares(xs, grid, n, r, c);
    // the server adds the revealed shares
    res := Success(MatSum(ys, r, c));
    AntisymmetrisedIsAntisymmetric(draws, n, r, c);
    SecureSumCorrect(xs, grid, n, r, c);
  }
}
