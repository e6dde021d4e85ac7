/** How the kernel variant of `fit` shares the centroid budget K among the
    clients: client i first gets `floor(K * n_i / n)` centroids, and the
    `remainder = K - sum of those` left over go one each to the clients with
    the lowest indices.  The model is exact integer arithmetic; `sizes[i]` is
    client i's row count `Xs[i].shape[0]`. */
module Apportionment {
  import opened Sums
  import opened Results

  /** The proportional shares rounded down, one per client: each is the
      largest f with n * f <= K * n_i. */
  function Floors(sizes: seq<nat>, K: int, n: nat): (f: seq<int>)
    requires n > 0
    ensures |f| == |sizes|
    ensures forall i :: 0 <= i < |sizes| ==> n * f[i] <= K * sizes[i] <= n * f[i] + n - 1
  {
    var f := seq(|sizes|, i requires 0 <= i < |sizes| => K * sizes[i] / n);
    FloorsBounds(f, sizes, K, n);
    f
  }

  lemma FloorsBounds(f: seq<int>, sizes: seq<nat>, K: int, n: nat)
    requires n > 0 && |f| == |sizes|
    requires forall i :: 0 <= i < |sizes| ==> f[i] == K * sizes[i] / n
    ensures forall i :: 0 <= i < |sizes| ==> n * f[i] <= K * sizes[i] <= n * f[i] + n - 1
  {
    forall i | 0 <= i < |sizes|
      ensures n * f[i] <= K * sizes[i] <= n * f[i] + n - 1
    {
      FloorDivBounds(K * sizes[i], n);
    }
  }

  /** The centroids left over after every client got its rounded-down share:
      never negative, and fewer than the number of clients. */
  function Remainder(sizes: seq<nat>, K: int): (r: int)
    requires NatSum(sizes) > 0
    ensures 0 <= r < |sizes|
  {
    var n := NatSum(sizes);
    var f := Floors(sizes, K, n);
    FloorSumBounds(f, sizes, K, n);
    RemainderArithmetic(n, |sizes|, K, IntSum(f));
    K - IntSum(f)
  }

  /** The per-client centroid counts, as the apportionment loop hands them out:
      every client gets its rounded-down share or one more, and the clients
      that get one more come first. */
  function Apportioned(sizes: seq<nat>, K: int): (counts: seq<int>)
    requires NatSum(sizes) > 0
    ensures |counts| == |sizes|
    ensures forall i :: 0 <= i < |sizes| ==>
              counts[i] - Floors(sizes, K, NatSum(sizes))[i] in {0, 1}
    ensures forall i, j :: 0 <= i < j < |sizes| ==>
              counts[j] - Floors(sizes, K, NatSum(sizes))[j] <= counts[i] - Floors(sizes, K, NatSum(sizes))[i]
  {
    var f := Floors(sizes, K, NatSum(sizes));
    var r := Remainder(sizes, K);
    seq(|sizes|, i requires 0 <= i < |sizes| => f[i] + if i < r then 1 else 0)
  }

  /** `x / n` is the floor of the quotient: n * (x / n) <= x <= n * (x / n) + n - 1. */
  lemma FloorDivBounds(x: int, n: nat)
    requires n > 0
    ensures n * (x / n) <= x <= n * (x / n) + n - 1
  {
  }

  lemma Distribute(a: int, b: int, c: int)
    ensures a * (b + c) == a * b + a * c
  {
  }

  /** Multiplying by a positive number can be cancelled in a comparison. */
  lemma CancelLe(n: int, a: int, b: int)
    requires n > 0 && n * a <= n * b
    ensures a <= b
  {
  }

  /** Summing the per-client floor bounds. */
  lemma {:induction false} FloorSumBounds(f: seq<int>, s: seq<nat>, K: int, n: nat)
    requires n > 0 && |f| == |s|
    requires forall i :: 0 <= i < |f| ==> n * f[i] <= K * s[i] <= n * f[i] + n - 1
    ensures n * IntSum(f) <= K * NatSum(s) <= n * IntSum(f) + (n - 1) * |f|
    decreases |f|
  {
    if f != [] {
      var k := |f| - 1;
      FloorSumBounds(f[..k], s[..k], K, n);
      var F, S := IntSum(f[..k]), NatSum(s[..k]);
      assert IntSum(f) == F + f[k];
      assert NatSum(s) == S + s[k];
      Distribute(K, S, s[k]);
      Distribute(n, F, f[k]);
      Distribute(n - 1, k, 1);
    }
  }

  /** The arithmetic behind the remainder bounds: from
      n * F <= K * n <= n * F + (n - 1) * C follows F <= K < F + C. */
  lemma RemainderArithmetic(n: int, C: int, K: int, F: int)
    requires n > 0 && C > 0
    requires n * F <= K * n <= n * F + (n - 1) * C
    ensures 0 <= K - F < C
  {
    Commute(K, n);
    CancelLe(n, F, K);
    OneFewer(n, C);
    Distribute(n, F, C);
    CancelLt(n, K, F + C);
  }

  lemma Commute(a: int, b: int)
    ensures a * b == b * a
  {
  }

  lemma OneFewer(a: int, b: int)
    ensures (a - 1) * b == a * b - b
  {
  }

  /** Multiplying by a positive number can be cancelled in a strict comparison. */
  lemma CancelLt(n: int, a: int, b: int)
    requires n > 0 && n * a < n * b
    ensures a < b
  {
    if a >= b {
      MonotoneProduct(n, b, a);
    }
  }

  lemma MonotoneProduct(n: int, a: int, b: int)
    requires n > 0 && a <= b
    ensures n * a <= n * b
  {
    Distribute(n, a, b - a);
  }

  /** A rounded-down share, bumped by at most one, stays within one of the
      exact share. */
  lemma WithinOne(x: int, n: nat, count: int)
    requires n > 0
    requires count == x / n || count == x / n + 1
    ensures n * (count - 1) <= x < n * (count + 1)
  {
    FloorDivBounds(x, n);
    Distribute(n, count, -1);
    Distribute(n, count, 1);
    Distribute(n, x / n, 1);
  }

  /** A count that is a rounded-down share, bumped by at most one, is within
      one of the exact share, and is not negative when the share is not. */
  lemma CountBounds(x: int, n: nat, count: int, nonNegative: bool)
    requires n > 0 && (count == x / n || count == x / n + 1)
    requires nonNegative ==> x >= 0
    ensures n * (count - 1) <= x < n * (count + 1)
    ensures nonNegative ==> count >= 0
  {
    WithinOne(x, n, count);
    if nonNegative {
      QuotientNonNegative(x, n);
    }
  }

  lemma ProductNonNegative(a: int, b: int)
    requires a >= 0 && b >= 0
    ensures a * b >= 0
  {
  }

  lemma QuotientNonNegative(x: int, n: int)
    requires x >= 0 && n > 0
    ensures x / n >= 0
  {
  }

  /** The apportioned counts: each client gets its rounded-down share, plus
      one exactly when its index is below the remainder; they add up to
      exactly K; each is within one of the client's exact proportional share
      K * n_i / n; and none is negative when K is not. */
  lemma ApportionedProperties(sizes: seq<nat>, K: int)
    requires NatSum(sizes) > 0
    ensures 0 <= Remainder(sizes, K) < |sizes|
    ensures forall i :: 0 <= i < |sizes| ==>
              Apportioned(sizes, K)[i] == K * sizes[i] / NatSum(sizes) + (if i < Remainder(sizes, K) then 1 else 0)
    ensures IntSum(Apportioned(sizes, K)) == K
    ensures forall i :: 0 <= i < |sizes| ==>
              NatSum(sizes) * (Apportioned(sizes, K)[i] - 1) <= K * sizes[i] < NatSum(sizes) * (Apportioned(sizes, K)[i] + 1)
    ensures K >= 0 ==> forall i :: 0 <= i < |sizes| ==> Apportioned(sizes, K)[i] >= 0
  {
    ApportionedTotal(sizes, K);
    ApportionedWithinOne(sizes, K);
  }

  /** The apportioned counts add up to exactly the budget K. */
  lemma ApportionedTotal(sizes: seq<nat>, K: int)
    requires NatSum(sizes) > 0
    ensures IntSum(Apportioned(sizes, K)) == K
  {
    var f := Floors(sizes, K, NatSum(sizes));
    var r := Remainder(sizes, K);
    var extra := seq(|sizes|, i requires 0 <= i < |sizes| => if i < r then 1 else 0);
    IntSumPrefixOnes(extra, r);
    IntSumPlus(f, extra, Apportioned(sizes, K));
  }

  /** Each apportioned count is within one of the client's exact share, and
      none is negative when K is not. */
  lemma ApportionedWithinOne(sizes: seq<nat>, K: int)
    requires NatSum(sizes) > 0
    ensures forall i :: 0 <= i < |sizes| ==>
              NatSum(sizes) * (Apportioned(sizes, K)[i] - 1) <= K * sizes[i] < NatSum(sizes) * (Apportioned(sizes, K)[i] + 1)
    ensures K >= 0 ==> forall i :: 0 <= i < |sizes| ==> Apportioned(sizes, K)[i] >= 0
  {
    var n := NatSum(sizes);
    var counts := Apportioned(sizes, K);
    forall i | 0 <= i < |sizes|
      ensures n * (counts[i] - 1) <= K * sizes[i] < n * (counts[i] + 1)
      ensures K >= 0 ==> counts[i] >= 0
    {
      if K >= 0 {
        ProductNonNegative(K, sizes[i]);
      }
      CountBounds(K * sizes[i], n, counts[i], K >= 0);
    }
  }

  /** A client can be apportioned no centroid at all: with 100 samples split
      1, 1, 98 and a budget of 50, the second client gets zero. */
  lemma ApportionedCanBeZero()
    ensures Apportioned([1, 1, 98], 50) == [1, 0, 49]
  {
    var sizes: seq<nat> := [1, 1, 98];
    assert sizes[..2] == [1, 1] && sizes[..2][..1] == [1] && sizes[..2][..1][..0] == [];
    assert NatSum([1]) == 1;
    assert NatSum([1, 1]) == 2;
    assert NatSum(sizes) == 100;
    var f := Floors(sizes, 50, 100);
    assert f == [0, 0, 49];
    assert f[..2] == [0, 0] && f[..2][..1] == [0] && f[..2][..1][..0] == [];
    assert IntSum([0]) == 0;
    assert IntSum([0, 0]) == 0;
    assert IntSum(f) == 49;
  }

  /** The apportionment loop: the counts are computed client by client, the
      current client's share bumped by one when its index is below the
      remainder.  With no samples at all the shares are undefined. */
  method CentroidCounts(sizes: seq<nat>, K: int) returns (res: Result<seq<int>>)
    ensures NatSum(sizes) == 0 ==> res == Failure(EmptyInput)
    ensures NatSum(sizes) > 0 ==> res == Success(Apportioned(sizes, K))
    ensures res.Success? ==> |res.value| == |sizes| && IntSum(res.value) == K
  {
    var n := NatSum(sizes);
    if n == 0 {
      return Failure(EmptyInput);
    }
    var centroidsPerClient := Floors(sizes, K, n);
    var remainder := K - IntSum(centroidsPerClient);
    var counts: seq<int> := [];
    for i := 0 to |sizes|
      invariant |counts| == i
      invariant forall k :: 0 <= k < i ==> counts[k] == Apportioned(sizes, K)[k]
    {
      var curCentroids := centroidsPerClient[i];
      if i < remainder {
        curCentroids := curCentroids + 1;
      }
      counts := counts + [curCentroids];
    }
    assert counts == Apportioned(sizes, K);
    ApportionedProperties(sizes, K);
    return Success(counts);
  }
}
