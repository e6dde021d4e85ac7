/** The index window `[size - k, size - 1]` that `fit` hands to the
    eigen-solver to keep the top k eigenpairs (eigenvalues come in ascending
    order, so the k largest are the last k), or "all" when the number of
    components is not configured.  Each variant computes `size` its own way. */
module ComponentWindow {
  import opened Results
  import opened Sums
  import opened Matrices
  import opened MeanCentring
  import opened Apportionment

  /** `[size - k, size - 1]` for `n_components = k`; None (all eigenpairs)
      when n_components is None. */
  function Window(size: int, nComponents: Option<int>): (w: Option<(int, int)>)
    ensures w.Some? <==> nComponents.Some?
    ensures w.Some? ==> w.value.1 == size - 1 && w.value.1 - w.value.0 + 1 == nComponents.value
  {
    match nComponents
    case None => None
    case Some(k) => Some((size - k, size - 1))
  }

  /** The indices lo, lo + 1, ..., hi of a window, ascending. */
  function Indices(w: (int, int)): (ix: seq<int>)
    requires w.0 <= w.1 + 1
    ensures |ix| == w.1 - w.0 + 1
  {
    seq(w.1 - w.0 + 1, t => w.0 + t)
  }

  /** All eigenpair indices of a problem of the given size, ascending. */
  function AllIndices(size: nat): (ix: seq<int>)
    ensures |ix| == size
  {
    seq(size, i => i)
  }

  /** The window for k components is a non-empty range of valid indices
      exactly when 1 <= k <= size, and then it holds exactly the last k
      indices, in ascending order. */
  lemma WindowSelectsLastK(size: nat, k: int)
    ensures var w := Window(size, Some(k)).value;
            (0 <= w.0 <= w.1 < size) <==> 1 <= k <= size
    ensures 1 <= k <= size ==>
              var w := Window(size, Some(k)).value;
              Indices(w) == AllIndices(size)[size - k..] && |Indices(w)| == k
  {
    if 1 <= k <= size {
      var w := Window(size, Some(k)).value;
      assert forall t :: 0 <= t < k ==> Indices(w)[t] == AllIndices(size)[size - k..][t];
    }
  }

  /** Standard variant: the eigenproblem is m x m over the m features
      `Xs[0].shape[1]`. */
  function StandardWindow(Xs: seq<Matrix>, nComponents: Option<int>): (w: Option<(int, int)>)
    requires Xs != []
    ensures w.Some? <==> nComponents.Some?
    ensures w.Some? ==> w.value.1 == Cols(Xs[0]) - 1 && w.value.1 - w.value.0 + 1 == nComponents.value
  {
    Window(Cols(Xs[0]), nComponents)
  }

  /** With 1 <= k <= m the standard window selects the last k indices of the
      m x m problem. */
  lemma StandardWindowSelectsTop(Xs: seq<Matrix>, k: int)
    requires Xs != [] && 1 <= k <= Cols(Xs[0])
    ensures var w := StandardWindow(Xs, Some(k)).value;
            0 <= w.0 <= w.1 < Cols(Xs[0]) &&
            Indices(w) == AllIndices(Cols(Xs[0]))[Cols(Xs[0]) - k..]
  {
    WindowSelectsLastK(Cols(Xs[0]), k);
  }

  /** Dual variant as written: the size is taken from the first client's row
      count `Xs[0].shape[0]`, although the eigenproblem is n x n over all n
      stacked samples. */
  function DualWindow(Xs: seq<Matrix>, nComponents: Option<int>): (w: Option<(int, int)>)
    requires Xs != []
    ensures w.Some? <==> nComponents.Some?
    ensures w.Some? ==> w.value.1 == |Xs[0]| - 1 && w.value.1 - w.value.0 + 1 == nComponents.value
  {
    Window(|Xs[0]|, nComponents)
  }

  /** Dual variant as intended: the size is the total number of samples n. */
  function DualWindowIntended(Xs: seq<Matrix>, nComponents: Option<int>): (w: Option<(int, int)>)
    ensures w.Some? <==> nComponents.Some?
    ensures w.Some? ==> w.value.1 == TotalRows(Xs) - 1 && w.value.1 - w.value.0 + 1 == nComponents.value
  {
    Window(TotalRows(Xs), nComponents)
  }

  /** The intended dual window selects the last k indices of the n x n
      problem over all n stacked samples. */
  lemma DualWindowIntendedSelectsTop(Xs: seq<Matrix>, k: int)
    requires 1 <= k <= TotalRows(Xs)
    ensures var w := DualWindowIntended(Xs, Some(k)).value;
            0 <= w.0 <= w.1 < TotalRows(Xs) &&
            Indices(w) == AllIndices(TotalRows(Xs))[TotalRows(Xs) - k..]
  {
    WindowSelectsLastK(TotalRows(Xs), k);
  }

  /** The two dual windows agree exactly when the first client holds every
      sample (in particular with a single client). */
  lemma DualWindowAgreesIff(Xs: seq<Matrix>, k: int)
    requires Xs != []
    ensures DualWindow(Xs, Some(k)) == DualWindowIntended(Xs, Some(k)) <==> |Xs[0]| == TotalRows(Xs)
    ensures |Xs| == 1 ==> DualWindow(Xs, Some(k)) == DualWindowIntended(Xs, Some(k))
  {
    if |Xs| == 1 {
      assert Xs[..0] == [];
    }
  }

  /** Two clients with one sample each and one component: the dual problem is
      2 x 2 and its top eigenpair has index 1, but the window as written is
      [0, 0] and selects the smaller eigenpair. */
  lemma DualWindowMissesTopComponent()
    ensures var Xs := [[[0.0]], [[0.0]]];
            TotalRows(Xs) == 2 &&
            DualWindow(Xs, Some(1)) == Some((0, 0)) &&
            1 !in Indices(DualWindow(Xs, Some(1)).value) &&
            DualWindowIntended(Xs, Some(1)) == Some((1, 1))
  {
    var Xs: seq<Matrix> := [[[0.0]], [[0.0]]];
    assert Xs[..1] == [[[0.0]]];
    assert Xs[..1][..0] == [];
  }

  /** Kernel variant: the eigenproblem is over the stacked centroids, one row
      per centroid (`K_support.shape[0]`). */
  function KernelWindow(counts: seq<int>, nComponents: Option<int>): (w: Option<(int, int)>)
    ensures w.Some? <==> nComponents.Some?
    ensures w.Some? ==> w.value.1 == IntSum(counts) - 1 && w.value.1 - w.value.0 + 1 == nComponents.value
  {
    Window(IntSum(counts), nComponents)
  }

  /** With the apportioned centroid counts the kernel problem has exactly K
      rows, so its window is the window of the centroid budget K. */
  lemma KernelWindowIsBudgetWindow(sizes: seq<nat>, K: int, nComponents: Option<int>)
    requires NatSum(sizes) > 0
    ensures KernelWindow(Apportioned(sizes, K), nComponents) == Window(K, nComponents)
  {
    ApportionedProperties(sizes, K);
  }
}
