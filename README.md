# Federated supervised PCA: the exact bookkeeping around the eigen-solver

This project models, in Dafny, the discrete parts of `FeS_PCA.py`, the
federated supervised PCA (FeS-PCA / FeSK-PCA) of the FeS-PCA code base.
Several clients hold row blocks of a data matrix, and a server must never see
any client's raw rows. The numerical eigen-decomposition is not modelled.
What is modelled is the arithmetic that surrounds it, over exact reals and
integers:

- **Secure summation** (`secure_aggregation`, after FedSVD). Each ordered
  pair of parties (i, j) draws a perturbation matrix. The grid of draws is
  antisymmetrised in place. Party i reveals `x_i - sum_j R[i][j]`. The
  server adds the revealed shares. The model takes the random draws as an
  arbitrary input grid. It proves that the perturbations cancel for every
  draw, so the server gets exactly the element-wise sum. `inplace_sum` is
  the plain counterpart.
- **Global mean and centring** (standard variant of `fit`). Each client
  sends its column means times its row count. These are summed securely or
  plainly and divided by the total n. Each client then subtracts the mean,
  rebinding its entry of the caller's list. Both paths give the column mean
  of the stacked data, and the centred data has zero column sums.
- **Centring matrix** `H = I - (1/n) e e^T` (dual and kernel variants).
  H is symmetric, its rows sum to zero, and `H v` subtracts the mean of `v`.
  On each feature column this equals the standard variant's mean-centring.
- **Centroid apportionment** (kernel variant). Client i gets
  `floor(K * n_i / n)` centroids. The remainder goes one each to the
  lowest-indexed clients. The counts add up to exactly K.
- **Top-k index window** `[size - k, size - 1]` handed to the eigen-solver,
  for the standard (`size = m`), dual (`size = Xs[0].shape[0]`, as written)
  and kernel (`size` = number of centroids) variants.

Modules, one file each: `Results` (error outcomes), `Sums` (finite sums),
`Matrices` (matrices as `seq<seq<real>>`), `Aggregation`, `MeanCentring`,
`CentringMatrix`, `Apportionment`, `ComponentWindow`.

Where the Python raises (an `IndexError` on an empty client list) or
silently produces NaN (the mean of a client with no rows, a share of zero
total samples), the model returns `Failure(EmptyInput)`. Where the parties'
matrices differ in shape, the model returns `Failure(ShapeMismatch)`.

The code has no path for a missing contribution, because every party runs
in one process. The dual variant takes the size of its window from the first
client only (see Findings).

## Model

| member | source | states |
|---|---|---|
| Aggregation.InplaceSum | FeS_PCA.py:7-11 | Copying the first matrix and adding the rest gives the element-wise sum of the whole list, of the same shape. An empty list fails with EmptyInput and differing shapes fail with ShapeMismatch. The list is a value, so its first matrix is left unchanged. |
| Aggregation.DrawPerturbations | FeS_PCA.py:19-25 | The n x n perturbation array is fresh and holds draw (i, j) at position (i, j). |
| Aggregation.Antisymmetrise | FeS_PCA.py:25-26 | The in-place `perturbations -= transpose` leaves every entry (i, j) equal to old R[i][j] - old R[j][i]. numpy reads the overlapping transposed operand from a copy, and the model rewrites every entry from a snapshot in the same way. |
| Aggregation.AntisymmetriseRow | FeS_PCA.py:26 | One row of that update: the entries of row i are rewritten from the snapshot, earlier rows stay rewritten, and later rows stay untouched. |
| Aggregation.Antisymmetrised | FeS_PCA.py:26 | The grid after `R = R - R^T`, as a value, is again an n x n grid of r x c matrices. `AntisymmetrisedIsAntisymmetric` proves that it is antisymmetric. |
| Aggregation.AntisymmetrisedIsAntisymmetric | FeS_PCA.py:26 | After the subtraction R[i][j] = -R[j][i] entry by entry, and every diagonal block R[i][i] is the zero matrix. |
| Aggregation.AntisymmetricTotalZero | FeS_PCA.py:26-28 | The entries of any antisymmetric square real matrix sum to zero. |
| Aggregation.PerturbationsCancel | FeS_PCA.py:26-28 | For every antisymmetric grid, the row sums that the parties subtract add up to the zero matrix. |
| Aggregation.Share | FeS_PCA.py:27 | What one party reveals, `x_i - sum_j R[i][j]`, has the shape of its input. `ShareIsInputIff` says when it equals the input. |
| Aggregation.Shares | FeS_PCA.py:27 | One share per party, each of the common shape. `SecureSumCorrect` proves that their sum is the sum of the inputs. |
| Aggregation.SecureSumCorrect | FeS_PCA.py:27-28 | The server's sum of the revealed shares `x_i - sum_j R[i][j]` equals the element-wise sum of the inputs, for every antisymmetric grid. |
| Aggregation.ShareIsInputIff | FeS_PCA.py:27 | A revealed share equals the party's raw input if and only if that party's perturbations sum to zero. |
| Aggregation.SinglePartyRevealsInput | FeS_PCA.py:26-27 | With one party its only perturbation cancels against itself, so the revealed share is the raw input. |
| Aggregation.SecureAggregation | FeS_PCA.py:13-30 | For any perturbation draws the result is the element-wise sum of the inputs. An empty list fails with EmptyInput and differing shapes fail with ShapeMismatch. |
| MeanCentring.TotalRows | FeS_PCA.py:67 | The total sample count n is at least every client's own row count. It is zero exactly when no client has a row. |
| MeanCentring.ScaledMean | FeS_PCA.py:120 | A client's contribution, its column means times its row count, is a 1 x m row. `ScaledMeanIsColumnSums` proves it equals the client's column sums. |
| MeanCentring.ScaledMeanIsColumnSums | FeS_PCA.py:119-120 | A client's column means times its row count are exactly its column sums. |
| MeanCentring.ContributionsSum | FeS_PCA.py:118-125 | The clients' contributions sum to the column sums of the row-stacked data. |
| MeanCentring.GlobalMean | FeS_PCA.py:67-125 | The secure path and the plain path both return the column mean of the row-stacked client data. No clients, or a client without rows, fails with EmptyInput. Clients with different feature counts fail with ShapeMismatch. |
| MeanCentring.Centred | FeS_PCA.py:129 | `X - mu` broadcast over the rows keeps the shape of X. `CentredColumnSumsZero` proves that centring by the global mean leaves zero column sums. |
| MeanCentring.CentredAll | FeS_PCA.py:128-129 | One centred matrix per client, as many as there are clients. |
| MeanCentring.CentreClients | FeS_PCA.py:127-129 | Every entry of the caller's list is replaced by that client's rows minus the mean, and nothing else changes. |
| MeanCentring.MeanCentre | FeS_PCA.py:118-129 | It succeeds exactly for well-formed clients. On success the list holds each client centred by the global column mean. On failure the list is untouched. |
| MeanCentring.CentredColumnSumsZero | FeS_PCA.py:127-129 | After centring, each client keeps its shape, and the stacked centred rows have zero column sums. |
| CentringMatrix.Centring | FeS_PCA.py:74-76 | H is an n x n matrix whenever it exists. For n = 0 it does not exist, as Python's `1/n` raises. `CentringShape` proves that it exists exactly when n > 0. |
| CentringMatrix.CentringEntries | FeS_PCA.py:74-76 | H has 1 - 1/n on the diagonal and -1/n off it. |
| CentringMatrix.CentringShape | FeS_PCA.py:193-195 | H exists exactly when n > 0; it is symmetric and each of its rows sums to zero. |
| CentringMatrix.CentringCentres | FeS_PCA.py:74-76 | `H v` is `v` with the mean of `v` subtracted from every entry. |
| CentringMatrix.CentringRow | FeS_PCA.py:74-76 | Row i of H applied to `v` gives v[i] minus the mean of `v`. |
| CentringMatrix.CentredVectorSumsToZero | FeS_PCA.py:74-76 | Every vector centred by H sums to zero. |
| CentringMatrix.CentringMatchesMeanCentring | FeS_PCA.py:74-84 | H over all n stacked samples, applied to any feature column, gives the same values as subtracting the global column mean. |
| Apportionment.Floors | FeS_PCA.py:162-163 | Each client's share rounded down: the largest f with n * f <= K * n_i, so that K * n_i <= n * f + n - 1. |
| Apportionment.Remainder | FeS_PCA.py:162-168 | The leftover `remainder = K - sum floor(K n_i / n)` satisfies 0 <= remainder < number of clients. |
| Apportionment.Apportioned | FeS_PCA.py:169-174 | Every client gets its rounded-down share or one more, and the clients that get one more come before those that do not. |
| Apportionment.ApportionedProperties | FeS_PCA.py:162-174 | Each client gets `floor(K n_i / n)`, plus one exactly when its index is below the remainder. The counts sum to exactly K. Each count is within one of the exact share K n_i / n. No count is negative when K is not. |
| Apportionment.ApportionedTotal | FeS_PCA.py:162-174 | The counts handed out add up to exactly the budget K. |
| Apportionment.ApportionedWithinOne | FeS_PCA.py:162-174 | Each client's count is within one of its exact share K n_i / n. No count is negative when K is not. |
| Apportionment.ApportionedCanBeZero | FeS_PCA.py:162-177 | With samples split 1, 1, 98 and a budget of 50, the counts are [1, 0, 49]: the second client gets no centroid. |
| Apportionment.CentroidCounts | FeS_PCA.py:162-174 | The loop hands out exactly the apportioned counts, one per client, summing to K. Zero total samples fails with EmptyInput. |
| ComponentWindow.Window | FeS_PCA.py:147-150 | No component count gives no window, meaning all eigenpairs. Otherwise the window ends at size - 1 and spans exactly k indices. |
| ComponentWindow.StandardWindow | FeS_PCA.py:146-150 | The window for the m x m problem over the m features of the first client ends at m - 1 and spans k indices. It is None without a component count. |
| ComponentWindow.StandardWindowSelectsTop | FeS_PCA.py:146-150 | With 1 <= k <= m the standard window holds exactly the last k indices of the m x m problem. |
| ComponentWindow.WindowSelectsLastK | FeS_PCA.py:147-150 | The window lies within [0, size - 1] and is non-empty if and only if 1 <= k <= size. It then holds exactly the last k indices, in ascending order. |
| ComponentWindow.DualWindow | FeS_PCA.py:98-102 | As written: the dual window ends at the first client's last row index `Xs[0].shape[0] - 1` and spans k indices. It is None without a component count. |
| ComponentWindow.DualWindowIntended | FeS_PCA.py:98-102 | As intended: the dual window ends at n - 1 for the total sample count n and spans k indices. |
| ComponentWindow.DualWindowMissesTopComponent | FeS_PCA.py:98-100 | As written: with two one-sample clients and k = 1, the 2 x 2 dual problem gets window [0, 0], which misses its top index 1. |
| ComponentWindow.DualWindowIntendedSelectsTop | FeS_PCA.py:98-100 | Sized by the total n, the dual window holds exactly the last k indices of the n x n problem. |
| ComponentWindow.DualWindowAgreesIff | FeS_PCA.py:98-100 | The as-written and intended dual windows agree if and only if the first client holds every sample, which includes the single-client case. |
| ComponentWindow.KernelWindow | FeS_PCA.py:198-201 | The kernel window ends at the last centroid index, the total centroid count minus one, and spans k indices. |
| ComponentWindow.KernelWindowIsBudgetWindow | FeS_PCA.py:198-201 | With the apportioned counts the kernel problem has exactly K rows, so its window is the window for the budget K. |

## Findings

| source | as written | input that shows it | evidently intended | confidence | as-written member | corrected member |
|---|---|---|---|---|---|---|
| FeS_PCA.py:98-100 | The dual variant sizes its top-k window by `Xs[0].shape[0]`, the first client's row count. | Two clients with one sample each and `n_components = 1`: the eigenproblem `psi^T psi` is 2 x 2, but the window is [0, 0], the smaller eigenpair. | The window `[n - k, n - 1]` with n the total number of samples, as in the other variants. | high for more than one client; harmless with one client; not executed | ComponentWindow.DualWindow | ComponentWindow.DualWindowIntended |

## Left out

- Eigen-solving (`scipy.linalg.eigh`), `np.linalg.cholesky`, `np.linalg.inv` and the square roots of eigenvalues: floating-point numerical solvers from a library. So the FeSK object's `eigenvectors_` and `eigenvalues_` fields, and `fit`'s return value, are not modelled.
- KMeans clustering, the nearest-neighbour labelling of centroids and `pairwise_kernels`: foreign library calls. Only the centroid count each client is given is modelled. `KernelWindowIsBudgetWindow` assumes that KMeans returns exactly that many centres. That holds only when every count is between 1 and the client's row count. Otherwise `fit` raises at the KMeans call on line 177, before the kernel matrix is built. A count of zero is reachable, as `ApportionedCanBeZero` shows, and so is a count above n_i when K exceeds n.
- The masking products `P X^T Q`, `Q^T Y` and `P X^T`, and the formation of the server's matrix Q: they only feed the eigen-solver, and their equivalence claims are floating-point numerics. The label kernel and the `eps` regulariser are left out for the same reason.
- Random draws (`np.random.randint`, `np.random.random`): the perturbation grid is an arbitrary input. All results hold for every draw.
- Floating point: the model is exact. Python's float sums and its float `floor(K * (n_i / n))` can round differently from the exact `K * n_i / n` used here.
- Broadcasting: numpy accepts some mismatched shapes, for example adding a 1 x c summand into an r x c accumulator. `InplaceSum` and `SecureAggregation` reject every shape difference with ShapeMismatch.
- GlobalMean: a client with no rows gets EmptyInput here, while numpy yields a NaN mean.
- CentroidCounts: zero total samples gives EmptyInput here, while numpy divides by zero and casts NaN to an integer.
- Window: the model does not reject k outside 1..size. The eigen-solver raises there, and `WindowSelectsLastK` characterises exactly which k give a valid window.
- InplaceSum: numpy array identity and aliasing are not modelled. Matrices are values, so "the first input is left unchanged" holds by construction.
- The `FeSK` constructor and its configuration: they are passed as parameters (`secure`, `nComponents`, `K`). The choice of variant in `fit` is modelled by which operation is used.
- `visualize_toy_datasets.py` (argument parsing, plotting, QR mask generation) and `data_utils.py` (dataset loading and generation): outside the core.
