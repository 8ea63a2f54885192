# marcia: multi-task Gaussian-process kernels and dataset assembly

This project models two parts of the `marcia` cosmology package.

- **`Kernels`** (`marcia/Archive/kernels.py`) is the multi-task covariance
  assembler. At construction it walks every ordered pair of tasks. For
  `i <= j` it builds a kernel grid with `KcMM`: the convolution of the two
  tasks' Matérn-family basis functions on a `tau x l2 x l1` grid. It also
  stores the pair's lag matrix `data[i][:, None] - data[j][None, :]`. For
  `i > j` it reuses the mirrored pair. A call with a parameter matrix scales
  and queries every pair's grid and joins the blocks with `np.block`.
- **`Data`** (`marcia/database.py`) selects datasets by name. It dispatches
  each name to its loader with `get_data` and, when called, joins the loaded
  x and y vectors. It places the per-dataset covariances on the diagonal of
  one matrix (`__block_matrix__`).

Modules:

- `Results`: the `Result` type used for every raised exception.
- `Matrices`: dense matrices and transpose, with horizontal and vertical
  concatenation as `np.block` does them. `np.block` gives `ShapeError` on
  mismatched blocks.
- `Basis`: `gMdef`, `gdMdef` and the integrand. The special functions, float
  division, the compiled backend and `quad` are opaque fields of `Numerics`.
- `KernelGrid`: `np.linspace`, `itertools.product`, an in-order `pool.map`,
  `reshape` and `KcMM`.
- `Kernels`: the `Kernels` class, whose constructor and call update its
  three tables in place. The call's value is the pure function `Evaluate`.
  The module also holds the as-written variants behind the findings.
- `Database`: `Data(...)`, `get_data`, `__block_matrix__` (an array filled
  in place) and `__call__`.

In four places the code cannot do what it evidently sets out to do. For each,
the model has a member showing the code as written and a corrected member that
the rest of the model uses. See "## Findings".

- **The mirror step.** The comment at line 68 of `kernels.py` says the pair loop
  creates "the symmetric matrix", so pairs with `i > j` are meant to reuse the
  pairs already built. Line 78 instead reads `data_tau['t_{i}{j}']`, a key not
  yet stored, so it raises KeyError. The corrected construction stores the
  `(i, j)` lag matrix as the negated transpose of the `(j, i)` one
  (`Kernels.LagAntisymmetric` shows this equals the directly computed matrix)
  and reuses the `(j, i)` grid.
- **The string keys.** `f't_{i}{j}'` (line 74) gives the same key to two pairs
  from twelve tasks on. The corrected tables are keyed by the pair itself.
- **The layout of the result.** `np.block` needs equal row counts within a
  block-row. Line 89's outer comprehension runs over `j`, so block-row `j` holds
  the pairs `(0, j)`, `(1, j)`, … with `len(data[i])` rows each. Once lines
  78-79 are corrected and each query receives a three-coordinate point, any two
  x-arrays of different lengths make it raise. The corrected layout puts pair
  `(i, j)` in block-row `i`, block-column `j`.
- **The basis helpers.** `_spkv_` and `_spgamma_` are methods (lines 93-97), and
  the module defines no functions of those names. Lines 109, 114 and 124 call
  them without `self.`, so those branches raise NameError. The corrected basis
  calls the methods.

## Model

| member | source | states |
|---|---|---|
| Basis.Resolve | marcia/Archive/kernels.py:105-116 | A smoothness label other than `'0.0'` is the only error. A number other than 5/2 and 7/2 selects the general Matérn branch with that number. |
| Basis.ResolveRoundTrip | marcia/Archive/kernels.py:106-112 | Every accepted smoothness value is recovered from the branch it selects. |
| Basis.ResolveOnto | marcia/Archive/kernels.py:106-112 | Every branch is reached, and only from its own value. |
| Basis.SquaredExponentialEven | marcia/Archive/kernels.py:105-107 | The squared-exponential basis has the same value at `-tau` and `tau`. |
| Basis.GMDef | marcia/Archive/kernels.py:99-116 | With the helpers bound to `self`, `gMdef` fails exactly on an unsupported label. Otherwise its value is the selected branch's formula. |
| Basis.GMDefAsWrittenAgrees | marcia/Archive/kernels.py:106-116 | As written, `gMdef` returns only for the squared-exponential and 7/2 branches, and there it equals the intended value. |
| Basis.GMDefAsWrittenFails52 | marcia/Archive/kernels.py:108-109 | For nu = 5/2 the as-written `gMdef` raises NameError for `_spkv_`, while the intended one returns. |
| Basis.GDMDef | marcia/Archive/kernels.py:119-127 | The intended `gdMdef` returns for every numeric smoothness and fails on a label. |
| Basis.GDMDefAsWrittenNeverReturns | marcia/Archive/kernels.py:124 | As written, `gdMdef` never returns, whereas the intended one returns for every number. |
| Basis.GMDefAsWritten | marcia/Archive/kernels.py:99-116 | As written, `gMdef` returns exactly for `nu = '0.0'` and `nu = 7/2`. Every other input raises NameError for an unqualified helper. |
| Basis.GDMDefAsWritten | marcia/Archive/kernels.py:119-127 | As written, `gdMdef` always raises: NameError for `_spgamma_` exactly when nu is a number, and TypeError at `2. * nu` for a label. |
| Basis.ConvolutionExchange | marcia/Archive/kernels.py:129-133 | For every pair of smoothness values, the function `quad` integrates is unchanged when the two tasks (with their length scales) are swapped and `u` is replaced by `tau - u`. The two orientations of a pair therefore integrate the same product, which is what reusing the `(j, i)` grid for `(i, j)` relies on. |
| Basis.IntegrandExchange | marcia/Archive/kernels.py:129-133 | When `quad` is unchanged by the substitution `u -> tau - u` (`Basis.ReflectionInvariant`), `gMMdef_integrand` gives the same value with the two tasks swapped and the two length-scale coordinates exchanged. So the grid built for `(j, i)` holds, at node `(t, b, c)`, the value a direct build for `(i, j)` would hold at node `(t, c, b)`. |
| Basis.ConvolutionReflect | marcia/Archive/kernels.py:129-133 | For two squared-exponential tasks, the integrand for lag `-tau` at `-u` equals the integrand for lag `tau` at `u`. |
| KernelGrid.Linspace | marcia/Archive/kernels.py:71-73 | `n` points that start at `lo`, end at `hi` (for `n > 1`) and are equally spaced by `(hi - lo)/(n - 1)`. |
| KernelGrid.LinspaceWithin | marcia/Archive/kernels.py:71-73 | With `lo <= hi` every point lies in `[lo, hi]` and the points are non-decreasing. |
| KernelGrid.ProductAt | marcia/Archive/kernels.py:138 | `itertools.product(tau, l2, l1)` has `len(tau)*len(l2)*len(l1)` items, and the item at the row-major index of `(t, b, c)` is `(tau[t], l2[b], l1[c])`. |
| KernelGrid.MapInOrder | marcia/Archive/kernels.py:139-140 | `pool.map` evaluates the integrand once per item, and result `k` belongs to item `k`. |
| KernelGrid.Flatten3At | marcia/Archive/kernels.py:141 | In C order, element `[t][b][c]` of a three-axis array sits at flat index `(t*n1 + b)*n2 + c`. |
| KernelGrid.ReshapeFlatten | marcia/Archive/kernels.py:141 | `reshape((n0, n1, n2))` of a C-order flattened array gives back the array, so with `Flatten3At` the flat result `k` of `pool.map` lands at the node whose row-major index is `k`. |
| KernelGrid.KcMM | marcia/Archive/kernels.py:136-142 | The grid's axes are the given tau, l2 and l1 values, and its values array is `len(tau) x len(l2) x len(l1)`. Node `(t, b, c)` holds the integrand at `(tau[t], l2[b], l1[c])`, with exactly one evaluation per node. |
| Matrices.NpBlock | marcia/Archive/kernels.py:89 | `np.block` raises on an empty list or an empty block-row. A result it returns is a well-formed matrix. |
| Matrices.NpBlockGridAt | marcia/Archive/kernels.py:89 | `np.block` on blocks of matching row and column sizes succeeds. The result has the summed sizes, and entry `(a, b)` of block `(i, j)` lands at the row and column offsets of its block. |
| Matrices.NpBlockRowMismatch | marcia/Archive/kernels.py:89 | `np.block` fails when two blocks of one block-row differ in row count. |
| Kernels.LagMatrix | marcia/Archive/kernels.py:76 | The lag matrix is `len(xi) x len(xj)`, with entry `(a, b)` equal to `xi[a] - xj[b]`. |
| Kernels.LagAntisymmetric | marcia/Archive/kernels.py:76-78 | The lag matrix of the swapped pair is the negated transpose. |
| Kernels.PairGrid | marcia/Archive/kernels.py:69-74 | After construction, for `i <= j` the grid's tau axis spans `[-10, 10]`. Its l2 and l1 axes span task `j`'s and task `i`'s bounds, and every node holds the integrand for `nus[i]`, `nus[j]`. |
| Kernels.RowBuildsMembers | marcia/Archive/kernels.py:65-69 | Row `i` of the pair loop builds a grid exactly for columns `j >= i`. |
| Kernels.TriangleMembers | marcia/Archive/kernels.py:64-69 | The pair loop builds grids for exactly the pairs `i <= j`. |
| Kernels.TriangleCountClosed | marcia/Archive/kernels.py:64-74 | The first `i` rows build `i*(2n - i + 1)/2` grids. |
| Kernels.BuildCount | marcia/Archive/kernels.py:64-74 | `n` tasks cost `n*(n + 1)/2` grid builds. |
| Kernels.BuildStep | marcia/Archive/kernels.py:69-76 | For `i <= j` the new grid and lag matrix make pair `(i, j)` ready and leave the pairs already ready unchanged. |
| Kernels.MirrorStep | marcia/Archive/kernels.py:77-79 | For `i > j` the reused grid and the negated transpose of pair `(j, i)`'s lag matrix make pair `(i, j)` ready. |
| Kernels.Kernels.FillPair | marcia/Archive/kernels.py:66-79 | One step of the pair loop: pair `(i, j)` becomes ready, and a grid is built iff `i <= j`. |
| Kernels.Kernels.FillRow | marcia/Archive/kernels.py:65-79 | One pass of the inner loop: row `i` becomes ready, building grids for exactly the columns `j >= i`. |
| Kernels.Kernels.FillAll | marcia/Archive/kernels.py:64-79 | From empty tables, the pair loop leaves every ordered pair with its lag matrix and its grid. Both tables end up holding exactly the ordered pairs of tasks, and grids are built exactly for the pairs `i <= j`. |
| Kernels.Kernels.Init | marcia/Archive/kernels.py:60-79 | After construction every ordered pair has its own lag matrix and its grid, and both tables hold exactly the ordered pairs of tasks. Both orientations share one grid, the pairs built are those with `i <= j`, `KcMM` ran `n(n+1)/2` times, and `CovMat_all` is empty. |
| Kernels.NewKernels | marcia/Archive/kernels.py:53-79 | Construction raises the length-check ValueError of lines 53-54 iff the number of x-arrays differs from the number of tasks. Failing that, it raises the error of the first rejected task: the `gMdef` error for an unsupported smoothness, or the interpolator's ValueError for a length-scale axis with repeated points. Otherwise it yields a fully built object over the resolved configuration. |
| Kernels.Configure | marcia/Archive/kernels.py:64-74 | The configuration is accepted iff every task is. A task is accepted when `gMdef` takes its smoothness (lines 99-116) and, with two or more points, `l_min != l_max`; otherwise `RegularGridInterpolator` (line 142) rejects the repeated axis points. The error belongs to the first rejected task: an unsupported smoothness if it has one (`pool.map` runs first), otherwise the degenerate axis. The resolved record keeps every task's length-scale bounds, and each task carries the `gMdef` branch that `Resolve` selects for its configured smoothness (so 5/2 and 7/2 keep their own branches). |
| Kernels.FirstRejected | marcia/Archive/kernels.py:64-74 | The first task whose grid build in row 0 raises: every earlier task is accepted, and this one is not. |
| Kernels.TablesLagged | marcia/Archive/kernels.py:64-79 | The constructed tables give every ordered pair its lag matrix and share each grid between the two orientations. |
| Kernels.Evaluate | marcia/Archive/kernels.py:89 | The call fails with IndexError exactly when there are fewer parameter rows than tasks. It fails with an np.block error for zero tasks. A matrix it returns is well formed. `Kernels.EvaluateAt` shows that it succeeds on the constructed tables whenever some x-array is non-empty. |
| Kernels.BlockAt | marcia/Archive/kernels.py:89 | Block `(i, j)` is `len(data[i]) x len(data[j])`. Its entry `(a, b)` is `pars[i,0]*pars[j,0]` times the query of the pair's grid at `pars[i,1]*pars[j,1]` and lag `data[i][a] - data[j][b]`. |
| Kernels.EvaluateAt | marcia/Archive/kernels.py:89 | The intended call matrix is `N x N` for `N` observations. Entry `(a, b)` of pair `(i, j)` sits at row `off_i + a`, column `off_j + b`, holding the scaled query at that lag. |
| Kernels.SwappedEntry | marcia/Archive/kernels.py:89 | With a shared grid and a lag-even query, entry `(b, a)` of pair `(j, i)` equals entry `(a, b)` of pair `(i, j)`. |
| Kernels.EvaluateSymmetric | marcia/Archive/kernels.py:89 | With each grid shared by both orientations and a lag-even query, the assembled matrix is symmetric. |
| Kernels.EvaluateAsWritten | marcia/Archive/kernels.py:89 | The as-written layout has the same error cases for missing parameter rows and zero tasks. |
| Kernels.AsWrittenLayoutFails | marcia/Archive/kernels.py:89 | With `len(data[0]) != len(data[1])`, the as-written layout's np.block raises while the intended layout assembles. |
| Kernels.AsWrittenLayoutAt | marcia/Archive/kernels.py:89 | With equal-length x-arrays the as-written layout assembles, and pair `(i, j)`'s entry `(a, b)` lands at row `off_j + a`, column `off_i + b`. |
| Kernels.Kernels.Call | marcia/Archive/kernels.py:89-90 | The call returns the assembled matrix and stores it in `CovMat_all`. On an error it leaves the stored matrix as it was. |
| Kernels.KeysDistinctBelowTen | marcia/Archive/kernels.py:74 | Below ten tasks, the keys `f't_{i}{j}'` of different pairs differ. |
| Kernels.KeyCollision | marcia/Archive/kernels.py:74 | Pairs `(1, 11)` and `(11, 1)` both get the key `t_111`. As written this is latent, because the loop raises at `(1, 0)` first. It matters once line 78 reads the stored pair. |
| Kernels.AsWrittenFirstRow | marcia/Archive/kernels.py:64-78 | Once row 0 has stored its `t_0j` keys, the as-written loop raises KeyError(`t_10`) at pair `(1, 0)`. |
| Kernels.AsWrittenRaises | marcia/Archive/kernels.py:77-78 | As written, construction with two or more tasks raises KeyError(`t_10`), when every grid build of row 0 returns. |
| Kernels.AsWrittenOneTask | marcia/Archive/kernels.py:64-79 | As written, construction with one task completes and stores only `t_00`, when its grid build returns. |
| Kernels.AsWrittenPairLoop | marcia/Archive/kernels.py:64-79 | The as-written key bookkeeping only ever adds keys. If it raises, it raises KeyError for a key that was not stored. |
| Database.FirstUnknown | marcia/database.py:18-19 | Returns the index of the first name not in the dataset list: every earlier name is listed, and the name there is not. |
| Database.NewData | marcia/database.py:12-22 | A listed name becomes a one-element list. A list whose names are all listed is kept. Otherwise the first unlisted name fails the assertion, and any other argument type raises TypeError. |
| Database.GetLoader | marcia/database.py:61-79 | Each listed name selects its own loader. `GR` needs `file`, and `GRB` needs `Lambda`, `b` and `sigma_sys`; the values are passed through. A missing key fails that branch's assertion, naming the keys. Unlisted names raise ValueError. |
| Database.GetLoaderRoundTrip | marcia/database.py:61-79 | Every loader is reached through its own name. |
| Database.GetData | marcia/database.py:61-79 | `get_data` returns the selected loader's triple and raises what the dispatch raises. |
| Database.BlockDiagonal | marcia/database.py:25-39 | The block-diagonal matrix is `size x size`, with `size` the total row count. |
| Database.BlockDiagonalPlacement | marcia/database.py:32-37 | Entry `(a, b)` of matrix `k` sits at the row and column totals of the matrices before it. |
| Database.BlockDiagonalZeroOutside | marcia/database.py:27 | Every entry outside the copied blocks is zero. |
| Database.BlocksDisjoint | marcia/database.py:30-37 | No entry lies in two blocks. |
| Database.BlockEntrySnoc | marcia/database.py:33-37 | Copying one more matrix writes it at the running offsets and leaves every other entry alone. |
| Database.CopyInto | marcia/database.py:35 | The slice assignment copies the matrix at the running offsets and leaves the rest of the array as it was. |
| Database.BlockMatrix | marcia/database.py:25-39 | `__block_matrix__` returns exactly the block-diagonal matrix of its inputs. |
| Database.Collect | marcia/database.py:51-55 | Loading succeeds iff every name dispatches, with one triple per name in order. Each triple is well shaped when every loader's is. |
| Database.CollectFirstError | marcia/database.py:51-52 | The call raises the error of the first name that fails to dispatch. |
| Database.Load | marcia/database.py:48-55 | The loop collects the x, y and covariance of every name in order, or stops with the first error. |
| Database.Joined | marcia/database.py:56-58 | Joining fails iff nothing was loaded. Otherwise the joined triple is well shaped. |
| Database.ConcatAt | marcia/database.py:56-57 | `np.concatenate` puts element `a` of part `k` after the lengths of the parts before it. |
| Database.JoinedAligned | marcia/database.py:56-58 | Dataset `k`'s values land at the same offset in x, in y and on both axes of the joint covariance. |
| Database.Call | marcia/database.py:41-59 | The call returns the joined triple of the loaded datasets, or the first error. |

## Left out

- Parsing `GPconfig.ini` is left out. `Kernels.Settings` is the parsed record: `n_Tasks`, each task's `nus` entry and length-scale bounds, and `n_points`. `Kernels.NewKernels` requires one entry per task. `Kernels.GPConfig` is the same record after every smoothness has been resolved.
- Kernels.NewKernels: it reports an unsupported smoothness label even when `n_points` is 0. In that case the source evaluates no integrand and would not raise there.
- Kernels.Configure: of the interpolator's checks at line 142, only the repeated length-scale points of `l_min == l_max` are modelled. The tau axis `np.linspace(-10, 10, n)` is always strictly ascending.
- Basis.GMDefAsWritten: for a label other than `'0.0'`, line 113 first calls the compiled backend `kernel.gMdef` with the label. The model assumes the backend accepts its argument, so NameError for `_spgamma_` is the error raised; the backend is not modelled.
- `clight`, `models`, `self_scale` and `ndata` (lines 31-50) are stored but never read by the modelled code.
- `self.nu1` and `self.nu2` are instance state in the source. The model passes task `i`'s and task `j`'s smoothness to the integrand directly.
- The integrand unpacks the tuple as `tau, l1, l2`, while `KcMM` builds it in `(tau, l2, l1)` order. The model keeps the source's order, so the second coordinate goes with the first task's smoothness.
- Basis.Integrand: `quad`'s error estimate is dropped, and the quadrature is an opaque function of the integrand.
- Basis.IntegrandExchange: the invariance of an integral over the whole line under `u -> tau - u` is a premise (`Basis.ReflectionInvariant`) rather than a proved fact, because `quad` is opaque.
- Special functions, float division (inf/nan), `np.exp`, `np.sqrt`, powers and the compiled backend are opaque parameters; floats are modelled as reals.
- `pool.map` is modelled as a sequential in-order map. Process parallelism is not modelled.
- The dead store `np.zeros` at line 137 has no effect and is not modelled.
- `RegularGridInterpolator` is modelled by the data it is built from, `KernelGrid.RegularGrid`. Its query is an opaque caller-supplied function applied to one lag at a time. As written, every query at line 89 raises, because it passes a two-element point `[pars[i,1]*pars[j,1], data_tau]` to a three-axis interpolator.
- Line 79 applies `np.transpose` to an interpolator object. That gives a 0-d object array, which cannot be called. Even with line 78 corrected, every `i > j` query at line 89 would therefore raise TypeError. The model does not represent that object; the corrected construction reuses the `(j, i)` grid for `(i, j)` instead.
- Kernels.AsWrittenPairLoop: it follows only the dictionary keys and assumes every grid build returns. As written, a task whose smoothness is 5/2, a general number or a label other than `'0.0'` makes `gMdef` raise NameError inside `pool.map`. That happens at pair `(0, 0)` or `(0, k)`, before line 78 is reached.
- Kernels.Kernels.Call: parameter rows beyond the number of tasks are ignored, as the source ignores them. The parameters are modelled as a sequence of `(amplitude, lengthScale)` rows.
- The commented-out code from line 146 of `kernels.py` is not modelled.
- The loaders `get_cosmic_clocks` … `get_QSA` (`database.py` lines 81-155) read text files. They are one caller-supplied function from the selected loader to its triple, required to return well-shaped triples (`Database.ShapedLoader`).
- Database.NewData: a list is modelled as a sequence of strings. A list holding non-string elements fails the same membership assertion.
- Database.BlockMatrix: requires total columns not to exceed total rows. With more columns the slice assignment raises a broadcast error, which is not modelled; `__call__` only passes square covariances.
- Kernels.EvenInLag: symmetry of the assembled matrix assumes the query is even in the lag. A positive semi-definite result and unit self-covariance cannot be shown with opaque numerics.

## Findings

| source | as written | input that shows it | evidently intended | confidence | as-written member | corrected member |
|---|---|---|---|---|---|---|
| marcia/Archive/kernels.py:78 | for `i > j` it reads `data_tau['t_{i}{j}']`, which has not been stored yet | two tasks with smoothness `'0.0'`: pair `(1, 0)` raises KeyError(`t_10`) | store pair `(i, j)`'s lag matrix from pair `(j, i)`'s | not executed | Kernels.AsWrittenRaises | Kernels.Kernels.Init |
| marcia/Archive/kernels.py:74 | string keys `f't_{i}{j}'` | twelve tasks, once line 78 is corrected: pairs `(1, 11)` and `(11, 1)` share `t_111` | one slot per task pair | not executed | Kernels.KeyCollision | Kernels.Kernels.Init |
| marcia/Archive/kernels.py:109 | `_spkv_` and `_spgamma_` called without `self.` | nu = 5/2 raises NameError | call the helper methods | not executed | Basis.GMDefAsWrittenFails52 | Basis.GMDef |
| marcia/Archive/kernels.py:124 | `_spgamma_` called without `self.` | any numeric nu raises NameError | call the helper method | not executed | Basis.GDMDefAsWrittenNeverReturns | Basis.GDMDef |
| marcia/Archive/kernels.py:89 | the outer comprehension runs over `j`, so pair `(i, j)` lands in block-row `j` | once lines 78-79 are corrected and each query receives a three-coordinate point, x-arrays of lengths 5 and 7: np.block raises on block-row 0 | block `(i, j)` in block-row `i`, block-column `j` | not executed | Kernels.AsWrittenLayoutFails | Kernels.Evaluate |
