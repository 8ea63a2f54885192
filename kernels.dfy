/**
 * The multi-task covariance assembler `Kernels` (marcia/Archive/kernels.py):
 * construction walks every ordered task pair, building a kernel grid and a lag
 * matrix for `i <= j` and mirroring them for `i > j`; a call scales and queries
 * the cached grids and joins the blocks with `np.block`.
 *
 * The interpolator query is an opaque caller-supplied function of the grid,
 * the length-scale argument and one lag.
 */
module Kernels {
  import opened Results
  import opened Matrices
  import opened Basis
  import opened KernelGrid

  /** The lag axis of every pair grid is `np.linspace(-10, 10, n_points)`. */
  const TauMin: real := -10.0
  const TauMax: real := 10.0

  /** One task's configuration: its smoothness (`nus[i]`) and length-scale bounds (`Task_{i+1}`). */
  datatype Task = Task(nu: Smoothness, lMin: real, lMax: real)

  /** The configuration entries the constructor reads: `n_Tasks`, one entry per task, `n_points`. */
  datatype GPConfig = GPConfig(nTasks: nat, tasks: seq<Task>, nPoints: nat) {
    ghost predicate WellFormed() {
      |tasks| == nTasks
    }
  }

  /** One task as the configuration gives it, with `nus[i]` not yet checked. */
  datatype TaskEntry = TaskEntry(nu: Nu, lMin: real, lMax: real)

  /** The configuration as read: `n_Tasks`, one entry per task, `n_points`. */
  datatype Settings = Settings(nTasks: nat, entries: seq<TaskEntry>, nPoints: nat) {
    ghost predicate WellFormed() {
      |entries| == nTasks
    }
  }

  /**
   * A task whose grid builds go through: `gMdef` accepts its smoothness, and its
   * length-scale axis `np.linspace(l_min, l_max, n_points)` is strictly
   * monotone, as `RegularGridInterpolator` demands (repeated points when
   * `l_min == l_max` and there are two or more of them).
   */
  predicate Accepted(e: TaskEntry, nPoints: nat) {
    Resolve(e.nu).Ok? && !(e.lMin == e.lMax && nPoints >= 2)
  }

  /**
   * The first task that is not accepted, or `|entries|`. Row 0 of the pair
   * loop pairs task 0 with every task in turn, so the grid build of pair
   * `(0, k)` for this `k` is the first to raise.
   */
  function FirstRejected(entries: seq<TaskEntry>, nPoints: nat): (k: nat)
    ensures k <= |entries|
    ensures forall q :: 0 <= q < k ==> Accepted(entries[q], nPoints)
    ensures k < |entries| ==> !Accepted(entries[k], nPoints)
  {
    if |entries| == 0 then 0
    else if !Accepted(entries[0], nPoints) then 0
    else 1 + FirstRejected(entries[1..], nPoints)
  }

  /**
   * What the grid build for a rejected task `k` raises: `pool.map` (line 140)
   * runs `gMdef` before the interpolator is built (line 142).
   */
  function Rejection(e: TaskEntry, k: nat): KernelError {
    if Resolve(e.nu).Err? then Unsupported(k, UnsupportedSmoothness) else DegenerateAxis(k)
  }

  /**
   * The configuration with every smoothness resolved, or the error the first
   * failing grid build raises.
   */
  function Configure(s: Settings): (r: Result<GPConfig, KernelError>)
    requires s.WellFormed()
    ensures r.Ok? <==> forall q :: 0 <= q < |s.entries| ==> Accepted(s.entries[q], s.nPoints)
    ensures r.Err? ==>
      var k := FirstRejected(s.entries, s.nPoints);
      k < |s.entries| && r.error == Rejection(s.entries[k], k)
    ensures r.Ok? ==> r.value.WellFormed() && r.value.nTasks == s.nTasks && r.value.nPoints == s.nPoints
    ensures r.Ok? ==> forall q :: 0 <= q < |s.entries| ==>
      Ok(r.value.tasks[q].nu) == Resolve(s.entries[q].nu) && ToNu(r.value.tasks[q].nu) == s.entries[q].nu
      && r.value.tasks[q].lMin == s.entries[q].lMin && r.value.tasks[q].lMax == s.entries[q].lMax
  {
    var k := FirstRejected(s.entries, s.nPoints);
    if k < |s.entries| then Err(Rejection(s.entries[k], k))
    else
      var tasks := seq(|s.entries|, q requires 0 <= q < |s.entries| =>
        Task(Resolve(s.entries[q].nu).value, s.entries[q].lMin, s.entries[q].lMax));
      assert forall q :: 0 <= q < |s.entries| ==> ToNu(tasks[q].nu) == s.entries[q].nu by {
        forall q | 0 <= q < |s.entries| {
          ResolveRoundTrip(s.entries[q].nu);
        }
      }
      Ok(GPConfig(s.nTasks, tasks, s.nPoints))
  }

  /** Row `i` of the parameter matrix: `pars[i, 0]` and `pars[i, 1]`. */
  datatype TaskParams = TaskParams(amplitude: real, lengthScale: real)

  datatype KernelError =
    | DataLengthMismatch(dataLength: nat, kernels: nat)  // ValueError: len(data) != nmodel
    | TooFewParameters                                   // IndexError: fewer parameter rows than tasks
    | Shape(error: ShapeError)                           // np.block raised ValueError
    | KeyError(key: string)                              // a dictionary read before the key was stored
    | Unsupported(task: nat, cause: BasisError)          // gMdef raised inside pool.map on task's smoothness
    | DegenerateAxis(task: nat)                          // ValueError: task's length-scale axis is not strictly monotone

  type Interpolation = (RegularGrid, real, real) -> real

  // ---------------------------------------------------------------------------
  // Lag matrices

  /** `xi[:, None] - xj[None, :]`. */
  function LagMatrix(xi: seq<real>, xj: seq<real>): (m: Matrix)
    ensures m.Valid() && m.rows == |xi| && m.cols == |xj|
    ensures forall a, b :: 0 <= a < |xi| && 0 <= b < |xj| ==> m.at[a][b] == xi[a] - xj[b]
  {
    Matrix(|xi|, |xj|, seq(|xi|, a requires 0 <= a < |xi| => seq(|xj|, b requires 0 <= b < |xj| => xi[a] - xj[b])))
  }

  function Negate(m: Matrix): (r: Matrix)
    requires m.Valid()
    ensures r.Valid() && r.rows == m.rows && r.cols == m.cols
    ensures forall a, b :: 0 <= a < m.rows && 0 <= b < m.cols ==> r.at[a][b] == -m.at[a][b]
  {
    Matrix(m.rows, m.cols, seq(m.rows, a requires 0 <= a < m.rows => seq(m.cols, b requires 0 <= b < m.cols => -m.at[a][b])))
  }

  /** The lag matrix of the swapped pair is the negated transpose, so it need not be recomputed. */
  lemma LagAntisymmetric(xi: seq<real>, xj: seq<real>)
    ensures LagMatrix(xj, xi) == Negate(Transpose(LagMatrix(xi, xj)))
  {
    MatrixExt(LagMatrix(xj, xi), Negate(Transpose(LagMatrix(xi, xj))));
  }

  // ---------------------------------------------------------------------------
  // Pair grids

  function TauAxis(cfg: GPConfig): (r: seq<real>)
    ensures |r| == cfg.nPoints
  {
    Linspace(TauMin, TauMax, cfg.nPoints)
  }

  /** `np.linspace(l_min, l_max, n_points)` for task `i`. */
  function LengthAxis(cfg: GPConfig, i: nat): (r: seq<real>)
    requires i < |cfg.tasks|
    ensures |r| == cfg.nPoints
  {
    Linspace(cfg.tasks[i].lMin, cfg.tasks[i].lMax, cfg.nPoints)
  }

  /** `gMMdef_integrand` with `self.nu1 = nus[i]` and `self.nu2 = nus[j]`. */
  function PairIntegrand(num: Numerics, cfg: GPConfig, i: nat, j: nat): ((real, real, real)) -> real
    requires i < |cfg.tasks| && j < |cfg.tasks|
  {
    p => Integrand(num, cfg.tasks[i].nu, cfg.tasks[j].nu, p)
  }

  /**
   * What the tables hold for ordered pair `(i, j)` apart from its grid: its own
   * lag matrix and, for `i > j`, the grid of pair `(j, i)` reused.
   */
  ghost predicate PairLinked(data: seq<seq<real>>, covMat: map<(nat, nat), RegularGrid>,
                             dataTau: map<(nat, nat), Matrix>, i: nat, j: nat)
    requires i < |data| && j < |data|
  {
    && (i, j) in covMat && (i, j) in dataTau
    && dataTau[(i, j)] == LagMatrix(data[i], data[j])
    && (i > j ==> (j, i) in covMat && covMat[(i, j)] == covMat[(j, i)])
  }

  /** The grid stored for ordered pair `(i, j)` is the one `KcMM` builds for the pair in `i <= j` order. */
  ghost predicate PairBuilt(num: Numerics, cfg: GPConfig, covMat: map<(nat, nat), RegularGrid>, i: nat, j: nat)
    requires cfg.WellFormed() && i < cfg.nTasks && j < cfg.nTasks
  {
    && (i, j) in covMat
    && var (p, q) := if i <= j then (i, j) else (j, i);
       GridOf(covMat[(i, j)], PairIntegrand(num, cfg, p, q), TauAxis(cfg), LengthAxis(cfg, q), LengthAxis(cfg, p))
  }

  /**
   * The tables once construction is over: every ordered pair is linked and
   * built. The two halves are kept as separate quantifiers, so that facts about
   * the lag matrices never unfold the grids.
   */
  ghost predicate Tables(num: Numerics, cfg: GPConfig, data: seq<seq<real>>,
                         covMat: map<(nat, nat), RegularGrid>, dataTau: map<(nat, nat), Matrix>)
    requires cfg.WellFormed() && |data| == cfg.nTasks
  {
    && (forall i, j :: 0 <= i < cfg.nTasks && 0 <= j < cfg.nTasks ==> PairLinked(data, covMat, dataTau, i, j))
    && (forall i, j :: 0 <= i < cfg.nTasks && 0 <= j < cfg.nTasks ==> PairBuilt(num, cfg, covMat, i, j))
  }

  /** For `i <= j` the grid's axes span task `i`'s and task `j`'s bounds and the lag domain, and hold the integrand. */
  lemma PairGrid(num: Numerics, cfg: GPConfig, data: seq<seq<real>>,
                 covMat: map<(nat, nat), RegularGrid>, dataTau: map<(nat, nat), Matrix>, i: nat, j: nat)
    requires cfg.WellFormed() && |data| == cfg.nTasks && Tables(num, cfg, data, covMat, dataTau)
    requires i <= j < cfg.nTasks
    ensures (i, j) in covMat
    ensures var g := covMat[(i, j)];
      && |g.tauAxis| == |g.l2Axis| == |g.l1Axis| == cfg.nPoints
      && (cfg.nPoints > 0 ==> g.tauAxis[0] == TauMin && g.l2Axis[0] == cfg.tasks[j].lMin && g.l1Axis[0] == cfg.tasks[i].lMin)
      && (cfg.nPoints > 1 ==> g.tauAxis[cfg.nPoints - 1] == TauMax && g.l2Axis[cfg.nPoints - 1] == cfg.tasks[j].lMax
                               && g.l1Axis[cfg.nPoints - 1] == cfg.tasks[i].lMax)
      && Shaped3(g.values, cfg.nPoints, cfg.nPoints, cfg.nPoints)
      && forall t, b, c :: 0 <= t < cfg.nPoints && 0 <= b < cfg.nPoints && 0 <= c < cfg.nPoints ==>
           g.values[t][b][c] == Integrand(num, cfg.tasks[i].nu, cfg.tasks[j].nu, (g.tauAxis[t], g.l2Axis[b], g.l1Axis[c]))
  {
    assert PairBuilt(num, cfg, covMat, i, j);
    var g, f := covMat[(i, j)], PairIntegrand(num, cfg, i, j);
    assert GridOf(g, f, TauAxis(cfg), LengthAxis(cfg, j), LengthAxis(cfg, i));
    forall t, b, c | 0 <= t < cfg.nPoints && 0 <= b < cfg.nPoints && 0 <= c < cfg.nPoints
      ensures g.values[t][b][c] == Integrand(num, cfg.tasks[i].nu, cfg.tasks[j].nu, (g.tauAxis[t], g.l2Axis[b], g.l1Axis[c]))
    {
      assert g.values[t][b][c] == f((g.tauAxis[t], g.l2Axis[b], g.l1Axis[c]));
    }
  }

  // ---------------------------------------------------------------------------
  // Which pairs get a grid

  /** The pairs of row `i` over columns `0 .. j-1` that get a grid: those with `i <= column`. */
  function RowBuilds(i: nat, j: nat): set<(nat, nat)> {
    if j == 0 then {} else RowBuilds(i, j - 1) + (if i <= j - 1 then {(i, j - 1)} else {})
  }

  /** The pairs of rows `0 .. i-1` of an `n x n` pair loop that get a grid. */
  function Triangle(n: nat, i: nat): set<(nat, nat)> {
    if i == 0 then {} else Triangle(n, i - 1) + RowBuilds(i - 1, n)
  }

  /** The number of grids row `i` builds over columns `0 .. j-1`. */
  function RowCount(i: nat, j: nat): nat {
    if j <= i then 0 else j - i
  }

  /** The number of grids rows `0 .. i-1` of an `n x n` pair loop build. */
  function TriangleCount(n: nat, i: nat): nat {
    if i == 0 then 0 else TriangleCount(n, i - 1) + RowCount(i - 1, n)
  }

  lemma {:induction false} RowBuildsMembers(i: nat, j: nat, p: nat, q: nat)
    ensures (p, q) in RowBuilds(i, j) <==> p == i && i <= q < j
  {
    if j > 0 {
      RowBuildsMembers(i, j - 1, p, q);
    }
  }

  /** Exactly the pairs `i <= j` get a grid. */
  lemma {:induction false} TriangleMembers(n: nat, i: nat, p: nat, q: nat)
    requires i <= n
    ensures (p, q) in Triangle(n, i) <==> p < i && p <= q < n
  {
    if i > 0 {
      TriangleMembers(n, i - 1, p, q);
      RowBuildsMembers(i - 1, n, p, q);
    }
  }

  lemma {:induction false} TriangleCountClosed(n: nat, i: nat)
    requires i <= n
    ensures 2 * TriangleCount(n, i) == i * (2 * n - i + 1)
  {
    if i > 0 {
      TriangleCountClosed(n, i - 1);
      assert i * (2 * n - i + 1) == (i - 1) * (2 * n - (i - 1) + 1) + 2 * (n - (i - 1));
    }
  }

  /** `n (n + 1) / 2` grids are built for `n` tasks. */
  lemma BuildCount(n: nat)
    ensures TriangleCount(n, n) == n * (n + 1) / 2
  {
    TriangleCountClosed(n, n);
  }

  // ---------------------------------------------------------------------------
  // Covariance assembly (`__call__`)

  /** Every pair below `n` has a grid and a valid lag matrix. */
  ghost predicate Indexed(covMat: map<(nat, nat), RegularGrid>, dataTau: map<(nat, nat), Matrix>, n: nat) {
    forall i, j :: 0 <= i < n && 0 <= j < n ==> (i, j) in covMat && (i, j) in dataTau && dataTau[(i, j)].Valid()
  }

  /** `pars[i,0] * pars[j,0] * CovMat[t_ij]([pars[i,1] * pars[j,1], data_tau[t_ij]])`, the query taken entrywise. */
  function Block(covMat: map<(nat, nat), RegularGrid>, dataTau: map<(nat, nat), Matrix>,
                 pars: seq<TaskParams>, query: Interpolation, i: nat, j: nat): (m: Matrix)
    requires (i, j) in covMat && (i, j) in dataTau && dataTau[(i, j)].Valid() && i < |pars| && j < |pars|
    ensures m.Valid() && m.rows == dataTau[(i, j)].rows && m.cols == dataTau[(i, j)].cols
  {
    var lag := dataTau[(i, j)];
    var scale := pars[i].amplitude * pars[j].amplitude;
    var ls := pars[i].lengthScale * pars[j].lengthScale;
    Matrix(lag.rows, lag.cols,
      seq(lag.rows, a requires 0 <= a < lag.rows =>
        seq(lag.cols, b requires 0 <= b < lag.cols => scale * query(covMat[(i, j)], ls, lag.at[a][b]))))
  }

  /** Block-row `i`, block-column `j` holds pair `(i, j)`. */
  function Blocks(covMat: map<(nat, nat), RegularGrid>, dataTau: map<(nat, nat), Matrix>, n: nat,
                  pars: seq<TaskParams>, query: Interpolation): (bs: seq<seq<Matrix>>)
    requires Indexed(covMat, dataTau, n) && n <= |pars|
    ensures AllBlocksValid(bs)
  {
    var bs := seq(n, i requires 0 <= i < n => seq(n, j requires 0 <= j < n => Block(covMat, dataTau, pars, query, i, j)));
    assert forall i, j :: 0 <= i < n && 0 <= j < n ==> bs[i][j].Valid();
    bs
  }

  /** Line 89 as written: the outer comprehension runs over `j`, so block-row `j`, block-column `i` holds pair `(i, j)`. */
  function BlocksAsWritten(covMat: map<(nat, nat), RegularGrid>, dataTau: map<(nat, nat), Matrix>, n: nat,
                           pars: seq<TaskParams>, query: Interpolation): (bs: seq<seq<Matrix>>)
    requires Indexed(covMat, dataTau, n) && n <= |pars|
    ensures AllBlocksValid(bs)
  {
    var bs := seq(n, j requires 0 <= j < n => seq(n, i requires 0 <= i < n => Block(covMat, dataTau, pars, query, i, j)));
    assert forall j, i :: 0 <= j < n && 0 <= i < n ==> bs[j][i].Valid();
    bs
  }

  function ShapeResult(r: Result<Matrix, ShapeError>): (k: Result<Matrix, KernelError>)
    ensures k.Ok? <==> r.Ok?
    ensures r.Ok? ==> k.value == r.value
    ensures r.Err? ==> k.error == Shape(r.error)
  {
    match r
    case Ok(m) => Ok(m)
    case Err(e) => Err(Shape(e))
  }

  /** `__call__` with block `(i, j)` in block-row `i`, block-column `j`. */
  function Evaluate(covMat: map<(nat, nat), RegularGrid>, dataTau: map<(nat, nat), Matrix>, n: nat,
                    pars: seq<TaskParams>, query: Interpolation): (r: Result<Matrix, KernelError>)
    requires Indexed(covMat, dataTau, n)
    ensures r == Err(TooFewParameters) <==> |pars| < n
    ensures n == 0 ==> r == Err(Shape(EmptyList))
    ensures r.Ok? ==> r.value.Valid()
  {
    if |pars| < n then Err(TooFewParameters)
    else ShapeResult(NpBlock(Blocks(covMat, dataTau, n, pars, query)))
  }

  /** `__call__` as written at line 89. */
  function EvaluateAsWritten(covMat: map<(nat, nat), RegularGrid>, dataTau: map<(nat, nat), Matrix>, n: nat,
                             pars: seq<TaskParams>, query: Interpolation): (r: Result<Matrix, KernelError>)
    requires Indexed(covMat, dataTau, n)
    ensures r == Err(TooFewParameters) <==> |pars| < n
    ensures n == 0 ==> r == Err(Shape(EmptyList))
    ensures r.Ok? ==> r.value.Valid()
  {
    if |pars| < n then Err(TooFewParameters)
    else ShapeResult(NpBlock(BlocksAsWritten(covMat, dataTau, n, pars, query)))
  }

  /** Every ordered pair below `|data|` has a grid and the lag matrix of its two tasks. */
  ghost predicate Lagged(covMat: map<(nat, nat), RegularGrid>, dataTau: map<(nat, nat), Matrix>, data: seq<seq<real>>) {
    forall i, j :: 0 <= i < |data| && 0 <= j < |data| ==>
      (i, j) in covMat && (i, j) in dataTau && dataTau[(i, j)] == LagMatrix(data[i], data[j])
  }

  /** Both orientations of a pair share one grid. */
  ghost predicate Mirrored(covMat: map<(nat, nat), RegularGrid>, n: nat) {
    forall i, j :: 0 <= i < n && 0 <= j < n ==> (i, j) in covMat && (j, i) in covMat && covMat[(i, j)] == covMat[(j, i)]
  }

  function Lengths(data: seq<seq<real>>): (ls: seq<nat>)
    ensures |ls| == |data| && forall i :: 0 <= i < |data| ==> ls[i] == |data[i]|
  {
    seq(|data|, i requires 0 <= i < |data| => |data[i]|)
  }

  /** Offset of task `i`'s rows and columns: the number of observations before it. */
  function Offset(data: seq<seq<real>>, i: nat): nat
    requires i <= |data|
  {
    Sum(Lengths(data)[..i])
  }

  lemma LaggedIndexed(covMat: map<(nat, nat), RegularGrid>, dataTau: map<(nat, nat), Matrix>, data: seq<seq<real>>)
    requires Lagged(covMat, dataTau, data)
    ensures Indexed(covMat, dataTau, |data|)
  {
  }

  /** The scaled query pair `(i, j)` yields for observations `a` of task `i` and `b` of task `j`. */
  function Entry(covMat: map<(nat, nat), RegularGrid>, data: seq<seq<real>>,
                 pars: seq<TaskParams>, query: Interpolation, i: nat, j: nat, a: nat, b: nat): real
    requires (i, j) in covMat && i < |data| && j < |data| && i < |pars| && j < |pars| && a < |data[i]| && b < |data[j]|
  {
    pars[i].amplitude * pars[j].amplitude * query(covMat[(i, j)], pars[i].lengthScale * pars[j].lengthScale, data[i][a] - data[j][b])
  }

  lemma BlockAt(covMat: map<(nat, nat), RegularGrid>, dataTau: map<(nat, nat), Matrix>, data: seq<seq<real>>,
                pars: seq<TaskParams>, query: Interpolation, i: nat, j: nat, a: nat, b: nat)
    requires Lagged(covMat, dataTau, data) && |data| <= |pars|
    requires i < |data| && j < |data| && a < |data[i]| && b < |data[j]|
    ensures Indexed(covMat, dataTau, |data|)
    ensures Blocks(covMat, dataTau, |data|, pars, query)[i][j] == Block(covMat, dataTau, pars, query, i, j)
    ensures BlocksAsWritten(covMat, dataTau, |data|, pars, query)[j][i] == Block(covMat, dataTau, pars, query, i, j)
    ensures a < Block(covMat, dataTau, pars, query, i, j).rows && b < Block(covMat, dataTau, pars, query, i, j).cols
    ensures Block(covMat, dataTau, pars, query, i, j).at[a][b] == Entry(covMat, data, pars, query, i, j, a, b)
  {
    LaggedIndexed(covMat, dataTau, data);
    assert dataTau[(i, j)] == LagMatrix(data[i], data[j]);
  }

  lemma BlocksShaped(covMat: map<(nat, nat), RegularGrid>, dataTau: map<(nat, nat), Matrix>, data: seq<seq<real>>,
                     pars: seq<TaskParams>, query: Interpolation)
    requires Lagged(covMat, dataTau, data) && 0 < |data| <= |pars|
    ensures Indexed(covMat, dataTau, |data|)
    ensures GridShaped(Blocks(covMat, dataTau, |data|, pars, query), Lengths(data), Lengths(data))
  {
    var n := |data|;
    var bs: seq<seq<Matrix>> := Blocks(covMat, dataTau, n, pars, query);
    var ls := Lengths(data);
    forall p, q | 0 <= p < n && 0 <= q < n
      ensures bs[p][q].Valid() && bs[p][q].rows == ls[p] && bs[p][q].cols == ls[q]
    {
      assert dataTau[(p, q)] == LagMatrix(data[p], data[q]);
    }
  }

  lemma BlocksAsWrittenShaped(covMat: map<(nat, nat), RegularGrid>, dataTau: map<(nat, nat), Matrix>, data: seq<seq<real>>,
                              pars: seq<TaskParams>, query: Interpolation)
    requires Lagged(covMat, dataTau, data) && 0 < |data| <= |pars|
    requires forall k :: 0 <= k < |data| ==> |data[k]| == |data[0]|
    ensures Indexed(covMat, dataTau, |data|)
    ensures GridShaped(BlocksAsWritten(covMat, dataTau, |data|, pars, query), Lengths(data), Lengths(data))
  {
    var n := |data|;
    var bs: seq<seq<Matrix>> := BlocksAsWritten(covMat, dataTau, n, pars, query);
    var ls := Lengths(data);
    forall p, q | 0 <= p < n && 0 <= q < n
      ensures bs[p][q].Valid() && bs[p][q].rows == ls[p] && bs[p][q].cols == ls[q]
    {
      assert dataTau[(q, p)] == LagMatrix(data[q], data[p]);
    }
  }

  /**
   * The assembled matrix is `N x N` for `N` the total number of observations,
   * and entry `(a, b)` of pair `(i, j)` sits at row `Offset(i) + a`, column
   * `Offset(j) + b`, holding the scaled query at the lag `data[i][a] - data[j][b]`.
   */
  lemma EvaluateAt(covMat: map<(nat, nat), RegularGrid>, dataTau: map<(nat, nat), Matrix>, data: seq<seq<real>>,
                   pars: seq<TaskParams>, query: Interpolation, i: nat, j: nat, a: nat, b: nat)
    requires Lagged(covMat, dataTau, data) && |data| <= |pars|
    requires i < |data| && j < |data| && a < |data[i]| && b < |data[j]|
    ensures Indexed(covMat, dataTau, |data|)
    ensures Evaluate(covMat, dataTau, |data|, pars, query).Ok?
    ensures var m := Evaluate(covMat, dataTau, |data|, pars, query).value;
      && m.rows == Sum(Lengths(data)) && m.cols == Sum(Lengths(data))
      && Offset(data, i) + a < m.rows && Offset(data, j) + b < m.cols
      && m.at[Offset(data, i) + a][Offset(data, j) + b] == Entry(covMat, data, pars, query, i, j, a, b)
  {
    BlocksShaped(covMat, dataTau, data, pars, query);
    var bs := Blocks(covMat, dataTau, |data|, pars, query);
    NpBlockGridAt(bs, Lengths(data), Lengths(data), i, j, a, b);
    BlockAt(covMat, dataTau, data, pars, query, i, j, a, b);
    var m := NpBlock(bs).value;
    assert Evaluate(covMat, dataTau, |data|, pars, query) == Ok(m);
    var r, c := Offset(data, i) + a, Offset(data, j) + b;
    assert r == Sum(Lengths(data)[..i]) + a && c == Sum(Lengths(data)[..j]) + b;
    calc {
      m.at[r][c];
      bs[i][j].at[a][b];
      Block(covMat, dataTau, pars, query, i, j).at[a][b];
      Entry(covMat, data, pars, query, i, j, a, b);
    }
  }

  /** A query that ignores the sign of the lag, as a stationary kernel does. */
  ghost predicate EvenInLag(query: Interpolation) {
    forall g, s, x, y :: y == -x ==> query(g, s, y) == query(g, s, x)
  }

  /**
   * With both orientations of a pair sharing one grid and a query even in the
   * lag, the assembled matrix is symmetric: block `(j, i)` is the transpose of
   * block `(i, j)`.
   */
  lemma EvaluateSymmetric(covMat: map<(nat, nat), RegularGrid>, dataTau: map<(nat, nat), Matrix>, data: seq<seq<real>>,
                          pars: seq<TaskParams>, query: Interpolation, i: nat, j: nat, a: nat, b: nat)
    requires Lagged(covMat, dataTau, data) && Mirrored(covMat, |data|) && EvenInLag(query) && |data| <= |pars|
    requires i < |data| && j < |data| && a < |data[i]| && b < |data[j]|
    ensures Indexed(covMat, dataTau, |data|)
    ensures Evaluate(covMat, dataTau, |data|, pars, query).Ok?
    ensures var m := Evaluate(covMat, dataTau, |data|, pars, query).value;
      && m.rows == m.cols == Sum(Lengths(data))
      && Offset(data, i) + a < m.rows && Offset(data, j) + b < m.cols
      && Offset(data, j) + b < m.rows && Offset(data, i) + a < m.cols
      && m.at[Offset(data, i) + a][Offset(data, j) + b] == m.at[Offset(data, j) + b][Offset(data, i) + a]
  {
    EvaluateAt(covMat, dataTau, data, pars, query, i, j, a, b);
    EvaluateAt(covMat, dataTau, data, pars, query, j, i, b, a);
    SwappedEntry(covMat, data, pars, query, i, j, a, b);
  }

  lemma SwappedEntry(covMat: map<(nat, nat), RegularGrid>, data: seq<seq<real>>,
                     pars: seq<TaskParams>, query: Interpolation, i: nat, j: nat, a: nat, b: nat)
    requires Mirrored(covMat, |data|) && EvenInLag(query) && |data| <= |pars|
    requires i < |data| && j < |data| && a < |data[i]| && b < |data[j]|
    ensures (i, j) in covMat && (j, i) in covMat
    ensures Entry(covMat, data, pars, query, j, i, b, a) == Entry(covMat, data, pars, query, i, j, a, b)
  {
    var lag := data[i][a] - data[j][b];
    assert data[j][b] - data[i][a] == -lag;
    assert pars[j].lengthScale * pars[i].lengthScale == pars[i].lengthScale * pars[j].lengthScale;
    assert pars[j].amplitude * pars[i].amplitude == pars[i].amplitude * pars[j].amplitude;
  }

  /**
   * As written, block-row 0 holds pairs `(0, 0)` and `(1, 0)`, of `len(data[0])`
   * and `len(data[1])` rows: np.block refuses them when the two differ, while
   * the intended layout assembles.
   */
  lemma AsWrittenLayoutFails(covMat: map<(nat, nat), RegularGrid>, dataTau: map<(nat, nat), Matrix>, data: seq<seq<real>>,
                             pars: seq<TaskParams>, query: Interpolation)
    requires Lagged(covMat, dataTau, data) && |data| <= |pars|
    requires |data| >= 2 && |data[0]| != |data[1]|
    ensures Indexed(covMat, dataTau, |data|)
    ensures EvaluateAsWritten(covMat, dataTau, |data|, pars, query).Err?
    ensures Evaluate(covMat, dataTau, |data|, pars, query).Ok?
  {
    LaggedIndexed(covMat, dataTau, data);
    var bs := BlocksAsWritten(covMat, dataTau, |data|, pars, query);
    assert dataTau[(0, 0)] == LagMatrix(data[0], data[0]);
    assert dataTau[(1, 0)] == LagMatrix(data[1], data[0]);
    NpBlockRowMismatch(bs, 0, 1);
    if |data[0]| > 0 {
      EvaluateAt(covMat, dataTau, data, pars, query, 0, 0, 0, 0);
    } else {
      EvaluateAt(covMat, dataTau, data, pars, query, 1, 1, 0, 0);
    }
  }

  /**
   * With equally long observation arrays the as-written layout assembles, with
   * pair `(i, j)` transposed into block-row `j`, block-column `i`.
   */
  lemma AsWrittenLayoutAt(covMat: map<(nat, nat), RegularGrid>, dataTau: map<(nat, nat), Matrix>, data: seq<seq<real>>,
                          pars: seq<TaskParams>, query: Interpolation, i: nat, j: nat, a: nat, b: nat)
    requires Lagged(covMat, dataTau, data) && |data| <= |pars|
    requires forall k :: 0 <= k < |data| ==> |data[k]| == |data[0]|
    requires i < |data| && j < |data| && a < |data[i]| && b < |data[j]|
    ensures Indexed(covMat, dataTau, |data|)
    ensures EvaluateAsWritten(covMat, dataTau, |data|, pars, query).Ok?
    ensures var m := EvaluateAsWritten(covMat, dataTau, |data|, pars, query).value;
      && Offset(data, j) + a < m.rows && Offset(data, i) + b < m.cols
      && m.at[Offset(data, j) + a][Offset(data, i) + b] == Entry(covMat, data, pars, query, i, j, a, b)
  {
    BlocksAsWrittenShaped(covMat, dataTau, data, pars, query);
    var bs := BlocksAsWritten(covMat, dataTau, |data|, pars, query);
    NpBlockGridAt(bs, Lengths(data), Lengths(data), j, i, a, b);
    BlockAt(covMat, dataTau, data, pars, query, i, j, a, b);
    assert EvaluateAsWritten(covMat, dataTau, |data|, pars, query) == Ok(NpBlock(bs).value);
    assert Offset(data, i) == Sum(Lengths(data)[..i]) && Offset(data, j) == Sum(Lengths(data)[..j]);
  }

  /** The keys of a table are exactly the pairs of rows `0 .. i-1`, and of row `i` up to column `j`. */
  ghost predicate KeysUpTo<V>(m: map<(nat, nat), V>, n: nat, i: nat, j: nat) {
    forall k :: k in m <==> k.0 < n && k.1 < n && (k.0 < i || (k.0 == i && k.1 < j))
  }

  /** Once every row is done, a table holds exactly the pairs of tasks. */
  lemma KeysComplete<V>(m: map<(nat, nat), V>, n: nat)
    requires KeysUpTo(m, n, n, 0)
    ensures forall k :: k in m <==> k.0 < n && k.1 < n
  {
  }

  /** Pairs of rows `0 .. i-1`, and of row `i` up to column `j`, are ready. */
  ghost predicate ReadyUpTo(num: Numerics, cfg: GPConfig, data: seq<seq<real>>,
                            covMat: map<(nat, nat), RegularGrid>, dataTau: map<(nat, nat), Matrix>, i: nat, j: nat)
    requires cfg.WellFormed() && |data| == cfg.nTasks
  {
    LinkedUpTo(data, covMat, dataTau, i, j) && BuiltUpTo(num, cfg, covMat, i, j)
  }

  ghost predicate LinkedUpTo(data: seq<seq<real>>, covMat: map<(nat, nat), RegularGrid>,
                             dataTau: map<(nat, nat), Matrix>, i: nat, j: nat)
  {
    forall p, q :: 0 <= p < |data| && 0 <= q < |data| && (p < i || (p == i && q < j)) ==>
      PairLinked(data, covMat, dataTau, p, q)
  }

  ghost predicate BuiltUpTo(num: Numerics, cfg: GPConfig, covMat: map<(nat, nat), RegularGrid>, i: nat, j: nat)
    requires cfg.WellFormed()
  {
    forall p, q :: 0 <= p < cfg.nTasks && 0 <= q < cfg.nTasks && (p < i || (p == i && q < j)) ==>
      PairBuilt(num, cfg, covMat, p, q)
  }

  lemma NextRow(num: Numerics, cfg: GPConfig, data: seq<seq<real>>,
                covMat: map<(nat, nat), RegularGrid>, dataTau: map<(nat, nat), Matrix>, i: nat)
    requires cfg.WellFormed() && |data| == cfg.nTasks
    requires ReadyUpTo(num, cfg, data, covMat, dataTau, i, cfg.nTasks)
    ensures ReadyUpTo(num, cfg, data, covMat, dataTau, i + 1, 0)
  {
  }

  lemma AllRowsReady(num: Numerics, cfg: GPConfig, data: seq<seq<real>>,
                     covMat: map<(nat, nat), RegularGrid>, dataTau: map<(nat, nat), Matrix>)
    requires cfg.WellFormed() && |data| == cfg.nTasks
    requires ReadyUpTo(num, cfg, data, covMat, dataTau, cfg.nTasks, 0)
    ensures Tables(num, cfg, data, covMat, dataTau)
  {
  }

  /** A pair stays linked when the entries it depends on are left alone. */
  lemma LinkedFrame(data: seq<seq<real>>, c1: map<(nat, nat), RegularGrid>, d1: map<(nat, nat), Matrix>,
                    c2: map<(nat, nat), RegularGrid>, d2: map<(nat, nat), Matrix>, p: nat, q: nat)
    requires p < |data| && q < |data| && PairLinked(data, c1, d1, p, q)
    requires (p, q) in c2 && c2[(p, q)] == c1[(p, q)] && (p, q) in d2 && d2[(p, q)] == d1[(p, q)]
    requires p > q ==> (q, p) in c2 && c2[(q, p)] == c1[(q, p)]
    ensures PairLinked(data, c2, d2, p, q)
  {
  }

  /** A pair stays built when its grid is left alone. */
  lemma BuiltFrame(num: Numerics, cfg: GPConfig, c1: map<(nat, nat), RegularGrid>, c2: map<(nat, nat), RegularGrid>,
                   p: nat, q: nat)
    requires cfg.WellFormed() && p < cfg.nTasks && q < cfg.nTasks && PairBuilt(num, cfg, c1, p, q)
    requires (p, q) in c2 && c2[(p, q)] == c1[(p, q)]
    ensures PairBuilt(num, cfg, c2, p, q)
  {
  }

  /** Line 75-76: for `i <= j` the new grid and the lag matrix make pair `(i, j)` ready. */
  lemma BuildStep(num: Numerics, cfg: GPConfig, data: seq<seq<real>>,
                  covMat: map<(nat, nat), RegularGrid>, dataTau: map<(nat, nat), Matrix>, i: nat, j: nat, g: RegularGrid)
    requires cfg.WellFormed() && |data| == cfg.nTasks && i <= j < cfg.nTasks
    requires ReadyUpTo(num, cfg, data, covMat, dataTau, i, j)
    requires GridOf(g, PairIntegrand(num, cfg, i, j), TauAxis(cfg), LengthAxis(cfg, j), LengthAxis(cfg, i))
    ensures ReadyUpTo(num, cfg, data, covMat[(i, j) := g], dataTau[(i, j) := LagMatrix(data[i], data[j])], i, j + 1)
  {
    StoreLinked(data, covMat, dataTau, i, j, g, LagMatrix(data[i], data[j]));
    StoreBuilt(num, cfg, covMat, i, j, g);
  }

  /** The mirror for `i > j`: pair `(j, i)`'s grid, and its lag matrix negated and transposed. */
  lemma MirrorStep(num: Numerics, cfg: GPConfig, data: seq<seq<real>>,
                   covMat: map<(nat, nat), RegularGrid>, dataTau: map<(nat, nat), Matrix>, i: nat, j: nat)
    requires cfg.WellFormed() && |data| == cfg.nTasks && j < i < cfg.nTasks
    requires ReadyUpTo(num, cfg, data, covMat, dataTau, i, j)
    ensures (j, i) in covMat && (j, i) in dataTau && dataTau[(j, i)].Valid()
    ensures ReadyUpTo(num, cfg, data, covMat[(i, j) := covMat[(j, i)]],
                      dataTau[(i, j) := Negate(Transpose(dataTau[(j, i)]))], i, j + 1)
  {
    assert PairLinked(data, covMat, dataTau, j, i);
    assert PairBuilt(num, cfg, covMat, j, i);
    LagAntisymmetric(data[j], data[i]);
    StoreLinked(data, covMat, dataTau, i, j, covMat[(j, i)], Negate(Transpose(dataTau[(j, i)])));
    StoreBuilt(num, cfg, covMat, i, j, covMat[(j, i)]);
  }

  /** Storing a grid and a lag matrix that link pair `(i, j)` extends the linked prefix by one pair. */
  lemma StoreLinked(data: seq<seq<real>>, covMat: map<(nat, nat), RegularGrid>, dataTau: map<(nat, nat), Matrix>,
                    i: nat, j: nat, g: RegularGrid, m: Matrix)
    requires i < |data| && j < |data| && LinkedUpTo(data, covMat, dataTau, i, j)
    requires PairLinked(data, covMat[(i, j) := g], dataTau[(i, j) := m], i, j)
    ensures LinkedUpTo(data, covMat[(i, j) := g], dataTau[(i, j) := m], i, j + 1)
  {
    var c2 := covMat[(i, j) := g];
    var d2 := dataTau[(i, j) := m];
    forall p, q | 0 <= p < |data| && 0 <= q < |data| && (p < i || (p == i && q < j + 1)) && (p, q) != (i, j)
      ensures PairLinked(data, c2, d2, p, q)
    {
      LinkedFrame(data, covMat, dataTau, c2, d2, p, q);
    }
  }

  /** Storing a grid that builds pair `(i, j)` extends the built prefix by one pair. */
  lemma StoreBuilt(num: Numerics, cfg: GPConfig, covMat: map<(nat, nat), RegularGrid>, i: nat, j: nat, g: RegularGrid)
    requires cfg.WellFormed() && i < cfg.nTasks && j < cfg.nTasks && BuiltUpTo(num, cfg, covMat, i, j)
    requires PairBuilt(num, cfg, covMat[(i, j) := g], i, j)
    ensures BuiltUpTo(num, cfg, covMat[(i, j) := g], i, j + 1)
  {
    var c2 := covMat[(i, j) := g];
    forall p, q | 0 <= p < cfg.nTasks && 0 <= q < cfg.nTasks && (p < i || (p == i && q < j + 1)) && (p, q) != (i, j)
      ensures PairBuilt(num, cfg, c2, p, q)
    {
      BuiltFrame(num, cfg, covMat, c2, p, q);
    }
  }

  // ---------------------------------------------------------------------------
  // The object

  class Kernels {
    const num: Numerics
    const cfg: GPConfig
    const data: seq<seq<real>>
    /** `self.CovMat`, keyed by the pair of tasks. */
    var covMat: map<(nat, nat), RegularGrid>
    /** `self.data_tau`, keyed by the pair of tasks. */
    var dataTau: map<(nat, nat), Matrix>
    /** `self.CovMat_all`: the last assembled covariance matrix. */
    var covMatAll: Matrix
    /** The pairs a grid was built for. */
    ghost var built: set<(nat, nat)>
    /** How many times `KcMM` was called. */
    ghost var builds: nat

    ghost predicate Valid()
      reads this
    {
      cfg.WellFormed() && |data| == cfg.nTasks && Tables(num, cfg, data, covMat, dataTau)
    }

    /**
     * The pair loop of `__init__`, with the `i > j` branch mirroring pair
     * `(j, i)`: the grid is reused and the lag matrix is its negated transpose.
     */
    constructor Init(num: Numerics, cfg: GPConfig, data: seq<seq<real>>)
      requires cfg.WellFormed() && |data| == cfg.nTasks
      ensures Valid()
      ensures this.num == num && this.cfg == cfg && this.data == data
      ensures built == Triangle(cfg.nTasks, cfg.nTasks)
      ensures builds == cfg.nTasks * (cfg.nTasks + 1) / 2
      ensures covMatAll == Matrix(0, 0, [])
      ensures forall k :: k in covMat <==> k.0 < cfg.nTasks && k.1 < cfg.nTasks
      ensures forall k :: k in dataTau <==> k.0 < cfg.nTasks && k.1 < cfg.nTasks
    {
      this.num := num;
      this.cfg := cfg;
      this.data := data;
      covMat := map[];
      dataTau := map[];
      covMatAll := Matrix(0, 0, []);
      built := {};
      builds := 0;
      new;
      ghost var log, count := FillAll();
      BuildCount(cfg.nTasks);
      built := log;
      builds := count;
    }

    /** The outer loop over `i`, from empty tables; `log` holds the pairs a grid was built for, `count` counts the builds. */
    method FillAll() returns (ghost log: set<(nat, nat)>, ghost count: nat)
      requires cfg.WellFormed() && |data| == cfg.nTasks && covMat == map[] && dataTau == map[]
      modifies this`covMat, this`dataTau
      ensures Tables(num, cfg, data, covMat, dataTau)
      ensures log == Triangle(cfg.nTasks, cfg.nTasks) && count == TriangleCount(cfg.nTasks, cfg.nTasks)
      ensures forall k :: k in covMat <==> k.0 < cfg.nTasks && k.1 < cfg.nTasks
      ensures forall k :: k in dataTau <==> k.0 < cfg.nTasks && k.1 < cfg.nTasks
    {
      var n := cfg.nTasks;
      var taus := TauAxis(cfg);
      log, count := {}, 0;
      for i := 0 to n
        invariant ReadyUpTo(num, cfg, data, covMat, dataTau, i, 0)
        invariant log == Triangle(n, i) && count == TriangleCount(n, i)
        invariant KeysUpTo(covMat, n, i, 0) && KeysUpTo(dataTau, n, i, 0)
      {
        ghost var row, grids := FillRow(i, taus);
        log := log + row;
        count := count + grids;
      }
      AllRowsReady(num, cfg, data, covMat, dataTau);
      KeysComplete(covMat, n);
      KeysComplete(dataTau, n);
    }

    /** One pass of the inner loop over `j` for row `i`; `row` holds the pairs a grid was built for, `grids` counts the builds. */
    method FillRow(i: nat, taus: seq<real>) returns (ghost row: set<(nat, nat)>, ghost grids: nat)
      requires cfg.WellFormed() && |data| == cfg.nTasks && i < cfg.nTasks && taus == TauAxis(cfg)
      requires ReadyUpTo(num, cfg, data, covMat, dataTau, i, 0)
      requires KeysUpTo(covMat, cfg.nTasks, i, 0) && KeysUpTo(dataTau, cfg.nTasks, i, 0)
      modifies this`covMat, this`dataTau
      ensures ReadyUpTo(num, cfg, data, covMat, dataTau, i + 1, 0)
      ensures KeysUpTo(covMat, cfg.nTasks, i + 1, 0) && KeysUpTo(dataTau, cfg.nTasks, i + 1, 0)
      ensures row == RowBuilds(i, cfg.nTasks) && grids == RowCount(i, cfg.nTasks)
    {
      row, grids := {}, 0;
      for j := 0 to cfg.nTasks
        invariant ReadyUpTo(num, cfg, data, covMat, dataTau, i, j)
        invariant row == RowBuilds(i, j) && grids == RowCount(i, j)
        invariant KeysUpTo(covMat, cfg.nTasks, i, j) && KeysUpTo(dataTau, cfg.nTasks, i, j)
      {
        ghost var step, calls := FillPair(i, j, taus);
        row := row + step;
        grids := grids + calls;
      }
      NextRow(num, cfg, data, covMat, dataTau, i);
    }

    /**
     * The body of the pair loop for `(i, j)`: for `i <= j` build the grid and
     * the lag matrix (`step` records the pair, `calls` the `KcMM` call);
     * otherwise mirror pair `(j, i)`.
     */
    method FillPair(i: nat, j: nat, taus: seq<real>) returns (ghost step: set<(nat, nat)>, ghost calls: nat)
      requires cfg.WellFormed() && |data| == cfg.nTasks && i < cfg.nTasks && j < cfg.nTasks && taus == TauAxis(cfg)
      requires ReadyUpTo(num, cfg, data, covMat, dataTau, i, j)
      requires KeysUpTo(covMat, cfg.nTasks, i, j) && KeysUpTo(dataTau, cfg.nTasks, i, j)
      modifies this`covMat, this`dataTau
      ensures ReadyUpTo(num, cfg, data, covMat, dataTau, i, j + 1)
      ensures KeysUpTo(covMat, cfg.nTasks, i, j + 1) && KeysUpTo(dataTau, cfg.nTasks, i, j + 1)
      ensures step == (if i <= j then {(i, j)} else {}) && calls == (if i <= j then 1 else 0)
    {
      if i <= j {
        var g, _ := KcMM(PairIntegrand(num, cfg, i, j), LengthAxis(cfg, i), LengthAxis(cfg, j), taus);
        BuildStep(num, cfg, data, covMat, dataTau, i, j, g);
        covMat := covMat[(i, j) := g];
        dataTau := dataTau[(i, j) := LagMatrix(data[i], data[j])];
        step, calls := {(i, j)}, 1;
      } else {
        MirrorStep(num, cfg, data, covMat, dataTau, i, j);
        dataTau := dataTau[(i, j) := Negate(Transpose(dataTau[(j, i)]))];
        covMat := covMat[(i, j) := covMat[(j, i)]];
        step, calls := {}, 0;
      }
    }

    /** `__call__`: the assembled matrix is also stored in `covMatAll`. */
    method Call(pars: seq<TaskParams>, query: Interpolation) returns (r: Result<Matrix, KernelError>)
      requires Valid()
      modifies this`covMatAll
      ensures Valid() && Indexed(covMat, dataTau, cfg.nTasks)
      ensures r == Evaluate(covMat, dataTau, cfg.nTasks, pars, query)
      ensures r.Ok? ==> covMatAll == r.value
      ensures r.Err? ==> covMatAll == old(covMatAll)
    {
      TablesLagged(num, cfg, data, covMat, dataTau);
      r := Evaluate(covMat, dataTau, cfg.nTasks, pars, query);
      if r.Ok? {
        covMatAll := r.value;
      }
    }
  }

  /** The constructed tables give every pair its lag matrix and share each grid between the two orientations. */
  lemma TablesLagged(num: Numerics, cfg: GPConfig, data: seq<seq<real>>,
                     covMat: map<(nat, nat), RegularGrid>, dataTau: map<(nat, nat), Matrix>)
    requires cfg.WellFormed() && |data| == cfg.nTasks && Tables(num, cfg, data, covMat, dataTau)
    ensures Lagged(covMat, dataTau, data) && Mirrored(covMat, cfg.nTasks) && Indexed(covMat, dataTau, cfg.nTasks)
  {
    forall i, j | 0 <= i < cfg.nTasks && 0 <= j < cfg.nTasks
      ensures (i, j) in covMat && (j, i) in covMat && covMat[(i, j)] == covMat[(j, i)]
    {
      assert PairLinked(data, covMat, dataTau, i, j);
      assert PairLinked(data, covMat, dataTau, j, i);
    }
    forall i, j | 0 <= i < cfg.nTasks && 0 <= j < cfg.nTasks
      ensures (i, j) in dataTau && dataTau[(i, j)] == LagMatrix(data[i], data[j])
    {
      assert PairLinked(data, covMat, dataTau, i, j);
    }
  }

  /**
   * `Kernels(data)`: ValueError unless there is one x-array per task, checked
   * before any grid is built; then the pair loop, whose first grid build on an
   * unsupported smoothness raises.
   */
  method NewKernels(num: Numerics, s: Settings, data: seq<seq<real>>) returns (r: Result<Kernels, KernelError>)
    requires s.WellFormed()
    ensures r.Err? <==> |data| != s.nTasks || Configure(s).Err?
    ensures |data| != s.nTasks ==> r.Err? && r.error == DataLengthMismatch(|data|, s.nTasks)
    ensures |data| == s.nTasks && Configure(s).Err? ==> r.Err? && r.error == Configure(s).error
    ensures r.Ok? ==> fresh(r.value) && r.value.Valid() && r.value.data == data && r.value.cfg == Configure(s).value
    ensures r.Ok? ==> r.value.built == Triangle(s.nTasks, s.nTasks)
    ensures r.Ok? ==> r.value.builds == s.nTasks * (s.nTasks + 1) / 2
  {
    if |data| != s.nTasks {
      return Err(DataLengthMismatch(|data|, s.nTasks));
    }
    var cfg := Configure(s);
    if cfg.Err? {
      return Err(cfg.error);
    }
    var k := new Kernels.Init(num, cfg.value, data);
    r := Ok(k);
  }

  // ---------------------------------------------------------------------------
  // The dictionary keys as written: f't_{i}{j}'

  function Digit(d: nat): char
    requires d < 10
  {
    "0123456789"[d]
  }

  /** Decimal digits of `n`, as `str(n)`. */
  function NatToString(n: nat): (s: string)
    ensures 0 < |s|
    ensures n < 10 <==> |s| == 1
  {
    if n < 10 then [Digit(n)] else NatToString(n / 10) + [Digit(n % 10)]
  }

  function Key(i: nat, j: nat): string {
    "t_" + NatToString(i) + NatToString(j)
  }

  /** Below ten tasks the string keys tell the pairs apart. */
  lemma KeysDistinctBelowTen(i: nat, j: nat, p: nat, q: nat)
    requires i < 10 && j < 10 && p < 10 && q < 10
    requires Key(i, j) == Key(p, q)
    ensures i == p && j == q
  {
    assert Key(i, j)[2] == Digit(i) && Key(p, q)[2] == Digit(p);
    assert Key(i, j)[3] == Digit(j) && Key(p, q)[3] == Digit(q);
  }

  /**
   * From twelve tasks on, pairs `(1, 11)` and `(11, 1)` share one dictionary
   * slot. As written the loop raises at `(1, 0)` before row 1 stores a key, so
   * the collision only matters once line 78 reads the stored pair.
   */
  lemma KeyCollision()
    ensures (1, 11) != (11, 1)
    ensures Key(1, 11) == Key(11, 1) == "t_111"
  {
    assert NatToString(11) == "11";
  }

  /**
   * The keys the as-written pair loop (lines 64-79) has stored when it reaches
   * `(i, j)`; line 78 reads `t_{i}{j}` for `i > j`, a KeyError unless stored.
   * Only the keys are followed: every grid build is taken to return (as
   * written, `gMdef` raises NameError first unless each smoothness is `'0.0'`
   * or 7/2).
   */
  function AsWrittenPairLoop(n: nat, i: nat, j: nat, keys: set<string>): (r: Result<set<string>, KernelError>)
    requires i <= n && j <= n
    ensures r.Ok? ==> keys <= r.value
    ensures r.Err? ==> r.error.KeyError? && r.error.key !in keys
    decreases n - i, n - j
  {
    if i == n then Ok(keys)
    else if j == n then AsWrittenPairLoop(n, i + 1, 0, keys)
    else if i <= j then AsWrittenPairLoop(n, i, j + 1, keys + {Key(i, j)})
    else if Key(i, j) !in keys then Err(KeyError(Key(i, j)))
    else AsWrittenPairLoop(n, i, j + 1, keys + {Key(j, i)})
  }

  lemma {:induction false} AsWrittenFirstRow(n: nat, j: nat, keys: set<string>)
    requires 2 <= n && j <= n
    requires forall s :: s in keys ==> |s| > 2 && s[2] == '0'
    ensures AsWrittenPairLoop(n, 0, j, keys) == Err(KeyError("t_10"))
    decreases n - j
  {
    if j < n {
      assert Key(0, j)[2] == '0';
      AsWrittenFirstRow(n, j + 1, keys + {Key(0, j)});
    } else {
      assert Key(1, 0) == "t_10";
      assert "t_10"[2] == '1';
    }
  }

  /**
   * As written, construction with two or more tasks raises KeyError('t_10'),
   * when every grid build of row 0 returns.
   */
  lemma AsWrittenRaises(n: nat)
    requires n >= 2
    ensures AsWrittenPairLoop(n, 0, 0, {}) == Err(KeyError("t_10"))
  {
    AsWrittenFirstRow(n, 0, {});
  }

  /** With a single task whose grid build returns, the as-written loop completes, storing only `t_00`. */
  lemma AsWrittenOneTask()
    ensures AsWrittenPairLoop(1, 0, 0, {}) == Ok({"t_00"})
  {
    assert Key(0, 0) == "t_00";
    assert AsWrittenPairLoop(1, 1, 0, {"t_00"}) == Ok({"t_00"});
    assert AsWrittenPairLoop(1, 0, 1, {"t_00"}) == Ok({"t_00"});
    assert {} + {Key(0, 0)} == {"t_00"};
  }
}
