/**
 * Dataset selection and joint assembly (marcia/database.py): the `Data` object
 * validates dataset names, `get_data` dispatches a name to its loader, and a
 * call concatenates the per-dataset x and y vectors and puts the per-dataset
 * covariances on the diagonal of one big matrix.
 *
 * The loaders read text files; here they are one caller-supplied function from
 * the selected loader (with its parameters) to the triple it returns.
 */
module Database {
  import opened Results
  import opened Matrices

  /** The dataset names `Data` accepts, in the order the source lists them. */
  const DataList: seq<string> := ["CC", "BAO", "GR", "Lya", "GRB", "SNE", "QSA"]

  /** The argument of `Data(...)`: a `str`, a `list` of names, or a value of any other type. */
  datatype DataArg = Name(name: string) | Names(names: seq<string>) | OtherType

  datatype DataError =
    | NotInDataList(name: string)      // AssertionError of the membership asserts
    | InvalidType                      // TypeError: neither str nor list
    | NotValidDataSet(name: string)    // ValueError raised by get_data
    | MissingParams(keys: seq<string>) // AssertionError of get_data's key checks
    | NothingToConcatenate             // ValueError of np.concatenate on an empty list

  /** A constructed `Data` object: the list of selected dataset names. */
  datatype Data = Data(names: seq<string>)

  /** What one loader returns: x values, y values and their covariance. */
  datatype Observations = Observations(x: seq<real>, y: seq<real>, covar: Matrix)

  /** The loader `get_data` selects, with the arguments it passes to it. */
  datatype Loader<V> =
    | CosmicClocks
    | Bao
    | Growth(file: V)
    | Lya
    | Grb(lambda: V, b: V, sigmaSys: V)
    | Sne
    | Qsa

  // ---------------------------------------------------------------------------
  // Data.__init__

  /** Index of the first name not in `DataList`, or `|names|` when there is none. */
  function FirstUnknown(names: seq<string>): (k: nat)
    ensures k <= |names|
    ensures forall i :: 0 <= i < k ==> names[i] in DataList
    ensures k < |names| ==> names[k] !in DataList
  {
    if names == [] then 0
    else if names[0] !in DataList then 0
    else 1 + FirstUnknown(names[1..])
  }

  /** `Data(arg)`: a name becomes a one-element list, a list is kept as it is. */
  function NewData(arg: DataArg): (r: Result<Data, DataError>)
    ensures arg.Name? ==> (r.Ok? <==> arg.name in DataList)
    ensures arg.Name? && r.Ok? ==> r.value.names == [arg.name]
    ensures arg.Name? && r.Err? ==> r.error == NotInDataList(arg.name)
    ensures arg.Names? ==> (r.Ok? <==> forall k :: 0 <= k < |arg.names| ==> arg.names[k] in DataList)
    ensures arg.Names? && r.Ok? ==> r.value.names == arg.names
    ensures arg.Names? && r.Err? ==>
      exists k :: 0 <= k < |arg.names| && arg.names[k] !in DataList && r.error == NotInDataList(arg.names[k]) &&
        forall i :: 0 <= i < k ==> arg.names[i] in DataList
    ensures arg.OtherType? ==> r == Err(InvalidType)
  {
    match arg
    case Name(s) => if s in DataList then Ok(Data([s])) else Err(NotInDataList(s))
    case Names(ns) =>
      var k := FirstUnknown(ns);
      if k < |ns| then Err(NotInDataList(ns[k])) else Ok(Data(ns))
    case OtherType => Err(InvalidType)
  }

  // ---------------------------------------------------------------------------
  // get_data

  /** The dataset name under which each loader is reached. */
  function LoaderName<V>(l: Loader<V>): string {
    match l
    case CosmicClocks => "CC"
    case Bao => "BAO"
    case Growth(_) => "GR"
    case Lya => "Lya"
    case Grb(_, _, _) => "GRB"
    case Sne => "SNE"
    case Qsa => "QSA"
  }

  const GrowthKeys: seq<string> := ["file"]
  const GrbKeys: seq<string> := ["Lambda", "b", "sigma_sys"]

  /** Which loader `get_data(choose, params)` calls, or what it raises. */
  function GetLoader<V>(choose: string, params: map<string, V>): (r: Result<Loader<V>, DataError>)
    ensures r.Ok? ==> LoaderName(r.value) == choose && choose in DataList
    ensures choose !in DataList ==> r == Err(NotValidDataSet(choose))
    ensures choose == "GR" ==> (r.Ok? <==> "file" in params)
    ensures choose == "GR" && "file" !in params ==> r == Err(MissingParams(GrowthKeys))
    ensures choose == "GRB" ==> (r.Ok? <==> "Lambda" in params && "b" in params && "sigma_sys" in params)
    ensures choose == "GRB" && !("Lambda" in params && "b" in params && "sigma_sys" in params) ==>
      r == Err(MissingParams(GrbKeys))
    ensures choose in DataList && choose != "GR" && choose != "GRB" ==> r.Ok?
    ensures r.Ok? && r.value.Growth? ==> r.value.file == params["file"]
    ensures r.Ok? && r.value.Grb? ==>
      r.value.lambda == params["Lambda"] && r.value.b == params["b"] && r.value.sigmaSys == params["sigma_sys"]
  {
    if choose == "CC" then Ok(CosmicClocks)
    else if choose == "BAO" then Ok(Bao)
    else if choose == "GR" then
      if "file" in params then Ok(Growth(params["file"])) else Err(MissingParams(GrowthKeys))
    else if choose == "Lya" then Ok(Lya)
    else if choose == "GRB" then
      if "Lambda" in params && "b" in params && "sigma_sys" in params
      then Ok(Grb(params["Lambda"], params["b"], params["sigma_sys"]))
      else Err(MissingParams(GrbKeys))
    else if choose == "SNE" then Ok(Sne)
    else if choose == "QSA" then Ok(Qsa)
    else Err(NotValidDataSet(choose))
  }

  /** Every loader is reached through its own name, whatever else the parameters hold. */
  lemma {:induction false} GetLoaderRoundTrip<V>(l: Loader<V>, params: map<string, V>)
    requires l.Growth? ==> params == map["file" := l.file]
    requires l.Grb? ==> params == map["Lambda" := l.lambda, "b" := l.b, "sigma_sys" := l.sigmaSys]
    ensures GetLoader(LoaderName(l), params) == Ok(l)
  {
    match l
    case Growth(_) => assert "file" in params;
    case Grb(_, _, _) => assert "Lambda" in params && "b" in params && "sigma_sys" in params;
    case _ =>
  }

  /** `get_data(choose, params)`: the selected loader's triple. */
  function GetData<V>(choose: string, params: map<string, V>, load: Loader<V> -> Observations): (r: Result<Observations, DataError>)
    ensures r.Ok? <==> GetLoader(choose, params).Ok?
    ensures r.Ok? ==> r.value == load(GetLoader(choose, params).value)
    ensures r.Err? ==> GetLoader(choose, params) == Err(r.error)
  {
    match GetLoader(choose, params)
    case Ok(l) => Ok(load(l))
    case Err(e) => Err(e)
  }

  // ---------------------------------------------------------------------------
  // __block_matrix__

  /**
   * Entry `(r, c)` of the block-diagonal matrix of `ms`: the matching entry of
   * the block whose row and column ranges hold `(r, c)`, and 0 elsewhere.
   */
  function BlockEntry(ms: seq<Matrix>, r: int, c: int): real
    requires AllValid(ms)
  {
    if ms == [] || r < 0 || c < 0 then 0.0
    else if r < ms[0].rows then (if c < ms[0].cols then ms[0].at[r][c] else 0.0)
    else BlockEntry(ms[1..], r - ms[0].rows, c - ms[0].cols)
  }

  /** The `size x size` matrix that `__block_matrix__` returns, `size` being the total row count. */
  function BlockDiagonal(ms: seq<Matrix>): (m: Matrix)
    requires AllValid(ms)
    ensures m.Valid() && m.rows == RowTotal(ms) && m.cols == RowTotal(ms)
    ensures forall r, c :: 0 <= r < m.rows && 0 <= c < m.cols ==> m.at[r][c] == BlockEntry(ms, r, c)
  {
    var n := RowTotal(ms);
    Matrix(n, n, seq(n, r requires 0 <= r < n => seq(n, c requires 0 <= c < n => BlockEntry(ms, r, c))))
  }

  /** `(r, c)` lies in the rows and columns where matrix `k` is copied. */
  ghost predicate InBlock(ms: seq<Matrix>, k: nat, r: int, c: int)
    requires k < |ms|
  {
    && RowTotal(ms[..k]) <= r < RowTotal(ms[..k]) + ms[k].rows
    && ColTotal(ms[..k]) <= c < ColTotal(ms[..k]) + ms[k].cols
  }

  lemma {:induction false} TotalsAppend(a: seq<Matrix>, b: seq<Matrix>)
    ensures RowTotal(a + b) == RowTotal(a) + RowTotal(b)
    ensures ColTotal(a + b) == ColTotal(a) + ColTotal(b)
  {
    if a == [] {
      assert a + b == b;
    } else {
      assert (a + b)[0] == a[0];
      assert (a + b)[1..] == a[1..] + b;
      TotalsAppend(a[1..], b);
    }
  }

  lemma PrefixTotals(ms: seq<Matrix>, i: nat, j: nat)
    requires i <= j <= |ms|
    ensures RowTotal(ms[..i]) <= RowTotal(ms[..j]) && ColTotal(ms[..i]) <= ColTotal(ms[..j])
    ensures j == i + 1 ==> RowTotal(ms[..j]) == RowTotal(ms[..i]) + ms[i].rows
    ensures j == i + 1 ==> ColTotal(ms[..j]) == ColTotal(ms[..i]) + ms[i].cols
  {
    assert ms[..j] == ms[..i] + ms[i..j];
    TotalsAppend(ms[..i], ms[i..j]);
    if j == i + 1 {
      assert ms[i..j] == [ms[i]];
    }
  }

  /** Shifting past the first matrix: its totals peel off the front. */
  lemma PeelTotals(ms: seq<Matrix>, k: nat)
    requires 0 < k <= |ms|
    ensures ms[..k][1..] == ms[1..][..k - 1]
    ensures RowTotal(ms[..k]) == ms[0].rows + RowTotal(ms[1..][..k - 1])
    ensures ColTotal(ms[..k]) == ms[0].cols + ColTotal(ms[1..][..k - 1])
  {
    assert ms[..k][1..] == ms[1..][..k - 1];
  }

  lemma {:induction false} BlockEntryAt(ms: seq<Matrix>, k: nat, a: nat, b: nat)
    requires AllValid(ms) && k < |ms| && a < ms[k].rows && b < ms[k].cols
    ensures BlockEntry(ms, RowTotal(ms[..k]) + a, ColTotal(ms[..k]) + b) == ms[k].at[a][b]
  {
    if k == 0 {
      assert ms[..0] == [];
    } else {
      PeelTotals(ms, k);
      BlockEntryAt(ms[1..], k - 1, a, b);
    }
  }

  lemma {:induction false} BlockEntryOutside(ms: seq<Matrix>, r: int, c: int)
    requires AllValid(ms)
    requires forall k :: 0 <= k < |ms| ==> !InBlock(ms, k, r, c)
    ensures BlockEntry(ms, r, c) == 0.0
  {
    if ms != [] && r >= 0 && c >= 0 {
      assert ms[..0] == [];
      if r >= ms[0].rows {
        var rest, r', c' := ms[1..], r - ms[0].rows, c - ms[0].cols;
        forall k | 0 <= k < |rest| ensures !InBlock(rest, k, r', c') {
          PeelTotals(ms, k + 1);
          assert !InBlock(ms, k + 1, r, c);
        }
        BlockEntryOutside(rest, r', c');
      } else {
        assert !InBlock(ms, 0, r, c);
      }
    }
  }

  /** Appending a matrix writes it at the current offsets and leaves every other entry alone. */
  lemma {:induction false} BlockEntrySnoc(ms: seq<Matrix>, m: Matrix, r: int, c: int)
    requires AllValid(ms) && m.Valid()
    ensures AllValid(ms + [m])
    ensures BlockEntry(ms + [m], r, c) ==
      if RowTotal(ms) <= r < RowTotal(ms) + m.rows && ColTotal(ms) <= c < ColTotal(ms) + m.cols
      then m.at[r - RowTotal(ms)][c - ColTotal(ms)]
      else BlockEntry(ms, r, c)
  {
    assert AllValid(ms + [m]) by {
      forall k | 0 <= k < |ms + [m]| ensures (ms + [m])[k].Valid() {
        if k < |ms| { assert (ms + [m])[k] == ms[k]; }
      }
    }
    if ms != [] {
      assert (ms + [m])[0] == ms[0];
      assert (ms + [m])[1..] == ms[1..] + [m];
      BlockEntrySnoc(ms[1..], m, r - ms[0].rows, c - ms[0].cols);
    }
  }

  // ---------------------------------------------------------------------------
  // What the block-diagonal matrix holds.

  /** Matrix `k` sits at row and column offset equal to the sizes of the matrices before it. */
  lemma BlockDiagonalPlacement(ms: seq<Matrix>, k: nat, a: nat, b: nat)
    requires AllValid(ms) && ColTotal(ms) <= RowTotal(ms)
    requires k < |ms| && a < ms[k].rows && b < ms[k].cols
    ensures RowTotal(ms[..k]) + a < RowTotal(ms) && ColTotal(ms[..k]) + b < RowTotal(ms)
    ensures BlockDiagonal(ms).at[RowTotal(ms[..k]) + a][ColTotal(ms[..k]) + b] == ms[k].at[a][b]
  {
    PrefixTotals(ms, k, k + 1);
    PrefixTotals(ms, k + 1, |ms|);
    assert ms[..|ms|] == ms;
    BlockEntryAt(ms, k, a, b);
  }

  /** Every entry outside the copied blocks is 0. */
  lemma BlockDiagonalZeroOutside(ms: seq<Matrix>, r: nat, c: nat)
    requires AllValid(ms) && r < RowTotal(ms) && c < RowTotal(ms)
    requires forall k :: 0 <= k < |ms| ==> !InBlock(ms, k, r, c)
    ensures BlockDiagonal(ms).at[r][c] == 0.0
  {
    BlockEntryOutside(ms, r, c);
  }

  /** No entry belongs to two blocks: the row ranges of different matrices are disjoint. */
  lemma BlocksDisjoint(ms: seq<Matrix>, k1: nat, k2: nat, r: int, c: int)
    requires k1 < |ms| && k2 < |ms|
    requires InBlock(ms, k1, r, c) && InBlock(ms, k2, r, c)
    ensures k1 == k2
  {
    if k1 < k2 {
      PrefixTotals(ms, k1, k1 + 1);
      PrefixTotals(ms, k1 + 1, k2);
    } else if k2 < k1 {
      PrefixTotals(ms, k2, k2 + 1);
      PrefixTotals(ms, k2 + 1, k1);
    }
  }

  /**
   * `result[rowStart:rowEnd, colStart:colEnd] = matrix`: with the matrices
   * `done` already copied, `m` goes in at their row and column totals.
   */
  method CopyInto(result: array2<real>, ghost done: seq<Matrix>, m: Matrix, rowStart: nat, colStart: nat)
    requires AllValid(done) && m.Valid()
    requires rowStart == RowTotal(done) && colStart == ColTotal(done)
    requires rowStart + m.rows <= result.Length0 && colStart + m.cols <= result.Length1
    requires forall r, c :: 0 <= r < result.Length0 && 0 <= c < result.Length1 ==> result[r, c] == BlockEntry(done, r, c)
    modifies result
    ensures AllValid(done + [m])
    ensures forall r, c :: 0 <= r < result.Length0 && 0 <= c < result.Length1 ==> result[r, c] == BlockEntry(done + [m], r, c)
  {
    var rowEnd, colEnd := rowStart + m.rows, colStart + m.cols;
    forall r, c | rowStart <= r < rowEnd && colStart <= c < colEnd {
      result[r, c] := m.at[r - rowStart][c - colStart];
    }
    forall r, c | 0 <= r < result.Length0 && 0 <= c < result.Length1
      ensures result[r, c] == BlockEntry(done + [m], r, c)
    {
      BlockEntrySnoc(done, m, r, c);
    }
  }

  /**
   * `__block_matrix__`: starts from a zero `size x size` array and copies each
   * matrix into it at the running row and column offsets.
   */
  method BlockMatrix(ms: seq<Matrix>) returns (m: Matrix)
    requires AllValid(ms) && ColTotal(ms) <= RowTotal(ms)
    ensures m.Valid() && m.rows == RowTotal(ms) && m.cols == RowTotal(ms)
    ensures m == BlockDiagonal(ms)
  {
    var size := RowTotal(ms);
    var result := new real[size, size]((_, _) => 0.0);
    var rowStart, colStart := 0, 0;
    var k := 0;
    while k < |ms|
      invariant 0 <= k <= |ms|
      invariant rowStart == RowTotal(ms[..k]) && colStart == ColTotal(ms[..k])
      invariant result.Length0 == size && result.Length1 == size
      invariant forall r, c :: 0 <= r < size && 0 <= c < size ==> result[r, c] == BlockEntry(ms[..k], r, c)
    {
      var matrix := ms[k];
      PrefixTotals(ms, k, k + 1);
      PrefixTotals(ms, k + 1, |ms|);
      assert ms[..|ms|] == ms;
      assert AllValid(ms[..k]);
      CopyInto(result, ms[..k], matrix, rowStart, colStart);
      assert ms[..k + 1] == ms[..k] + [matrix];
      rowStart, colStart := rowStart + matrix.rows, colStart + matrix.cols;
      k := k + 1;
    }
    assert ms[..k] == ms;
    m := Matrix(size, size, seq(size, r requires 0 <= r < size reads result =>
                                  seq(size, c requires 0 <= c < size reads result => result[r, c])));
    MatrixExt(m, BlockDiagonal(ms));
  }

  // ---------------------------------------------------------------------------
  // Data.__call__

  /**
   * What every loader promises about its triple (CC, BAO, GR and Lya assert it;
   * GRB, SNE and QSA build a diagonal or product covariance of that shape).
   */
  ghost predicate WellShaped(o: Observations) {
    o.covar.Valid() && o.covar.rows == o.covar.cols == |o.x| == |o.y|
  }

  /** Every loader returns a well-shaped triple. */
  ghost predicate ShapedLoader<V(!new)>(load: Loader<V> -> Observations) {
    forall l :: WellShaped(load(l))
  }

  /** `np.concatenate` on a list of 1-D arrays (the empty list is the caller's error). */
  function Concat(vs: seq<seq<real>>): seq<real> {
    if vs == [] then [] else vs[0] + Concat(vs[1..])
  }

  lemma {:induction false} ConcatAt(vs: seq<seq<real>>, k: nat, a: nat)
    requires k < |vs| && a < |vs[k]|
    ensures |Concat(vs[..k])| + a < |Concat(vs)|
    ensures Concat(vs)[|Concat(vs[..k])| + a] == vs[k][a]
  {
    if k == 0 {
      assert vs[..0] == [];
    } else {
      assert vs[..k][1..] == vs[1..][..k - 1];
      assert vs[..k][0] == vs[0];
      ConcatAt(vs[1..], k - 1, a);
    }
  }

  lemma {:induction false} ConcatLength(vs: seq<seq<real>>, ms: seq<Matrix>)
    requires |vs| == |ms| && forall i :: 0 <= i < |vs| ==> |vs[i]| == ms[i].rows
    ensures |Concat(vs)| == RowTotal(ms)
  {
    if vs != [] {
      ConcatLength(vs[1..], ms[1..]);
    }
  }

  lemma {:induction false} SquareTotals(ms: seq<Matrix>)
    requires forall i :: 0 <= i < |ms| ==> ms[i].rows == ms[i].cols
    ensures ColTotal(ms) == RowTotal(ms)
  {
    if ms != [] {
      SquareTotals(ms[1..]);
    }
  }

  function Xs(ts: seq<Observations>): (r: seq<seq<real>>)
    ensures |r| == |ts| && forall k :: 0 <= k < |ts| ==> r[k] == ts[k].x
  {
    seq(|ts|, k requires 0 <= k < |ts| => ts[k].x)
  }

  function Ys(ts: seq<Observations>): (r: seq<seq<real>>)
    ensures |r| == |ts| && forall k :: 0 <= k < |ts| ==> r[k] == ts[k].y
  {
    seq(|ts|, k requires 0 <= k < |ts| => ts[k].y)
  }

  function Covars(ts: seq<Observations>): (r: seq<Matrix>)
    ensures |r| == |ts| && forall k :: 0 <= k < |ts| ==> r[k] == ts[k].covar
  {
    seq(|ts|, k requires 0 <= k < |ts| => ts[k].covar)
  }

  /** The triples `get_data` returns for `names` in order, or the first error it raises. */
  function Collect<V(!new)>(names: seq<string>, params: map<string, V>, load: Loader<V> -> Observations): (r: Result<seq<Observations>, DataError>)
    ensures r.Ok? <==> forall k :: 0 <= k < |names| ==> GetLoader(names[k], params).Ok?
    ensures r.Ok? ==> |r.value| == |names|
    ensures r.Ok? ==> forall k :: 0 <= k < |names| ==> r.value[k] == load(GetLoader(names[k], params).value)
    ensures r.Ok? && ShapedLoader(load) ==> forall k :: 0 <= k < |r.value| ==> WellShaped(r.value[k])
  {
    if names == [] then Ok([])
    else match GetData(names[0], params, load)
      case Err(e) => Err(e)
      case Ok(t) =>
        assert forall k :: 0 < k < |names| ==> names[1..][k - 1] == names[k];
        match Collect(names[1..], params, load)
        case Err(e) => Err(e)
        case Ok(ts) => Ok([t] + ts)
  }

  /** The error of the first name that fails to dispatch is the one the call raises. */
  lemma {:induction false} CollectFirstError<V(!new)>(names: seq<string>, params: map<string, V>, load: Loader<V> -> Observations, k: nat)
    requires k < |names| && GetLoader(names[k], params).Err?
    requires forall i :: 0 <= i < k ==> GetLoader(names[i], params).Ok?
    ensures Collect(names, params, load) == Err(GetLoader(names[k], params).error)
  {
    if k > 0 {
      assert names[1..][k - 1] == names[k];
      CollectFirstError(names[1..], params, load, k - 1);
    }
  }

  /** The joined triple of the per-dataset triples `ts`. */
  function Joined(ts: seq<Observations>): (r: Result<Observations, DataError>)
    requires forall i :: 0 <= i < |ts| ==> WellShaped(ts[i])
    ensures r.Err? <==> ts == []
    ensures r.Ok? ==> WellShaped(r.value)
  {
    var covars := Covars(ts);
    forall i | 0 <= i < |ts| ensures covars[i].Valid() && |Xs(ts)[i]| == |Ys(ts)[i]| == covars[i].rows {
      assert WellShaped(ts[i]);
    }
    ConcatLength(Xs(ts), covars);
    ConcatLength(Ys(ts), covars);
    if ts == [] then Err(NothingToConcatenate)
    else Ok(Observations(Concat(Xs(ts)), Concat(Ys(ts)), BlockDiagonal(covars)))
  }

  /**
   * Dataset `k`'s values land at the same offset in x, in y and on both axes of
   * the covariance, so row `off + a` of the joint covariance belongs to `x[off + a]`.
   */
  lemma JoinedAligned(ts: seq<Observations>, k: nat, a: nat, b: nat)
    requires forall i :: 0 <= i < |ts| ==> WellShaped(ts[i])
    requires k < |ts| && a < |ts[k].x| && b < |ts[k].x|
    ensures Joined(ts).Ok?
    ensures RowTotal(Covars(ts)[..k]) + a < |Joined(ts).value.x|
    ensures RowTotal(Covars(ts)[..k]) + b < |Joined(ts).value.x|
    ensures Joined(ts).value.x[RowTotal(Covars(ts)[..k]) + a] == ts[k].x[a]
    ensures Joined(ts).value.y[RowTotal(Covars(ts)[..k]) + a] == ts[k].y[a]
    ensures Joined(ts).value.covar.at[RowTotal(Covars(ts)[..k]) + a][RowTotal(Covars(ts)[..k]) + b] == ts[k].covar.at[a][b]
  {
    var covars := Covars(ts);
    var off := RowTotal(covars[..k]);
    assert AllValid(covars);
    ConcatLength(Xs(ts)[..k], covars[..k]);
    ConcatLength(Ys(ts)[..k], covars[..k]);
    ConcatAt(Xs(ts), k, a);
    ConcatAt(Ys(ts), k, a);
    SquareTotals(covars);
    SquareTotals(covars[..k]);
    BlockDiagonalPlacement(covars, k, a, b);
  }

  /** Appending a triple appends its x, y and covariance to the three lists. */
  lemma ColumnsSnoc(ts: seq<Observations>, t: Observations)
    ensures Xs(ts + [t]) == Xs(ts) + [t.x]
    ensures Ys(ts + [t]) == Ys(ts) + [t.y]
    ensures Covars(ts + [t]) == Covars(ts) + [t.covar]
  {
    assert Xs(ts + [t]) == Xs(ts) + [t.x];
    assert Ys(ts + [t]) == Ys(ts) + [t.y];
    assert Covars(ts + [t]) == Covars(ts) + [t.covar];
  }

  /** When every name dispatches, `Collect` returns the loaded triples in order. */
  lemma CollectAll<V(!new)>(names: seq<string>, params: map<string, V>, load: Loader<V> -> Observations, ts: seq<Observations>)
    requires |ts| == |names|
    requires forall k :: 0 <= k < |names| ==> GetLoader(names[k], params).Ok? && ts[k] == load(GetLoader(names[k], params).value)
    ensures Collect(names, params, load) == Ok(ts)
  {
    var all := Collect(names, params, load);
    assert all.Ok? && |all.value| == |ts|;
    assert forall k :: 0 <= k < |ts| ==> all.value[k] == ts[k];
    assert all.value == ts;
  }

  /** The three lists `__call__` accumulates: x vectors, y vectors and covariances. */
  datatype Columns = Columns(x: seq<seq<real>>, y: seq<seq<real>>, covar: seq<Matrix>)

  /** The loop of `Data.__call__`: calls `get_data` for each name in order and appends its triple. */
  method Load<V(!new)>(names: seq<string>, params: map<string, V>, load: Loader<V> -> Observations) returns (r: Result<Columns, DataError>)
    ensures Collect(names, params, load).Err? ==> r == Err(Collect(names, params, load).error)
    ensures Collect(names, params, load).Ok? ==>
      var ts := Collect(names, params, load).value; r == Ok(Columns(Xs(ts), Ys(ts), Covars(ts)))
  {
    var x: seq<seq<real>> := [];
    var y: seq<seq<real>> := [];
    var covar: seq<Matrix> := [];
    ghost var ts: seq<Observations> := [];
    for i := 0 to |names|
      invariant |ts| == i && x == Xs(ts) && y == Ys(ts) && covar == Covars(ts)
      invariant forall k :: 0 <= k < i ==>
        GetLoader(names[k], params).Ok? && ts[k] == load(GetLoader(names[k], params).value)
    {
      var got := GetData(names[i], params, load);
      if got.Err? {
        CollectFirstError(names, params, load, i);
        return Err(got.error);
      }
      var t := got.value;
      ColumnsSnoc(ts, t);
      x, y, covar := x + [t.x], y + [t.y], covar + [t.covar];
      ts := ts + [t];
    }
    CollectAll(names, params, load, ts);
    r := Ok(Columns(x, y, covar));
  }

  /** A non-empty join is the concatenations and the block-diagonal matrix of the covariances. */
  lemma JoinedOf(ts: seq<Observations>)
    requires forall i :: 0 <= i < |ts| ==> WellShaped(ts[i])
    requires ts != []
    ensures AllValid(Covars(ts)) && ColTotal(Covars(ts)) <= RowTotal(Covars(ts))
    ensures Joined(ts) == Ok(Observations(Concat(Xs(ts)), Concat(Ys(ts)), BlockDiagonal(Covars(ts))))
  {
    var covars := Covars(ts);
    forall k | 0 <= k < |covars| ensures covars[k].Valid() && covars[k].rows == covars[k].cols {
      assert WellShaped(ts[k]);
    }
    SquareTotals(covars);
  }

  /**
   * `Data.__call__(params)`: loads every selected dataset in order, then joins
   * the x vectors, the y vectors and the covariances.
   */
  method Call<V(!new)>(d: Data, params: map<string, V>, load: Loader<V> -> Observations) returns (r: Result<Observations, DataError>)
    requires ShapedLoader(load)
    ensures Collect(d.names, params, load).Err? ==> r == Err(Collect(d.names, params, load).error)
    ensures Collect(d.names, params, load).Ok? ==> r == Joined(Collect(d.names, params, load).value)
  {
    var columns := Load(d.names, params, load);
    if columns.Err? {
      return Err(columns.error);
    }
    ghost var ts := Collect(d.names, params, load).value;
    var Columns(x, y, covar) := columns.value;
    assert x == Xs(ts) && y == Ys(ts) && covar == Covars(ts);
    if |x| == 0 {
      return Err(NothingToConcatenate);
    }
    JoinedOf(ts);
    var cm := BlockMatrix(covar);
    r := Ok(Observations(Concat(x), Concat(y), cm));
  }
}
