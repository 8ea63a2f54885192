/**
 * Dense real matrices as values, and the part of numpy the core relies on:
 * transposition, and `np.block` over a two-level list of blocks.
 */
module Matrices {
  import opened Results

  /** A `rows x cols` numpy array; `at[a][b]` is entry `(a, b)`. */
  datatype Matrix = Matrix(rows: nat, cols: nat, at: seq<seq<real>>) {
    ghost predicate Valid() {
      |at| == rows && forall a :: 0 <= a < |at| ==> |at[a]| == cols
    }
  }

  /** Why `np.block` raised ValueError. */
  datatype ShapeError = EmptyList | DimensionMismatch

  ghost predicate AllValid(ms: seq<Matrix>) {
    forall k :: 0 <= k < |ms| ==> ms[k].Valid()
  }

  function Sum(ns: seq<nat>): nat {
    if ns == [] then 0 else ns[0] + Sum(ns[1..])
  }

  /** Total number of rows of a list of matrices (`sum(m.shape[0] for m in ms)`). */
  function RowTotal(ms: seq<Matrix>): nat {
    if ms == [] then 0 else ms[0].rows + RowTotal(ms[1..])
  }

  /** Total number of columns of a list of matrices. */
  function ColTotal(ms: seq<Matrix>): nat {
    if ms == [] then 0 else ms[0].cols + ColTotal(ms[1..])
  }

  function Transpose(m: Matrix): (t: Matrix)
    requires m.Valid()
    ensures t.Valid() && t.rows == m.cols && t.cols == m.rows
    ensures forall a, b :: 0 <= a < t.rows && 0 <= b < t.cols ==> t.at[a][b] == m.at[b][a]
  {
    Matrix(m.cols, m.rows,
      seq(m.cols, a requires 0 <= a < m.cols => seq(m.rows, b requires 0 <= b < m.rows => m.at[b][a])))
  }

  /** Two valid matrices of the same shape and entries are equal. */
  lemma MatrixExt(m: Matrix, n: Matrix)
    requires m.Valid() && n.Valid() && m.rows == n.rows && m.cols == n.cols
    requires forall a, b :: 0 <= a < m.rows && 0 <= b < m.cols ==> m.at[a][b] == n.at[a][b]
    ensures m == n
  {
    forall a | 0 <= a < m.rows
      ensures m.at[a] == n.at[a]
    {
      assert |m.at[a]| == |n.at[a]| == m.cols;
    }
    assert m.at == n.at;
  }

  // ---------------------------------------------------------------------------
  // np.block([[B00, B01, ...], [B10, ...], ...]): each inner list is joined
  // side by side (same row count required), then the block-rows are stacked
  // (same column count required). An empty list anywhere raises ValueError.

  function Beside(l: Matrix, r: Matrix): (m: Matrix)
    requires l.Valid() && r.Valid() && l.rows == r.rows
    ensures m.Valid() && m.rows == l.rows && m.cols == l.cols + r.cols
  {
    Matrix(l.rows, l.cols + r.cols, seq(l.rows, a requires 0 <= a < l.rows => l.at[a] + r.at[a]))
  }

  function Above(t: Matrix, b: Matrix): (m: Matrix)
    requires t.Valid() && b.Valid() && t.cols == b.cols
    ensures m.Valid() && m.rows == t.rows + b.rows && m.cols == t.cols
  {
    Matrix(t.rows + b.rows, t.cols, t.at + b.at)
  }

  /** `np.concatenate(ms, axis=1)` for a non-empty list. */
  function HConcat(ms: seq<Matrix>): (r: Result<Matrix, ShapeError>)
    requires |ms| > 0 && AllValid(ms)
    ensures r.Ok? ==> r.value.Valid() && r.value.rows == ms[0].rows && r.value.cols == ColTotal(ms)
  {
    if |ms| == 1 then Ok(ms[0])
    else match HConcat(ms[1..])
      case Err(e) => Err(e)
      case Ok(rest) => if ms[0].rows == rest.rows then Ok(Beside(ms[0], rest)) else Err(DimensionMismatch)
  }

  /** `np.concatenate(ms, axis=0)` for a non-empty list. */
  function VConcat(ms: seq<Matrix>): (r: Result<Matrix, ShapeError>)
    requires |ms| > 0 && AllValid(ms)
    ensures r.Ok? ==> r.value.Valid() && r.value.cols == ms[0].cols && r.value.rows == RowTotal(ms)
  {
    if |ms| == 1 then Ok(ms[0])
    else match VConcat(ms[1..])
      case Err(e) => Err(e)
      case Ok(rest) => if ms[0].cols == rest.cols then Ok(Above(ms[0], rest)) else Err(DimensionMismatch)
  }

  /** Joins every block-row; the first failing row decides the error. */
  function HConcatRows(blocks: seq<seq<Matrix>>): (r: Result<seq<Matrix>, ShapeError>)
    requires forall i :: 0 <= i < |blocks| ==> |blocks[i]| > 0 && AllValid(blocks[i])
    ensures r.Ok? ==> |r.value| == |blocks| && AllValid(r.value)
  {
    if blocks == [] then Ok([])
    else match HConcat(blocks[0])
      case Err(e) => Err(e)
      case Ok(row) =>
        match HConcatRows(blocks[1..])
        case Err(e) => Err(e)
        case Ok(rest) => Ok([row] + rest)
  }

  ghost predicate AllBlocksValid(blocks: seq<seq<Matrix>>) {
    forall i :: 0 <= i < |blocks| ==> AllValid(blocks[i])
  }

  /** `np.block` on a list of lists of 2-D arrays. */
  function NpBlock(blocks: seq<seq<Matrix>>): (r: Result<Matrix, ShapeError>)
    requires AllBlocksValid(blocks)
    ensures (blocks == [] || exists i :: 0 <= i < |blocks| && blocks[i] == []) ==> r == Err(EmptyList)
    ensures r.Ok? ==> r.value.Valid()
  {
    if blocks == [] || exists i :: 0 <= i < |blocks| && blocks[i] == [] then Err(EmptyList)
    else match HConcatRows(blocks)
      case Err(e) => Err(e)
      case Ok(rows) => VConcat(rows)
  }

  // ---------------------------------------------------------------------------
  // What np.block computes.

  lemma {:induction false} ColTotalIsSum(ms: seq<Matrix>, cs: seq<nat>)
    requires |ms| == |cs| && forall k :: 0 <= k < |ms| ==> ms[k].cols == cs[k]
    ensures ColTotal(ms) == Sum(cs)
  {
    if ms != [] { ColTotalIsSum(ms[1..], cs[1..]); }
  }

  lemma {:induction false} RowTotalIsSum(ms: seq<Matrix>, rs: seq<nat>)
    requires |ms| == |rs| && forall k :: 0 <= k < |ms| ==> ms[k].rows == rs[k]
    ensures RowTotal(ms) == Sum(rs)
  {
    if ms != [] { RowTotalIsSum(ms[1..], rs[1..]); }
  }

  /** Joining side by side succeeds exactly when every block has the first block's row count. */
  lemma {:induction false} HConcatOkIff(ms: seq<Matrix>)
    requires |ms| > 0 && AllValid(ms)
    ensures HConcat(ms).Ok? <==> forall k :: 0 <= k < |ms| ==> ms[k].rows == ms[0].rows
  {
    if |ms| > 1 {
      HConcatOkIff(ms[1..]);
      if HConcat(ms).Ok? {
        forall k | 0 <= k < |ms| ensures ms[k].rows == ms[0].rows {
          if k > 0 { assert ms[k] == ms[1..][k - 1]; }
        }
      }
      if forall k :: 0 <= k < |ms| ==> ms[k].rows == ms[0].rows {
        assert ms[1..][0] == ms[1];
      }
    }
  }

  /** Block `k` of a side-by-side join starts at column `ColTotal(ms[..k])`. */
  lemma {:induction false} HConcatAt(ms: seq<Matrix>, k: nat, a: nat, b: nat)
    requires |ms| > 0 && AllValid(ms) && HConcat(ms).Ok?
    requires k < |ms| && a < ms[k].rows && b < ms[k].cols
    ensures HConcat(ms).value.rows == ms[k].rows
    ensures ColTotal(ms[..k]) + b < ColTotal(ms)
    ensures HConcat(ms).value.at[a][ColTotal(ms[..k]) + b] == ms[k].at[a][b]
  {
    HConcatOkIff(ms);
    if |ms| > 1 {
      var rest := HConcat(ms[1..]).value;
      if k == 0 {
        assert ms[..0] == [];
        assert HConcat(ms).value.at[a] == ms[0].at[a] + rest.at[a];
      } else {
        HConcatAt(ms[1..], k - 1, a, b);
        assert ms[..k][1..] == ms[1..][..k - 1];
        assert ms[..k][0] == ms[0];
        assert HConcat(ms).value.at[a] == ms[0].at[a] + rest.at[a];
      }
    } else {
      assert ms[..0] == [];
    }
  }

  /** Stacking succeeds exactly when every matrix has the first one's column count. */
  lemma {:induction false} VConcatOkIff(ms: seq<Matrix>)
    requires |ms| > 0 && AllValid(ms)
    ensures VConcat(ms).Ok? <==> forall k :: 0 <= k < |ms| ==> ms[k].cols == ms[0].cols
  {
    if |ms| > 1 {
      VConcatOkIff(ms[1..]);
      if VConcat(ms).Ok? {
        forall k | 0 <= k < |ms| ensures ms[k].cols == ms[0].cols {
          if k > 0 { assert ms[k] == ms[1..][k - 1]; }
        }
      }
      if forall k :: 0 <= k < |ms| ==> ms[k].cols == ms[0].cols {
        assert ms[1..][0] == ms[1];
      }
    }
  }

  /** Matrix `k` of a stack starts at row `RowTotal(ms[..k])`. */
  lemma {:induction false} VConcatAt(ms: seq<Matrix>, k: nat, a: nat)
    requires |ms| > 0 && AllValid(ms) && VConcat(ms).Ok?
    requires k < |ms| && a < ms[k].rows
    ensures RowTotal(ms[..k]) + a < RowTotal(ms)
    ensures VConcat(ms).value.at[RowTotal(ms[..k]) + a] == ms[k].at[a]
  {
    VConcatOkIff(ms);
    if |ms| > 1 {
      if k == 0 {
        assert ms[..0] == [];
      } else {
        VConcatAt(ms[1..], k - 1, a);
        assert ms[..k][1..] == ms[1..][..k - 1];
        assert ms[..k][0] == ms[0];
      }
    } else {
      assert ms[..0] == [];
    }
  }

  lemma {:induction false} HConcatRowsAt(blocks: seq<seq<Matrix>>, i: nat)
    requires forall i :: 0 <= i < |blocks| ==> |blocks[i]| > 0 && AllValid(blocks[i])
    requires HConcatRows(blocks).Ok? && i < |blocks|
    ensures HConcat(blocks[i]).Ok? && HConcatRows(blocks).value[i] == HConcat(blocks[i]).value
  {
    if i > 0 {
      HConcatRowsAt(blocks[1..], i - 1);
    }
  }

  lemma {:induction false} HConcatRowsOk(blocks: seq<seq<Matrix>>)
    requires forall i :: 0 <= i < |blocks| ==> |blocks[i]| > 0 && AllValid(blocks[i])
    requires forall i :: 0 <= i < |blocks| ==> HConcat(blocks[i]).Ok?
    ensures HConcatRows(blocks).Ok?
  {
    if blocks != [] {
      HConcatRowsOk(blocks[1..]);
    }
  }

  lemma {:induction false} HConcatRowsFails(blocks: seq<seq<Matrix>>, i: nat)
    requires forall i :: 0 <= i < |blocks| ==> |blocks[i]| > 0 && AllValid(blocks[i])
    requires i < |blocks| && HConcat(blocks[i]).Err?
    ensures HConcatRows(blocks).Err?
  {
    if i > 0 {
      HConcatRowsFails(blocks[1..], i - 1);
    }
  }

  /** Block-row `i` has `rs[i]` rows and block-column `j` has `cs[j]` columns. */
  ghost predicate GridShaped(blocks: seq<seq<Matrix>>, rs: seq<nat>, cs: seq<nat>) {
    && |blocks| == |rs| > 0 && |cs| > 0
    && (forall i :: 0 <= i < |blocks| ==> |blocks[i]| == |cs|)
    && (forall i, j {:trigger blocks[i][j]} :: 0 <= i < |blocks| && 0 <= j < |cs| ==>
          blocks[i][j].Valid() && blocks[i][j].rows == rs[i] && blocks[i][j].cols == cs[j])
  }

  lemma {:induction false} NpBlockGridRows(blocks: seq<seq<Matrix>>, rs: seq<nat>, cs: seq<nat>)
    requires GridShaped(blocks, rs, cs)
    ensures AllBlocksValid(blocks) && HConcatRows(blocks).Ok?
    ensures forall i :: 0 <= i < |blocks| ==>
      HConcat(blocks[i]).Ok? && HConcatRows(blocks).value[i] == HConcat(blocks[i]).value &&
      HConcat(blocks[i]).value.rows == rs[i] && HConcat(blocks[i]).value.cols == Sum(cs)
    ensures VConcat(HConcatRows(blocks).value).Ok?
    ensures VConcat(HConcatRows(blocks).value).value.rows == Sum(rs)
    ensures NpBlock(blocks) == VConcat(HConcatRows(blocks).value)
  {
    forall i, k | 0 <= i < |blocks| && 0 <= k < |blocks[i]| ensures blocks[i][k].Valid() {
      assert k < |cs|;
    }
    forall i | 0 <= i < |blocks| ensures HConcat(blocks[i]).Ok? {
      HConcatOkIff(blocks[i]);
    }
    HConcatRowsOk(blocks);
    var rows := HConcatRows(blocks).value;
    forall i | 0 <= i < |rows|
      ensures rows[i] == HConcat(blocks[i]).value && rows[i].rows == rs[i] && rows[i].cols == Sum(cs)
    {
      HConcatRowsAt(blocks, i);
      ColTotalIsSum(blocks[i], cs);
    }
    VConcatOkIff(rows);
    RowTotalIsSum(rows, rs);
  }

  /**
   * A grid of blocks whose block-row `i` has `rs[i]` rows and whose block-column
   * `j` has `cs[j]` columns joins into a `Sum(rs) x Sum(cs)` matrix holding entry
   * `(a, b)` of block `(i, j)` at row `Sum(rs[..i]) + a`, column `Sum(cs[..j]) + b`.
   */
  lemma {:induction false} NpBlockGridAt(blocks: seq<seq<Matrix>>, rs: seq<nat>, cs: seq<nat>, i: nat, j: nat, a: nat, b: nat)
    requires GridShaped(blocks, rs, cs)
    requires i < |rs| && j < |cs| && a < rs[i] && b < cs[j]
    ensures AllBlocksValid(blocks) && NpBlock(blocks).Ok?
    ensures NpBlock(blocks).value.rows == Sum(rs) && NpBlock(blocks).value.cols == Sum(cs)
    ensures Sum(rs[..i]) + a < Sum(rs) && Sum(cs[..j]) + b < Sum(cs)
    ensures NpBlock(blocks).value.at[Sum(rs[..i]) + a][Sum(cs[..j]) + b] == blocks[i][j].at[a][b]
  {
    NpBlockGridRows(blocks, rs, cs);
    var rows := HConcatRows(blocks).value;
    VConcatAt(rows, i, a);
    RowTotalIsSum(rows, rs);
    assert forall k :: 0 <= k < i ==> rows[..i][k] == rows[k];
    RowTotalIsSum(rows[..i], rs[..i]);
    assert AllValid(blocks[i]);
    HConcatAt(blocks[i], j, a, b);
    assert forall k :: 0 <= k < j ==> blocks[i][..j][k] == blocks[i][k];
    ColTotalIsSum(blocks[i][..j], cs[..j]);
    ColTotalIsSum(blocks[i], cs);
  }

  /** A block-row whose blocks disagree on their row count makes np.block raise. */
  lemma NpBlockRowMismatch(blocks: seq<seq<Matrix>>, i: nat, j: nat)
    requires AllBlocksValid(blocks) && forall i :: 0 <= i < |blocks| ==> |blocks[i]| > 0
    requires i < |blocks| && j < |blocks[i]| && blocks[i][j].rows != blocks[i][0].rows
    ensures NpBlock(blocks).Err?
  {
    HConcatOkIff(blocks[i]);
    HConcatRowsFails(blocks, i);
  }
}
