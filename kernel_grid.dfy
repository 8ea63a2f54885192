/**
 * Building one task pair's kernel grid (`KcMM` in marcia/Archive/kernels.py):
 * the coordinate axes from `np.linspace`, the work items from
 * `itertools.product(tau, l2, l1)`, one integrand evaluation per item
 * (`pool.map`, modelled as an in-order map), and the reshape of the flat
 * results into a `len(tau) x len(l2) x len(l1)` array.
 */
module KernelGrid {

  // ---------------------------------------------------------------------------
  // np.linspace(lo, hi, n)

  function Linspace(lo: real, hi: real, n: nat): (r: seq<real>)
    ensures |r| == n
    ensures n > 0 ==> r[0] == lo
    ensures n > 1 ==> r[n - 1] == hi
    ensures n > 1 ==> forall k :: 0 <= k < n - 1 ==> r[k + 1] - r[k] == (hi - lo) / ((n - 1) as real)
  {
    if n <= 1 then (if n == 0 then [] else [lo])
    else
      var step := (hi - lo) / ((n - 1) as real);
      assert ((n - 1) as real) * step == hi - lo;
      seq(n, k requires 0 <= k < n => lo + (k as real) * step)
  }

  lemma StepScaled(lo: real, hi: real, n: nat, k: nat)
    requires n > 1 && k < n
    ensures Linspace(lo, hi, n)[k] == lo + (k as real) * ((hi - lo) / ((n - 1) as real))
  {
  }

  lemma ScaleMonotone(x: real, y: real, s: real)
    requires x <= y && s >= 0.0
    ensures x * s <= y * s
  {
    assert y * s - x * s == (y - x) * s;
  }

  lemma LinspacePointOrdered(lo: real, hi: real, n: nat, k: nat, m: nat)
    requires lo <= hi && k <= m < n
    ensures Linspace(lo, hi, n)[k] <= Linspace(lo, hi, n)[m]
  {
    if n > 1 {
      var step := (hi - lo) / ((n - 1) as real);
      assert step >= 0.0;
      StepScaled(lo, hi, n, k);
      StepScaled(lo, hi, n, m);
      ScaleMonotone(k as real, m as real, step);
    }
  }

  /** With `lo <= hi` the points are non-decreasing and stay within `[lo, hi]`. */
  lemma LinspaceWithin(lo: real, hi: real, n: nat)
    requires lo <= hi
    ensures forall k :: 0 <= k < n ==> lo <= Linspace(lo, hi, n)[k] <= hi
    ensures forall k, m :: 0 <= k <= m < n ==> Linspace(lo, hi, n)[k] <= Linspace(lo, hi, n)[m]
  {
    forall k, m | 0 <= k <= m < n ensures Linspace(lo, hi, n)[k] <= Linspace(lo, hi, n)[m] {
      LinspacePointOrdered(lo, hi, n, k, m);
    }
    forall k | 0 <= k < n ensures lo <= Linspace(lo, hi, n)[k] <= hi {
      LinspacePointOrdered(lo, hi, n, 0, k);
      LinspacePointOrdered(lo, hi, n, k, n - 1);
    }
  }

  // ---------------------------------------------------------------------------
  // Row-major (C-order) layout of a three-axis array.

  ghost predicate Shaped2<T>(rows: seq<seq<T>>, n1: nat, n2: nat) {
    |rows| == n1 && forall b :: 0 <= b < n1 ==> |rows[b]| == n2
  }

  ghost predicate Shaped3<T>(g: seq<seq<seq<T>>>, n0: nat, n1: nat, n2: nat) {
    |g| == n0 && forall t :: 0 <= t < n0 ==> Shaped2(g[t], n1, n2)
  }

  function Flatten2<T>(rows: seq<seq<T>>): seq<T> {
    if rows == [] then [] else rows[0] + Flatten2(rows[1..])
  }

  /** The C-order flattening of a three-axis array. */
  function Flatten3<T>(g: seq<seq<seq<T>>>): seq<T> {
    if g == [] then [] else Flatten2(g[0]) + Flatten3(g[1..])
  }

  /** Row-major position of entry `[t][b][c]` in an `n0 x n1 x n2` array. */
  function FlatIndex(t: nat, b: nat, c: nat, n1: nat, n2: nat): nat {
    (t * n1 + b) * n2 + c
  }

  lemma MulSucc(a: int, k: int)
    ensures (a + 1) * k == a * k + k
  {
  }

  lemma MulMonotone(x: nat, y: nat, k: nat)
    requires x <= y
    ensures x * k <= y * k
  {
    assert y * k - x * k == (y - x) * k;
  }

  lemma FlatIndexShift(t: nat, b: nat, c: nat, n1: nat, n2: nat)
    requires t > 0
    ensures FlatIndex(t, b, c, n1, n2) == n1 * n2 + FlatIndex(t - 1, b, c, n1, n2)
  {
    MulSucc(t - 1, n1);
    MulSucc((t - 1) * n1 + b, n2);
    assert t * n1 + b == ((t - 1) * n1 + b) + n1;
    assert (t * n1 + b) * n2 == ((t - 1) * n1 + b) * n2 + n1 * n2 by {
      var u := (t - 1) * n1 + b;
      assert (u + n1) * n2 == u * n2 + n1 * n2;
    }
  }

  lemma RowShift(b: nat, c: nat, n2: nat)
    requires b > 0
    ensures b * n2 + c == n2 + ((b - 1) * n2 + c)
  {
    MulSucc(b - 1, n2);
  }

  lemma SizeStep(n0: nat, n1: nat, n2: nat)
    requires n0 > 0
    ensures n1 * n2 + (n0 - 1) * n1 * n2 == n0 * n1 * n2
  {
    MulSucc(n0 - 1, n1);
    var u := (n0 - 1) * n1;
    assert u + n1 == n0 * n1;
    assert (u + n1) * n2 == u * n2 + n1 * n2;
  }

  lemma FlatIndexBound(t: nat, b: nat, c: nat, n0: nat, n1: nat, n2: nat)
    requires t < n0 && b < n1 && c < n2
    ensures FlatIndex(t, b, c, n1, n2) < n0 * n1 * n2
  {
    var u := t * n1 + b;
    MulSucc(t, n1);
    MulMonotone(t + 1, n0, n1);
    assert u + 1 <= n0 * n1;
    MulSucc(u, n2);
    MulMonotone(u + 1, n0 * n1, n2);
  }

  lemma {:induction false} Flatten2Length<T>(rows: seq<seq<T>>, n1: nat, n2: nat)
    requires Shaped2(rows, n1, n2)
    ensures |Flatten2(rows)| == n1 * n2
  {
    if rows != [] {
      Flatten2Length(rows[1..], n1 - 1, n2);
      MulSucc(n1 - 1, n2);
    }
  }

  lemma {:induction false} Flatten2At<T>(rows: seq<seq<T>>, n1: nat, n2: nat, b: nat, c: nat)
    requires Shaped2(rows, n1, n2) && b < n1 && c < n2
    ensures b * n2 + c < |Flatten2(rows)|
    ensures Flatten2(rows)[b * n2 + c] == rows[b][c]
  {
    Flatten2Length(rows[1..], n1 - 1, n2);
    if b > 0 {
      Flatten2At(rows[1..], n1 - 1, n2, b - 1, c);
      RowShift(b, c, n2);
    }
  }

  lemma {:induction false} Flatten3Length<T>(g: seq<seq<seq<T>>>, n0: nat, n1: nat, n2: nat)
    requires Shaped3(g, n0, n1, n2)
    ensures |Flatten3(g)| == n0 * n1 * n2
  {
    if g != [] {
      Flatten2Length(g[0], n1, n2);
      Flatten3Length(g[1..], n0 - 1, n1, n2);
      SizeStep(n0, n1, n2);
    }
  }

  /** Entry `[t][b][c]` sits at flat index `FlatIndex(t, b, c, n1, n2)`. */
  lemma {:induction false} Flatten3At<T>(g: seq<seq<seq<T>>>, n0: nat, n1: nat, n2: nat, t: nat, b: nat, c: nat)
    requires Shaped3(g, n0, n1, n2) && t < n0 && b < n1 && c < n2
    ensures FlatIndex(t, b, c, n1, n2) < |Flatten3(g)|
    ensures Flatten3(g)[FlatIndex(t, b, c, n1, n2)] == g[t][b][c]
  {
    Flatten2Length(g[0], n1, n2);
    Flatten3Length(g, n0, n1, n2);
    FlatIndexBound(t, b, c, n0, n1, n2);
    if t == 0 {
      Flatten2At(g[0], n1, n2, b, c);
    } else {
      Flatten3At(g[1..], n0 - 1, n1, n2, t - 1, b, c);
      FlatIndexShift(t, b, c, n1, n2);
    }
  }

  /** `np.array(flat).reshape((n0, n1, n2))`. */
  function Reshape<T>(flat: seq<T>, n0: nat, n1: nat, n2: nat): (g: seq<seq<seq<T>>>)
    requires |flat| == n0 * n1 * n2
    ensures Shaped3(g, n0, n1, n2)
  {
    seq(n0, t requires 0 <= t < n0 =>
      seq(n1, b requires 0 <= b < n1 =>
        seq(n2, c requires 0 <= c < n2 =>
          FlatIndexBound(t, b, c, n0, n1, n2);
          flat[FlatIndex(t, b, c, n1, n2)])))
  }

  lemma ReshapeAt<T>(flat: seq<T>, n0: nat, n1: nat, n2: nat, t: nat, b: nat, c: nat)
    requires |flat| == n0 * n1 * n2 && t < n0 && b < n1 && c < n2
    ensures FlatIndex(t, b, c, n1, n2) < |flat|
    ensures Reshape(flat, n0, n1, n2)[t][b][c] == flat[FlatIndex(t, b, c, n1, n2)]
  {
    FlatIndexBound(t, b, c, n0, n1, n2);
  }

  /** Reshaping undoes flattening. */
  lemma ReshapeFlatten<T>(g: seq<seq<seq<T>>>, n0: nat, n1: nat, n2: nat)
    requires Shaped3(g, n0, n1, n2)
    ensures |Flatten3(g)| == n0 * n1 * n2
    ensures Reshape(Flatten3(g), n0, n1, n2) == g
  {
    Flatten3Length(g, n0, n1, n2);
    var h := Reshape(Flatten3(g), n0, n1, n2);
    forall t | 0 <= t < n0 ensures h[t] == g[t] {
      forall b | 0 <= b < n1 ensures h[t][b] == g[t][b] {
        forall c | 0 <= c < n2 ensures h[t][b][c] == g[t][b][c] {
          Flatten3At(g, n0, n1, n2, t, b, c);
          ReshapeAt(Flatten3(g), n0, n1, n2, t, b, c);
        }
      }
    }
  }

  // ---------------------------------------------------------------------------
  // itertools.product and pool.map

  /** The cube of coordinate triples, `[t][b][c] = (xs[t], ys[b], zs[c])`. */
  function Cube(xs: seq<real>, ys: seq<real>, zs: seq<real>): (g: seq<seq<seq<(real, real, real)>>>)
    ensures Shaped3(g, |xs|, |ys|, |zs|)
  {
    seq(|xs|, t requires 0 <= t < |xs| =>
      seq(|ys|, b requires 0 <= b < |ys| =>
        seq(|zs|, c requires 0 <= c < |zs| => (xs[t], ys[b], zs[c]))))
  }

  /** `list(itertools.product(xs, ys, zs))`: the last axis varies fastest. */
  function Product3(xs: seq<real>, ys: seq<real>, zs: seq<real>): seq<(real, real, real)> {
    Flatten3(Cube(xs, ys, zs))
  }

  /** The product has one item per coordinate triple, at its row-major index. */
  lemma ProductAt(xs: seq<real>, ys: seq<real>, zs: seq<real>, t: nat, b: nat, c: nat)
    requires t < |xs| && b < |ys| && c < |zs|
    ensures |Product3(xs, ys, zs)| == |xs| * |ys| * |zs|
    ensures FlatIndex(t, b, c, |ys|, |zs|) < |Product3(xs, ys, zs)|
    ensures Product3(xs, ys, zs)[FlatIndex(t, b, c, |ys|, |zs|)] == (xs[t], ys[b], zs[c])
  {
    Flatten3Length(Cube(xs, ys, zs), |xs|, |ys|, |zs|);
    Flatten3At(Cube(xs, ys, zs), |xs|, |ys|, |zs|, t, b, c);
  }

  /**
   * `pool.map(f, items)`: one evaluation per item, results in item order
   * whatever order the workers finish in. `calls` counts the evaluations.
   */
  method MapInOrder<T>(f: T -> real, items: seq<T>) returns (out: seq<real>, ghost calls: nat)
    ensures |out| == |items| && calls == |items|
    ensures forall k :: 0 <= k < |items| ==> out[k] == f(items[k])
  {
    out := [];
    calls := 0;
    for k := 0 to |items|
      invariant |out| == k && calls == k
      invariant forall i :: 0 <= i < k ==> out[i] == f(items[i])
    {
      out := out + [f(items[k])];
      calls := calls + 1;
    }
  }

  // ---------------------------------------------------------------------------
  // KcMM

  /**
   * The value `RegularGridInterpolator((tau, l2, l1), integrals, bounds_error=False,
   * fill_value=None)` is built from: the three axes and the dense array.
   */
  datatype RegularGrid = RegularGrid(tauAxis: seq<real>, l2Axis: seq<real>, l1Axis: seq<real>,
                                     values: seq<seq<seq<real>>>)

  /** `values[t][b][c]` is the integrand at `(tau[t], l2[b], l1[c])`, for every node of the grid. */
  ghost predicate GridOf(g: RegularGrid, f: ((real, real, real)) -> real, taus: seq<real>, l2s: seq<real>, l1s: seq<real>) {
    && g.tauAxis == taus && g.l2Axis == l2s && g.l1Axis == l1s
    && Shaped3(g.values, |taus|, |l2s|, |l1s|)
    && forall t, b, c :: 0 <= t < |taus| && 0 <= b < |l2s| && 0 <= c < |l1s| ==>
         g.values[t][b][c] == f((taus[t], l2s[b], l1s[c]))
  }

  method KcMM(f: ((real, real, real)) -> real, l1s: seq<real>, l2s: seq<real>, taus: seq<real>)
    returns (g: RegularGrid, ghost evaluations: nat)
    ensures evaluations == |taus| * |l2s| * |l1s|
    ensures g.tauAxis == taus && g.l2Axis == l2s && g.l1Axis == l1s
    ensures Shaped3(g.values, |taus|, |l2s|, |l1s|)
    ensures forall t, b, c :: 0 <= t < |taus| && 0 <= b < |l2s| && 0 <= c < |l1s| ==>
      g.values[t][b][c] == f((taus[t], l2s[b], l1s[c]))
    ensures GridOf(g, f, taus, l2s, l1s)
  {
    var params := Product3(taus, l2s, l1s);
    Flatten3Length(Cube(taus, l2s, l1s), |taus|, |l2s|, |l1s|);
    var integrals;
    integrals, evaluations := MapInOrder(f, params);
    var values := Reshape(integrals, |taus|, |l2s|, |l1s|);
    forall t, b, c | 0 <= t < |taus| && 0 <= b < |l2s| && 0 <= c < |l1s|
      ensures values[t][b][c] == f((taus[t], l2s[b], l1s[c]))
    {
      ProductAt(taus, l2s, l1s, t, b, c);
      ReshapeAt(integrals, |taus|, |l2s|, |l1s|, t, b, c);
    }
    g := RegularGrid(taus, l2s, l1s, values);
  }
}
