/**
 * The generalised Matérn basis function `gMdef`, its derivative `gdMdef` and
 * the convolution integrand (marcia/Archive/kernels.py). The special functions,
 * floating-point division, the compiled backend `marcia.backend.kernel` and the
 * quadrature are opaque: they are fields of `Numerics`, supplied by the caller.
 * What is modelled is how the formulas are put together and which branch runs.
 */
module Basis {
  import opened Results

  /** The smoothness as the configuration gives it: the label `'0.0'` or a number. */
  datatype Nu = Label(text: string) | Number(v: real)

  /** The smoothness regimes `gMdef` distinguishes. */
  datatype Smoothness = SquaredExponential | Matern52 | Matern72 | GeneralMatern(nu: real)

  datatype BasisError =
    | UnresolvedName(name: string)  // NameError: a helper called without `self.`
    | UnsupportedSmoothness         // TypeError: arithmetic on a label other than '0.0'

  /** The opaque numerical primitives. */
  datatype Numerics = Numerics(
    exp: real -> real,                                       // np.exp
    div: (real, real) -> real,                               // float division (inf/nan instead of raising)
    pow: (real, real) -> real,                               // x ** y
    sqrt: real -> real,                                      // np.sqrt
    kv: (real, real) -> real,                                // scipy.special.kv(order, x)
    gamma: real -> real,                                     // scipy.special.gamma
    pi: real,                                                // np.pi
    backend: (real, real, real) -> real,                     // kernel.gMdef(tau, l, nu) for nu = 5/2, 7/2
    backendParts: (real, real, real) -> (real, real, real),  // kernel.gMdef(tau, l, nu) for other nu
    backendDeriv: (real, real, real) -> (real, real),        // kernel.gdMdef(tau, l, nu)
    quad: (real -> real) -> real)                            // value part of quad over (-inf, inf)

  function Abs(x: real): real {
    if x < 0.0 then -x else x
  }

  /** Which branch of `gMdef` a configured smoothness takes (the tests `nu == '0.0'`, `== 5/2`, `== 7/2`). */
  function Resolve(nu: Nu): (r: Result<Smoothness, BasisError>)
    ensures r.Err? <==> nu.Label? && nu.text != "0.0"
    ensures r.Ok? && r.value.GeneralMatern? ==> nu == Number(r.value.nu) && r.value.nu != 2.5 && r.value.nu != 3.5
  {
    match nu
    case Label(s) => if s == "0.0" then Ok(SquaredExponential) else Err(UnsupportedSmoothness)
    case Number(v) =>
      if v == 2.5 then Ok(Matern52)
      else if v == 3.5 then Ok(Matern72)
      else Ok(GeneralMatern(v))
  }

  /** The configuration value that selects a regime. */
  function ToNu(s: Smoothness): Nu {
    match s
    case SquaredExponential => Label("0.0")
    case Matern52 => Number(2.5)
    case Matern72 => Number(3.5)
    case GeneralMatern(v) => Number(v)
  }

  /** Resolving loses nothing: every accepted value comes back from its regime. */
  lemma ResolveRoundTrip(nu: Nu)
    requires Resolve(nu).Ok?
    ensures ToNu(Resolve(nu).value) == nu
  {
  }

  /** Every regime is reached, and only from its own value (`GeneralMatern` never at 5/2 or 7/2). */
  lemma ResolveOnto(s: Smoothness)
    requires s.GeneralMatern? ==> s.nu != 2.5 && s.nu != 3.5
    ensures Resolve(ToNu(s)) == Ok(s)
  {
  }

  /** `_spkv_(tau, l1)`: the order-2 modified Bessel function at `3|tau|/l1`. */
  function SpKv(num: Numerics, tau: real, l1: real): real {
    num.kv(2.0, num.div(3.0 * Abs(tau), l1))
  }

  /** `gMdef(tau, nu, l1)` for a resolved smoothness, with `self._spkv_` and `self._spgamma_`. */
  function BasisValue(num: Numerics, tau: real, s: Smoothness, l1: real): real {
    match s
    case SquaredExponential => num.exp(num.div(-(tau * tau), 2.0 * (l1 * l1)))  // |tau|^2 == tau^2
    case Matern52 => num.div(num.backend(tau, l1, 2.5) * SpKv(num, tau, l1), num.pi)
    case Matern72 => num.backend(tau, l1, 3.5)
    case GeneralMatern(nu) => GeneralMaternValue(num, tau, nu, l1)
  }

  /** The generalised Matérn branch of `gMdef` (lines 113-116), from the backend's three parts. */
  function GeneralMaternValue(num: Numerics, tau: real, nu: real, l1: real): real {
    var (a0, b0, c) := num.backendParts(tau, l1, nu);
    var a := a0 * num.pow(num.div(num.gamma(nu / 2.0 - 0.25), num.gamma(nu / 2.0 + 0.25)), 0.5)
                * num.pow(num.div(num.gamma(nu + 0.5), num.gamma(nu)), 0.25);
    var b := num.div(b0, num.gamma(nu / 2.0 - 0.25));
    num.div(num.pow(a, 2.0) * b * num.pow(c, nu / 2.0 - 0.25) * SpKv(num, tau, l1), num.pi)
  }

  /** The squared-exponential basis depends on the lag only through its absolute value. */
  lemma SquaredExponentialEven(num: Numerics, tau: real, l1: real)
    ensures BasisValue(num, -tau, SquaredExponential, l1) == BasisValue(num, tau, SquaredExponential, l1)
  {
    assert (-tau) * (-tau) == tau * tau;
  }

  /** `gMdef` with the helpers called as methods: fails only on an unsupported label. */
  function GMDef(num: Numerics, tau: real, nu: Nu, l1: real): (r: Result<real, BasisError>)
    ensures r.Ok? <==> Resolve(nu).Ok?
    ensures r.Err? ==> r.error == UnsupportedSmoothness
    ensures r.Ok? ==> r.value == BasisValue(num, tau, Resolve(nu).value, l1)
  {
    match Resolve(nu)
    case Ok(s) => Ok(BasisValue(num, tau, s, l1))
    case Err(e) => Err(e)
  }

  /**
   * `gMdef` as written: the 5/2 branch calls `_spkv_` and the general branch
   * `_spgamma_` without `self.`, so both raise NameError.
   */
  function GMDefAsWritten(num: Numerics, tau: real, nu: Nu, l1: real): (r: Result<real, BasisError>)
    ensures r.Ok? <==> nu == Label("0.0") || nu == Number(3.5)
    ensures r.Err? ==> r.error.UnresolvedName?
  {
    match nu
    case Label(s) =>
      if s == "0.0" then Ok(BasisValue(num, tau, SquaredExponential, l1))
      else Err(UnresolvedName("_spgamma_"))
    case Number(v) =>
      if v == 2.5 then Err(UnresolvedName("_spkv_"))
      else if v == 3.5 then Ok(BasisValue(num, tau, Matern72, l1))
      else Err(UnresolvedName("_spgamma_"))
  }

  /** As written, only the squared-exponential and 7/2 branches return, and they agree with `GMDef`. */
  lemma GMDefAsWrittenAgrees(num: Numerics, tau: real, nu: Nu, l1: real)
    ensures GMDefAsWritten(num, tau, nu, l1).Ok? <==> Resolve(nu) == Ok(SquaredExponential) || Resolve(nu) == Ok(Matern72)
    ensures GMDefAsWritten(num, tau, nu, l1).Ok? ==> GMDefAsWritten(num, tau, nu, l1) == GMDef(num, tau, nu, l1)
  {
  }

  /** The Matérn 5/2 input the as-written code cannot evaluate, whereas the intended one can. */
  lemma GMDefAsWrittenFails52(num: Numerics, tau: real, l1: real)
    ensures GMDefAsWritten(num, tau, Number(2.5), l1) == Err(UnresolvedName("_spkv_"))
    ensures GMDef(num, tau, Number(2.5), l1) == Ok(BasisValue(num, tau, Matern52, l1))
  {
  }

  /** `gdMdef(tau, nu, l1)` with `self._spgamma_`: a label makes `2. * nu` raise TypeError. */
  function GDMDef(num: Numerics, tau: real, nu: Nu, l1: real): (r: Result<real, BasisError>)
    ensures r.Ok? <==> nu.Number?
  {
    match nu
    case Label(_) => Err(UnsupportedSmoothness)
    case Number(v) =>
      var b := num.kv(0.25 * (5.0 - 2.0 * v), num.div(num.sqrt(2.0) * num.sqrt(v) * num.sqrt(tau * tau), l1));
      var c := num.sqrt(num.div(num.gamma(0.5 + v), num.gamma(v)));
      var (a, d0) := num.backendDeriv(tau, l1, v);
      var d := d0 * num.gamma(0.25 + v / 2.0);
      Ok(num.div(a * b * c, d))
  }

  /** `gdMdef` as written: line 124 names `_spgamma_` without `self.`, so every numeric call raises. */
  function GDMDefAsWritten(num: Numerics, tau: real, nu: Nu, l1: real): (r: Result<real, BasisError>)
    ensures r.Err?
    ensures r.error == UnresolvedName("_spgamma_") <==> nu.Number?
  {
    match nu
    case Label(_) => Err(UnsupportedSmoothness)
    case Number(_) => Err(UnresolvedName("_spgamma_"))
  }

  /** As written the derivative never returns; the intended one returns for every number. */
  lemma GDMDefAsWrittenNeverReturns(num: Numerics, tau: real, nu: Nu, l1: real)
    ensures GDMDefAsWritten(num, tau, nu, l1).Err?
    ensures nu.Number? ==> GDMDef(num, tau, nu, l1).Ok?
  {
  }

  /** One task's basis function of the lag, for a fixed smoothness and length scale. */
  function BasisAt(num: Numerics, s: Smoothness, l: real): real -> real {
    t => BasisValue(num, t, s, l)
  }

  /** The function of `u` that a convolution of `f` and `g` at lag `tau` integrates. */
  function Convolve(f: real -> real, g: real -> real, tau: real): real -> real {
    u => f(u) * g(tau - u)
  }

  /**
   * The function `quad` integrates for lag `tau`: the first task's basis at
   * `u` with length scale `l1` times the second task's at `tau - u` with `l2`.
   */
  function Convolution(num: Numerics, s1: Smoothness, l1: real, s2: Smoothness, l2: real, tau: real): real -> real {
    Convolve(BasisAt(num, s1, l1), BasisAt(num, s2, l2), tau)
  }

  /**
   * `gMMdef_integrand(params)`: the convolution of the two tasks' basis
   * functions. The tuple is unpacked as `tau, l1, l2`, so its second component
   * goes with the first task's smoothness.
   */
  function Integrand(num: Numerics, s1: Smoothness, s2: Smoothness, p: (real, real, real)): real {
    var (tau, l1, l2) := p;
    num.quad(Convolution(num, s1, l1, s2, l2, tau))
  }

  /**
   * Exchanging the two tasks and substituting `tau - u` for `u` leaves the
   * integrand unchanged, for every pair of smoothness values: swapping the
   * tasks does not change the convolution, up to a reflection about `tau / 2`
   * that leaves an integral over the whole line unchanged.
   */
  lemma ConvolutionExchange(num: Numerics, s1: Smoothness, x: real, s2: Smoothness, y: real, tau: real, u: real)
    ensures Convolution(num, s1, x, s2, y, tau)(u) == Convolution(num, s2, y, s1, x, tau)(tau - u)
  {
    ConvolveExchange(BasisAt(num, s1, x), BasisAt(num, s2, y), tau, u);
  }

  /** Exchanging the factors of a convolution reflects its integrand about `tau / 2`. */
  lemma ConvolveExchange(f: real -> real, g: real -> real, tau: real, u: real)
    ensures Convolve(f, g, tau)(u) == Convolve(g, f, tau)(tau - u)
  {
    assert tau - (tau - u) == u;
  }

  /**
   * For two squared-exponential tasks the integrand for lag `-tau` at `-u`
   * equals the one for lag `tau` at `u`: the reflection that leaves an integral
   * over the whole line unchanged.
   */
  lemma ConvolutionReflect(num: Numerics, l1: real, l2: real, tau: real, u: real)
    ensures Convolution(num, SquaredExponential, l1, SquaredExponential, l2, -tau)(-u)
         == Convolution(num, SquaredExponential, l1, SquaredExponential, l2, tau)(u)
  {
    SquaredExponentialEven(num, u, l1);
    SquaredExponentialEven(num, tau - u, l2);
    assert -tau - -u == -(tau - u);
  }

  /**
   * The property of an integral over the whole line that the model relies on:
   * substituting `c - u` for `u` does not change it.
   */
  ghost predicate ReflectionInvariant(num: Numerics, c: real) {
    forall f: real -> real, g: real -> real :: Reflected(f, g, c) ==> num.quad(f) == num.quad(g)
  }

  /** `f` is `g` reflected about `c / 2`. */
  ghost predicate Reflected(f: real -> real, g: real -> real, c: real) {
    forall u :: f(u) == g(c - u)
  }

  /** Exchanging the factors of a convolution gives its reflection about `tau / 2`. */
  lemma ConvolveReflected(f: real -> real, g: real -> real, tau: real)
    ensures Reflected(Convolve(f, g, tau), Convolve(g, f, tau), tau)
  {
    forall u ensures Convolve(f, g, tau)(u) == Convolve(g, f, tau)(tau - u) {
      ConvolveExchange(f, g, tau, u);
    }
  }

  /** Both convolutions of a pair, one the reflection of the other. */
  lemma ConvolutionsReflected(num: Numerics, s1: Smoothness, x: real, s2: Smoothness, y: real, tau: real)
    ensures Reflected(Convolution(num, s1, x, s2, y, tau), Convolution(num, s2, y, s1, x, tau), tau)
  {
    ConvolveReflected(BasisAt(num, s1, x), BasisAt(num, s2, y), tau);
  }

  /**
   * `gMMdef_integrand` with the tasks swapped at the swapped length scales: the
   * integral is the same, so the grid of pair `(j, i)` holds the values of pair
   * `(i, j)` with its two length-scale coordinates exchanged.
   */
  lemma IntegrandExchange(num: Numerics, s1: Smoothness, s2: Smoothness, tau: real, x: real, y: real)
    requires ReflectionInvariant(num, tau)
    ensures Integrand(num, s1, s2, (tau, x, y)) == Integrand(num, s2, s1, (tau, y, x))
  {
    ConvolutionsReflected(num, s1, x, s2, y, tau);
  }
}
