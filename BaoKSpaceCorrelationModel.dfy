/** The k-space BAO model: peak and smooth correlation functions obtained by
    transforming the tabulated power spectra times a k-space distortion
    D(k, mu_k), anisotropic or isotropic BAO scales checked against dilation
    limits, and optional metal, radiation, multiplicative and additive
    r-space terms.

    The two transforms are external numerical objects. What the model keeps of
    them is their lifecycle: not yet initialised, or ready with the distortion
    parameters they were last computed from and the number of times they were
    redone. Their correlation values, the convergence flags their re-transforms
    report, and the r-space sub-models are inputs (`Externals`). */
module KSpaceModel {
  import opened Common
  import AbsModel

  datatype RangeError = RMinNotBelowRMax | RMinNotPositive | DilMinAboveDilMax | DilMinNotPositive

  datatype EvalError = MinDilationLimit | MaxDilationLimit

  /** The constructor's switches; the two distortion flags are set when the
      corresponding distortion specification string is non-empty. */
  datatype Options = Options(anisotropic: bool, decoupled: bool, nlBroadband: bool,
                             metals: bool, radiation: bool, crossCorrelation: bool,
                             distAdd: bool, distMul: bool, verbose: bool)

  // ---- Parameter layout ----

  /** The parameters the model defines, in order: the four linear-bias
      parameters, the second tracer's three in cross-correlation mode, two
      non-linear broadening parameters and five BAO peak parameters. */
  function KSpaceParameters(cross: bool): (ps: seq<Parameter>)
    ensures |ps| == LayoutSize(cross)
  {
    LinearBlock() + (if cross then CrossBlock() else []) + BroadeningAndPeakBlock()
  }

  function LinearBlock(): seq<Parameter> {
    [Parameter("beta", 1.4, 0.1, true),
     Parameter("(1+beta)*bias", -0.336, 0.03, true),
     Parameter("gamma-bias", 3.8, 0.3, true),
     Parameter("gamma-beta", 0.0, 0.1, true)]
  }

  function CrossBlock(): seq<Parameter> {
    [Parameter("delta-v", 0.0, 10.0, true),
     Parameter("bias2", 3.6, 0.1, true),
     Parameter("beta2*bias2", 1.0, 0.05, true)]
  }

  function BroadeningAndPeakBlock(): seq<Parameter> {
    [Parameter("SigmaNL-perp", 3.26, 0.3, true),
     Parameter("1+f", 2.0, 0.1, true),
     Parameter("BAO amplitude", 1.0, 0.15, true),
     Parameter("BAO alpha-iso", 1.0, 0.02, true),
     Parameter("BAO alpha-parallel", 1.0, 0.1, true),
     Parameter("BAO alpha-perp", 1.0, 0.1, true),
     Parameter("gamma-scale", 0.0, 0.5, true)]
  }

  function LayoutSize(cross: bool): nat {
    if cross then 14 else 11
  }

  /** Index of SigmaNL-perp (the source's _nlBase). */
  function NlBase(cross: bool): nat {
    if cross then 7 else 4
  }

  /** Index of the BAO amplitude (the source's _baoBase). */
  function BaoBase(cross: bool): nat {
    NlBase(cross) + 2
  }

  /** The index variables land on the parameters they name, in both modes:
      the second tracer's block sits at 4..6 in cross-correlation mode and
      shifts the broadening and peak blocks by three. */
  lemma KSpaceLayout(cross: bool)
    ensures var ps := KSpaceParameters(cross);
      && ps[0].name == "beta" && ps[1].name == "(1+beta)*bias"
      && ps[2].name == "gamma-bias" && ps[3].name == "gamma-beta"
      && ps[NlBase(cross)].name == "SigmaNL-perp" && ps[NlBase(cross) + 1].name == "1+f"
      && ps[BaoBase(cross)].name == "BAO amplitude" && ps[BaoBase(cross) + 1].name == "BAO alpha-iso"
      && ps[BaoBase(cross) + 2].name == "BAO alpha-parallel" && ps[BaoBase(cross) + 3].name == "BAO alpha-perp"
      && ps[BaoBase(cross) + 4].name == "gamma-scale" && BaoBase(cross) + 4 == |ps| - 1
    ensures cross ==> (KSpaceParameters(cross)[4].name == "delta-v" &&
      KSpaceParameters(cross)[5].name == "bias2" && KSpaceParameters(cross)[6].name == "beta2*bias2")
  {
    var ps := KSpaceParameters(cross);
    var k := if cross then 3 else 0;
    assert ps[4 + k..] == BroadeningAndPeakBlock();
  }

  /** Cross-correlation mode inserts its three parameters after the linear
      block and leaves every other parameter as it is. */
  lemma CrossModeInsertsThree()
    ensures KSpaceParameters(true) ==
      KSpaceParameters(false)[..4] + CrossBlock() + KSpaceParameters(false)[4..]
  {
    assert KSpaceParameters(false)[..4] == LinearBlock();
    assert KSpaceParameters(false)[4..] == BroadeningAndPeakBlock();
  }

  // ---- Constructor range validation ----

  /** The radial range the transforms cover and its number of points. */
  datatype TransformRange = TransformRange(rmin: real, rmax: real, nr: int)

  /** The smallest integer not below x (std::ceil followed by the int cast). */
  function Ceiling(x: real): (c: int)
    ensures x <= c as real < x + 1.0
  {
    -((-x).Floor)
  }

  /** The constructor's checks, in order, then the range widened by the
      dilation limits and the interpolation points spaced about 1 apart. */
  function TransformRangeFor(rmin: real, rmax: real, dilmin: real, dilmax: real): (r: Result<TransformRange, RangeError>)
    ensures r.Err? <==> !(rmin < rmax && rmin > 0.0 && dilmin <= dilmax && dilmin > 0.0)
    ensures r == Err(RMinNotBelowRMax) <==> rmin >= rmax
    ensures r == Err(RMinNotPositive) <==> rmin < rmax && rmin <= 0.0
    ensures r == Err(DilMinAboveDilMax) <==> rmin < rmax && rmin > 0.0 && dilmin > dilmax
    ensures r == Err(DilMinNotPositive) <==> rmin < rmax && rmin > 0.0 && dilmin <= dilmax && dilmin <= 0.0
    ensures r.Ok? ==> r.value == TransformRange(rmin * dilmin, rmax * dilmax, Ceiling(rmax * dilmax - rmin * dilmin))
    ensures r.Ok? ==> 0.0 < r.value.rmin < r.value.rmax && r.value.nr >= 1
    ensures r.Ok? ==> r.value.rmax - r.value.rmin <= r.value.nr as real < r.value.rmax - r.value.rmin + 1.0
  {
    if rmin >= rmax then Err(RMinNotBelowRMax)
    else if rmin <= 0.0 then Err(RMinNotPositive)
    else if dilmin > dilmax then Err(DilMinAboveDilMax)
    else if dilmin <= 0.0 then Err(DilMinNotPositive)
    else
      WidenedRange(rmin, rmax, dilmin, dilmax);
      var lo := Scaled(rmin, dilmin);
      var hi := Scaled(rmax, dilmax);
      Ok(TransformRange(lo, hi, Ceiling(hi - lo)))
  }

  function Scaled(r: real, dilation: real): real {
    r * dilation
  }

  lemma WidenedRange(rmin: real, rmax: real, dilmin: real, dilmax: real)
    requires 0.0 < rmin < rmax && 0.0 < dilmin <= dilmax
    ensures 0.0 < Scaled(rmin, dilmin) < Scaled(rmax, dilmax)
  {
    assert rmin * dilmin <= rmin * dilmax;
    assert rmin * dilmax < rmax * dilmax;
  }

  // ---- The k-space distortion D(k, mu_k) ----

  /** The fields the evaluation stores for the distortion model: the evolved
      beta of each tracer and the squared broadening lengths. */
  datatype Distortion = Distortion(betaz: real, beta2z: real, snlPerp2: real, snlPar2: real)

  /** The linear (Kaiser) part (1 + beta mu^2)(1 + beta2 mu^2); a single tracer
      is its own second tracer. */
  function LinearPart(d: Distortion, cross: bool, mu2: real): (lin: real)
    ensures !cross ==> lin == Tracer(d.betaz, mu2) * Tracer(d.betaz, mu2)
    ensures mu2 == 0.0 ==> lin == 1.0
  {
    Tracer(d.betaz, mu2) * Tracer(if cross then d.beta2z else d.betaz, mu2)
  }

  function Tracer(beta: real, mu2: real): (t: real)
    ensures mu2 == 0.0 ==> t == 1.0
  {
    1.0 + beta * mu2
  }

  /** The squared broadening length along mu_k. */
  function Broadening(d: Distortion, mu2: real): real {
    d.snlPar2 * mu2 + d.snlPerp2 * (1.0 - mu2)
  }

  /** The non-linear damping exp(-snl2 k^2 / 2). */
  function Damping(snl2: real, k: real, exp: real -> real): real {
    exp(-0.5 * snl2 * k * k)
  }

  /** D(k, mu_k): the damping along mu_k times the linear part. */
  function KSpaceDistortion(d: Distortion, cross: bool, k: real, muk: real, exp: real -> real): real {
    var mu2 := muk * muk;
    Damping(Broadening(d, mu2), k, exp) * LinearPart(d, cross, mu2)
  }

  /** Across the line of sight only the perpendicular broadening acts and the
      linear part is 1, in either mode. */
  lemma DistortionAcrossLineOfSight(d: Distortion, cross: bool, k: real, exp: real -> real)
    ensures KSpaceDistortion(d, cross, k, 0.0, exp) == Damping(d.snlPerp2, k, exp)
  {
    assert Broadening(d, 0.0) == d.snlPerp2;
    assert LinearPart(d, cross, 0.0) == 1.0;
  }

  /** Without broadening the distortion at mu_k = 0 is exactly 1 when the
      exponential maps 0 to 1. */
  lemma NoBroadeningLeavesUnitDistortion(d: Distortion, cross: bool, k: real, exp: real -> real)
    requires d.snlPerp2 == 0.0 && exp(0.0) == 1.0
    ensures KSpaceDistortion(d, cross, k, 0.0, exp) == 1.0
  {
    DistortionAcrossLineOfSight(d, cross, k, exp);
    assert -0.5 * d.snlPerp2 * k * k == 0.0;
  }

  // ---- Transform lifecycle ----

  /** A transform either awaits its first initialisation, or is ready with
      the distortion it was last computed from and its number of re-transforms. */
  datatype TransformState = Uninitialized | Ready(distortion: Distortion, transforms: nat)

  /** One transform's step during an evaluation with changed parameters: the
      first call initialises it, later calls redo it when `redo` holds. */
  function Refresh(t: TransformState, d: Distortion, redo: bool): (t': TransformState)
    ensures t'.Ready?
    ensures t.Uninitialized? ==> t' == Ready(d, 0)
    ensures t.Ready? ==> (t'.transforms == t.transforms + 1 <==> redo)
    ensures t.Ready? && !redo ==> t' == t
    ensures t != t' ==> t'.distortion == d
  {
    match t
    case Uninitialized => Ready(d, 0)
    case Ready(_, n) => if redo then Ready(d, n + 1) else t
  }

  /** Whether the step re-transformed and what that re-transform reported. */
  function RefreshConverged(t: TransformState, redo: bool, transformConverged: bool): bool {
    t.Uninitialized? || !redo || transformConverged
  }

  /** Console output of the evaluation, in order. */
  datatype Notice = InitializedPeak | InitializedNoWiggles | NotConverged | NoMoreWarnings

  const MaxWarnings: nat := 10

  /** What the n-th non-converged evaluation prints (n counts from 1). */
  function WarningNotices(n: nat): (out: seq<Notice>)
    ensures multiset(out)[NotConverged] == (if n <= MaxWarnings then 1 else 0)
    ensures multiset(out)[NoMoreWarnings] == (if n == MaxWarnings then 1 else 0)
    ensures multiset(out)[InitializedPeak] == 0 && multiset(out)[InitializedNoWiggles] == 0
  {
    if n <= MaxWarnings then [NotConverged] + (if n == MaxWarnings then [NoMoreWarnings] else []) else []
  }

  /** Everything the first n non-converged evaluations print. */
  function AllWarnings(n: nat): seq<Notice> {
    if n == 0 then [] else AllWarnings(n - 1) + WarningNotices(n)
  }

  /** However many evaluations fail to converge, at most ten warnings are
      printed, and the closing notice is printed once, after the tenth. */
  lemma {:induction false} WarningsAreRateLimited(n: nat)
    ensures multiset(AllWarnings(n))[NotConverged] == (if n <= MaxWarnings then n else MaxWarnings)
    ensures multiset(AllWarnings(n))[NoMoreWarnings] == (if n < MaxWarnings then 0 else 1)
    ensures multiset(AllWarnings(n))[InitializedPeak] == 0
  {
    if n > 0 {
      WarningsAreRateLimited(n - 1);
      var before, now := multiset(AllWarnings(n - 1)), multiset(WarningNotices(n));
      assert multiset(AllWarnings(n)) == before + now;
    }
  }

  /** The fields the smooth transform sees: without broadband broadening the
      broadening lengths are zeroed (and stay zero in the stored fields). */
  function SmoothFields(d: Distortion, nlBroadband: bool): Distortion {
    if nlBroadband then d else d.(snlPerp2 := 0.0, snlPar2 := 0.0)
  }

  /** The verbose notices of the initialisations, peak first. */
  function InitNotices(verbose: bool, peakInitialised: bool, smoothInitialised: bool): seq<Notice> {
    if !verbose then []
    else (if peakInitialised then [InitializedPeak] else []) + (if smoothInitialised then [InitializedNoWiggles] else [])
  }

  /** The peak transform is redone when a broadening parameter or parameter
      0 changed; the smooth one likewise, except that without broadband
      broadening it ignores broadening changes. */
  function RedoPeak(nlChanged: bool, otherChanged: bool): bool {
    nlChanged || otherChanged
  }

  function RedoSmooth(nlBroadband: bool, nlChanged: bool, otherChanged: bool): bool {
    (nlBroadband && nlChanged) || otherChanged
  }

  /** Without broadband broadening the smooth transform is redone only for
      parameter 0 and, whenever it is (re)computed, it sees no broadening. */
  lemma SmoothTransformWithoutBroadband(nw: TransformState, d: Distortion, nlChanged: bool, otherChanged: bool)
    ensures var nw' := Refresh(nw, SmoothFields(d, false), RedoSmooth(false, nlChanged, otherChanged));
      && (nw.Ready? ==> (nw'.transforms > nw.transforms <==> otherChanged))
      && (nw' != nw ==> nw'.distortion == d.(snlPerp2 := 0.0, snlPar2 := 0.0))
  {
  }

  /** A transform is initialised once: after its first refresh, a refresh
      with nothing to redo leaves it as the first one left it. */
  lemma InitialiseOnce(t: TransformState, d: Distortion, d': Distortion, redo: bool)
    requires t.Uninitialized?
    ensures Refresh(Refresh(t, d, redo), d', false) == Ready(d, 0)
  {
  }

  // ---- Evaluation ----

  /** The external pieces one evaluation reads: the power law, the square
      root and the exponential, the two transforms' correlation functions, the
      convergence each re-transform would report, and the r-space sub-models. */
  datatype Externals = Externals(
    pow: (real, real) -> real, sqrt: real -> real,
    pkCorrelation: (TransformState, real, real) -> real,
    nwCorrelation: (TransformState, real, real) -> real,
    pkConverged: bool, nwConverged: bool,
    metal: (real, real, real) -> real, radiationTerm: (real, real, real) -> real,
    distMulTerm: (real, real, real) -> real, distAddTerm: (real, real, real) -> real)

  /** Inputs the evaluation divides by are non-zero. */
  predicate Evaluable(cross: bool, v: seq<real>, zref: real) {
    |v| == LayoutSize(cross) && 1.0 + v[0] != 0.0 && 1.0 + zref != 0.0 && (cross ==> v[5] != 0.0)
  }

  function Evolve(p: real, gamma: real, z: real, zref: real, pow: (real, real) -> real): real
    requires 1.0 + zref != 0.0
  {
    AbsModel.RedshiftEvolution(p, gamma, z, zref, pow)
  }

  /** bias^2 (bias times bias2 in cross mode) evolved with gamma-bias. */
  function BiasSq(cross: bool, v: seq<real>, z: real, zref: real, pow: (real, real) -> real): real
    requires Evaluable(cross, v, zref)
  {
    var bias := v[1] / (1.0 + v[0]);
    Evolve(if cross then bias * v[5] else bias * bias, v[2], z, zref, pow)
  }

  /** The distortion fields written by an evaluation before the transform
      stage: beta evolved with gamma-beta (beta2 = (beta2*bias2)/bias2 as well in
      cross mode; otherwise beta2z keeps its earlier value), and the squared
      broadening lengths. */
  function FieldsFor(cross: bool, v: seq<real>, z: real, zref: real, pow: (real, real) -> real,
                     previous: Distortion): (d: Distortion)
    requires Evaluable(cross, v, zref)
    ensures !cross ==> d.beta2z == previous.beta2z
  {
    var nl := NlBase(cross);
    var snlPerp := v[nl];
    var snlPar := snlPerp * v[nl + 1];
    Distortion(Evolve(v[0], v[3], z, zref, pow),
               if cross then Evolve(v[6] / v[5], v[3], z, zref, pow) else previous.beta2z,
               snlPerp * snlPerp, snlPar * snlPar)
  }

  /** Only parameter 0 and the broadening pair ask for a re-transform. After
      a successful evaluation, a change of gamma-beta (parameter 3) alone
      moves the evolved beta the transforms are built from, yet both
      initialised transforms are kept as they were. */
  lemma GammaBetaChangeLeavesTransforms(cross: bool, nlBroadband: bool, s: ParameterState, values: seq<real>,
                                        z: real, zref: real, pow: (real, real) -> real, previous: Distortion,
                                        pk: TransformState, nw: TransformState)
    requires s.WellFormed() && !AnyChanged(s) && |values| == |s.params| && Evaluable(cross, values, zref)
    requires forall i :: 0 <= i < |values| && i != 3 ==> values[i] == s.params[i].value
    requires values[3] != s.params[3].value
    requires pk.Ready? && nw.Ready?
    ensures var u := Update(s, values);
      var nl := NlBase(cross);
      AnyChanged(u) && !u.changed[nl] && !u.changed[nl + 1] && !u.changed[0]
    ensures var u := Update(s, values);
      var nl := NlBase(cross);
      var d := FieldsFor(cross, values, z, zref, pow, previous);
      && Refresh(pk, d, RedoPeak(u.changed[nl] || u.changed[nl + 1], u.changed[0])) == pk
      && Refresh(nw, SmoothFields(d, nlBroadband), RedoSmooth(nlBroadband, u.changed[nl] || u.changed[nl + 1], u.changed[0])) == nw
    ensures FieldsFor(cross, values, z, zref, pow, previous).betaz == Evolve(values[0], values[3], z, zref, pow)
  {
    var u := Update(s, values);
    assert u.changed[3];
    assert !u.changed[0];
  }

  /** The dilated coordinates at which the peak is read. */
  datatype BaoPoint = BaoPoint(scale: real, r: real, mu: real)

  /** Isotropic: one scale evolved with gamma-scale, mu unchanged.
      Anisotropic: scale = sqrt(apar^2 mu^2 + aperp^2 (1 - mu^2)) and
      mu' = apar mu / scale (only read when the scale passed the dilation check,
      so never with scale 0). */
  function BaoPointFor(anisotropic: bool, cross: bool, v: seq<real>, r: real, mu: real, z: real,
                       zref: real, pow: (real, real) -> real, sqrt: real -> real): (p: BaoPoint)
    requires Evaluable(cross, v, zref)
    ensures !anisotropic ==> p.mu == mu
    ensures p.r == r * p.scale
  {
    var b := BaoBase(cross);
    var gammaScale := v[b + 4];
    if anisotropic then
      var apar := Evolve(v[b + 2], gammaScale, z, zref, pow);
      var aperp := Evolve(v[b + 3], gammaScale, z, zref, pow);
      var scale := sqrt(AnisotropicScaleSq(apar, aperp, mu));
      BaoPoint(scale, r * scale, if scale != 0.0 then apar * mu / scale else 0.0)
    else
      var scale := Evolve(v[b + 1], gammaScale, z, zref, pow);
      BaoPoint(scale, r * scale, mu)
  }

  function AnisotropicScaleSq(apar: real, aperp: real, mu: real): real {
    apar * apar * (mu * mu) + aperp * aperp * (1.0 - mu * mu)
  }

  /** Along the line of sight the anisotropic scale is the parallel one, and
      across it the perpendicular one. */
  lemma AnisotropicScaleLimits(apar: real, aperp: real)
    ensures AnisotropicScaleSq(apar, aperp, 1.0) == apar * apar
    ensures AnisotropicScaleSq(apar, aperp, 0.0) == aperp * aperp
  {
  }

  /** biasSq (ampl peak + smooth), plus the metal and radiation terms, times
      (1 + multiplicative distortion), plus the evolved additive distortion. */
  function Compose(opts: Options, biasSq: real, ampl: real, peak: real, smooth: real,
                   metal: real, radiation: real, distMul: real, distAdd: real): (x: real)
    ensures var sum := biasSq * (ampl * peak + smooth) + (if opts.metals then metal else 0.0)
        + (if opts.radiation then radiation else 0.0);
      x == (if opts.distMul then 1.0 + distMul else 1.0) * sum + (if opts.distAdd then distAdd else 0.0)
  {
    var xi := biasSq * (ampl * peak + smooth);
    var xi1 := if opts.metals then xi + metal else xi;
    var xi2 := if opts.radiation then xi1 + radiation else xi1;
    var xi3 := if opts.distMul then xi2 * (1.0 + distMul) else xi2;
    if opts.distAdd then xi3 + distAdd else xi3
  }

  /** The additive distortion is added last: it is never multiplied by the
      multiplicative distortion, whatever that is. */
  lemma AdditiveDistortionNotScaled(opts: Options, biasSq: real, ampl: real, peak: real, smooth: real,
                                    metal: real, radiation: real, distMul: real, a: real, b: real)
    requires opts.distAdd
    ensures Compose(opts, biasSq, ampl, peak, smooth, metal, radiation, distMul, a)
          - Compose(opts, biasSq, ampl, peak, smooth, metal, radiation, distMul, b) == a - b
  {
  }

  /** The metal term is added before the multiplicative distortion, so it is
      scaled by it. */
  lemma MetalsScaledByDistortion(opts: Options, biasSq: real, ampl: real, peak: real, smooth: real,
                                 m1: real, m2: real, radiation: real, distMul: real, distAdd: real)
    requires opts.metals && opts.distMul
    ensures Compose(opts, biasSq, ampl, peak, smooth, m1, radiation, distMul, distAdd)
          - Compose(opts, biasSq, ampl, peak, smooth, m2, radiation, distMul, distAdd)
         == (m1 - m2) * (1.0 + distMul)
  {
    var base := biasSq * (ampl * peak + smooth);
    var rad := if opts.radiation then radiation else 0.0;
    assert Compose(opts, biasSq, ampl, peak, smooth, m1, radiation, distMul, distAdd)
      == (base + m1 + rad) * (1.0 + distMul) + (if opts.distAdd then distAdd else 0.0);
    assert Compose(opts, biasSq, ampl, peak, smooth, m2, radiation, distMul, distAdd)
      == (base + m2 + rad) * (1.0 + distMul) + (if opts.distAdd then distAdd else 0.0);
  }

  /** The radiation term is added before the multiplicative distortion too,
      so it is scaled by it as well. */
  lemma RadiationScaledByDistortion(opts: Options, biasSq: real, ampl: real, peak: real, smooth: real,
                                    metal: real, r1: real, r2: real, distMul: real, distAdd: real)
    requires opts.radiation && opts.distMul
    ensures Compose(opts, biasSq, ampl, peak, smooth, metal, r1, distMul, distAdd)
          - Compose(opts, biasSq, ampl, peak, smooth, metal, r2, distMul, distAdd)
         == (r1 - r2) * (1.0 + distMul)
  {
    var base := biasSq * (ampl * peak + smooth) + (if opts.metals then metal else 0.0);
    assert Compose(opts, biasSq, ampl, peak, smooth, metal, r1, distMul, distAdd)
      == (base + r1) * (1.0 + distMul) + (if opts.distAdd then distAdd else 0.0);
    assert Compose(opts, biasSq, ampl, peak, smooth, metal, r2, distMul, distAdd)
      == (base + r2) * (1.0 + distMul) + (if opts.distAdd then distAdd else 0.0);
  }

  /** With every optional term off, the result is the cosmological part. */
  lemma PlainComposition(opts: Options, biasSq: real, ampl: real, peak: real, smooth: real,
                         metal: real, radiation: real, distMul: real, distAdd: real)
    requires !opts.metals && !opts.radiation && !opts.distMul && !opts.distAdd
    ensures Compose(opts, biasSq, ampl, peak, smooth, metal, radiation, distMul, distAdd)
         == biasSq * (ampl * peak + smooth)
  {
  }

  /** One prediction from the parameter values and the transforms' states:
      fails exactly when the BAO scale is outside [dilmin, dilmax]; the peak is
      read at the dilated point, the smooth part there too unless decoupled. */
  function Predict(opts: Options, dilmin: real, dilmax: real, zref: real, v: seq<real>,
                   pk: TransformState, nw: TransformState, r: real, mu: real, z: real,
                   ext: Externals): (res: Result<real, EvalError>)
    requires Evaluable(opts.crossCorrelation, v, zref)
    ensures var p := BaoPointFor(opts.anisotropic, opts.crossCorrelation, v, r, mu, z, zref, ext.pow, ext.sqrt);
      && (res == Err(MinDilationLimit) <==> p.scale < dilmin)
      && (res == Err(MaxDilationLimit) <==> dilmin <= p.scale && p.scale > dilmax)
      && (res.Ok? <==> dilmin <= p.scale <= dilmax)
  {
    var cross := opts.crossCorrelation;
    var p := BaoPointFor(opts.anisotropic, cross, v, r, mu, z, zref, ext.pow, ext.sqrt);
    if p.scale < dilmin then Err(MinDilationLimit)
    else if p.scale > dilmax then Err(MaxDilationLimit)
    else
      var peak := ext.pkCorrelation(pk, p.r, p.mu);
      var smooth := if opts.decoupled then ext.nwCorrelation(nw, r, mu) else ext.nwCorrelation(nw, p.r, p.mu);
      Ok(Compose(opts, BiasSq(cross, v, z, zref, ext.pow), v[BaoBase(cross)], peak, smooth,
                 ext.metal(r, mu, z), ext.radiationTerm(r, mu, z), ext.distMulTerm(r, mu, z),
                 Evolve(ext.distAddTerm(r, mu, z), v[2], z, zref, ext.pow)))
  }

  /** Decoupled, with the peak switched off, the prediction does not read the
      BAO scale parameters beyond the dilation check. */
  lemma DecoupledSmoothIgnoresScale(opts: Options, dilmin: real, dilmax: real, zref: real,
                                    v: seq<real>, v': seq<real>, pk: TransformState, nw: TransformState,
                                    r: real, mu: real, z: real, ext: Externals)
    requires opts.decoupled
    requires Evaluable(opts.crossCorrelation, v, zref) && |v'| == |v|
    requires forall i :: 0 <= i < BaoBase(opts.crossCorrelation) ==> v'[i] == v[i]
    requires v[BaoBase(opts.crossCorrelation)] == 0.0 && v'[BaoBase(opts.crossCorrelation)] == 0.0
    requires Predict(opts, dilmin, dilmax, zref, v, pk, nw, r, mu, z, ext).Ok?
    requires Predict(opts, dilmin, dilmax, zref, v', pk, nw, r, mu, z, ext).Ok?
    ensures Predict(opts, dilmin, dilmax, zref, v', pk, nw, r, mu, z, ext)
         == Predict(opts, dilmin, dilmax, zref, v, pk, nw, r, mu, z, ext)
  {
    var cross := opts.crossCorrelation;
    assert v'[0] == v[0] && v'[1] == v[1] && v'[2] == v[2];
    assert cross ==> v'[5] == v[5];
    assert BiasSq(cross, v', z, zref, ext.pow) == BiasSq(cross, v, z, zref, ext.pow);
    var p := BaoPointFor(opts.anisotropic, cross, v, r, mu, z, zref, ext.pow, ext.sqrt);
    var p' := BaoPointFor(opts.anisotropic, cross, v', r, mu, z, zref, ext.pow, ext.sqrt);
    ZeroAmplitudeIgnoresPeak(opts, BiasSq(cross, v, z, zref, ext.pow),
      ext.pkCorrelation(pk, p.r, p.mu), ext.pkCorrelation(pk, p'.r, p'.mu), ext.nwCorrelation(nw, r, mu),
      ext.metal(r, mu, z), ext.radiationTerm(r, mu, z), ext.distMulTerm(r, mu, z),
      Evolve(ext.distAddTerm(r, mu, z), v[2], z, zref, ext.pow));
  }

  /** A zero amplitude removes the peak value from the composition. */
  lemma ZeroAmplitudeIgnoresPeak(opts: Options, biasSq: real, peak: real, peak': real, smooth: real,
                                 metal: real, radiation: real, distMul: real, distAdd: real)
    ensures Compose(opts, biasSq, 0.0, peak', smooth, metal, radiation, distMul, distAdd)
         == Compose(opts, biasSq, 0.0, peak, smooth, metal, radiation, distMul, distAdd)
  {
    assert 0.0 * peak == 0.0 * peak';
  }

  /** The model object: its options and limits, the parameter state, the
      distortion fields, the two transforms, the warning counter and the
      console output so far. */
  class KSpaceCorrelationModel {
    const opts: Options
    const zref: real
    const dilmin: real
    const dilmax: real
    const range: TransformRange
    var state: ParameterState
    var fields: Distortion
    var pk: TransformState
    var nw: TransformState
    var nWarnings: nat
    var output: seq<Notice>

    ghost predicate Valid()
      reads this
    {
      state.WellFormed() && |state.params| == LayoutSize(opts.crossCorrelation) &&
      0.0 < dilmin <= dilmax
    }

    constructor (opts: Options, zref: real, dilmin: real, dilmax: real, range: TransformRange, fields: Distortion)
      requires 0.0 < dilmin <= dilmax
      ensures Valid()
      ensures this.opts == opts && this.zref == zref && this.dilmin == dilmin && this.dilmax == dilmax
      ensures this.range == range && this.fields == fields
      ensures state == ParameterState(KSpaceParameters(opts.crossCorrelation), seq(LayoutSize(opts.crossCorrelation), _ => true))
      ensures pk == Uninitialized && nw == Uninitialized && nWarnings == 0 && output == []
    {
      this.opts := opts;
      this.zref := zref;
      this.dilmin := dilmin;
      this.dilmax := dilmax;
      this.range := range;
      this.fields := fields;
      state := ParameterState(KSpaceParameters(opts.crossCorrelation), seq(LayoutSize(opts.crossCorrelation), _ => true));
      pk := Uninitialized;
      nw := Uninitialized;
      nWarnings := 0;
      output := [];
    }

    /** The public evaluation: installs the values, evaluates with whether any
        of them changed since the last evaluation, then clears every changed
        flag. A failed dilation check skips the reset, so the flags stay set
        for the next call. Evaluating the same values again after a success
        leaves the transforms alone. */
    method Evaluate(r: real, mu: real, z: real, values: seq<real>, ext: Externals)
      returns (xi: Result<real, EvalError>)
      requires Valid() && |values| == |state.params| && Evaluable(opts.crossCorrelation, values, zref)
      modifies this`state, this`fields, this`pk, this`nw, this`nWarnings, this`output
      ensures Valid()
      ensures xi.Ok? ==> state == ResetChanged(Update(old(state), values))
      ensures xi.Err? ==> state == Update(old(state), values)
      ensures Values(state.params) == values && (xi.Ok? ==> !AnyChanged(state))
      ensures !AnyChanged(Update(old(state), values)) ==>
        pk == old(pk) && nw == old(nw) && nWarnings == old(nWarnings) && output == old(output)
      ensures !AnyChanged(Update(old(state), values)) ==>
        fields == FieldsFor(opts.crossCorrelation, values, z, zref, ext.pow, old(fields))
      ensures var u := Update(old(state), values);
        var nl := NlBase(opts.crossCorrelation);
        AnyChanged(u) ==> Transformed(old(pk), old(nw),
          FieldsFor(opts.crossCorrelation, values, z, zref, ext.pow, old(fields)),
          old(nWarnings), old(output), u.changed[nl] || u.changed[nl + 1], u.changed[0], ext)
      ensures xi == Predict(opts, dilmin, dilmax, zref, values, pk, nw, r, mu, z, ext)
    {
      var u := Update(state, values);
      state := u;
      xi := EvaluateChanged(r, mu, z, AnyChanged(u), ext);
      if xi.Ok? {
        state := ResetChanged(u);
      }
    }

    /** The evaluation proper: writes the distortion fields, runs the
        transform stage when some parameter changed, counts and rate-limits
        convergence warnings, then predicts. The state changes even when the
        dilation check then fails. */
    method EvaluateChanged(r: real, mu: real, z: real, anyChanged: bool, ext: Externals)
      returns (xi: Result<real, EvalError>)
      requires Valid() && Evaluable(opts.crossCorrelation, Values(state.params), zref)
      requires anyChanged == AnyChanged(state)
      modifies this`fields, this`pk, this`nw, this`nWarnings, this`output
      ensures Valid()
      ensures var f := FieldsFor(opts.crossCorrelation, Values(state.params), z, zref, ext.pow, old(fields));
        !anyChanged ==> (fields == f && pk == old(pk) && nw == old(nw) &&
          nWarnings == old(nWarnings) && output == old(output))
      ensures var f := FieldsFor(opts.crossCorrelation, Values(state.params), z, zref, ext.pow, old(fields));
        var nl := NlBase(opts.crossCorrelation);
        anyChanged ==> Transformed(old(pk), old(nw), f, old(nWarnings), old(output),
          state.changed[nl] || state.changed[nl + 1], state.changed[0], ext)
      ensures xi == Predict(opts, dilmin, dilmax, zref, Values(state.params), pk, nw, r, mu, z, ext)
    {
      var cross := opts.crossCorrelation;
      var v := Values(state.params);
      fields := FieldsFor(cross, v, z, zref, ext.pow, fields);
      if anyChanged {
        var nl := NlBase(cross);
        Transform(state.changed[nl] || state.changed[nl + 1], state.changed[0], ext);
      }
      xi := Predict(opts, dilmin, dilmax, zref, v, pk, nw, r, mu, z, ext);
    }

    /** The state after the transform stage of an evaluation whose
        parameters changed, from the state before it. */
    ghost predicate Transformed(pk0: TransformState, nw0: TransformState, fields0: Distortion,
                                nWarnings0: nat, output0: seq<Notice>,
                                nlChanged: bool, otherChanged: bool, ext: Externals)
      reads this`pk, this`nw, this`fields, this`nWarnings, this`output
    {
      var redoPk := RedoPeak(nlChanged, otherChanged);
      var redoNw := RedoSmooth(opts.nlBroadband, nlChanged, otherChanged);
      var converged := RefreshConverged(pk0, redoPk, ext.pkConverged) &&
        RefreshConverged(nw0, redoNw, ext.nwConverged);
      && pk == Refresh(pk0, fields0, redoPk)
      && fields == SmoothFields(fields0, opts.nlBroadband)
      && nw == Refresh(nw0, fields, redoNw)
      && nWarnings == (if converged then nWarnings0 else nWarnings0 + 1)
      && output == output0 + InitNotices(opts.verbose, pk0.Uninitialized?, nw0.Uninitialized?)
         + (if converged then [] else WarningNotices(nWarnings))
    }

    /** Runs the transforms, then records whether they converged. */
    method Transform(nlChanged: bool, otherChanged: bool, ext: Externals)
      modifies this`fields, this`pk, this`nw, this`nWarnings, this`output
      ensures Transformed(old(pk), old(nw), old(fields), old(nWarnings), old(output), nlChanged, otherChanged, ext)
    {
      var converged := RunTransforms(nlChanged, otherChanged, ext);
      RecordConvergence(converged);
    }

    /** The transform stage of an evaluation whose parameters changed: the
        peak transform sees the fields as given; without broadband broadening
        the fields then lose their broadening before the smooth transform. */
    method RunTransforms(nlChanged: bool, otherChanged: bool, ext: Externals) returns (converged: bool)
      modifies this`fields, this`pk, this`nw, this`output
      ensures pk == Refresh(old(pk), old(fields), RedoPeak(nlChanged, otherChanged))
      ensures fields == SmoothFields(old(fields), opts.nlBroadband)
      ensures nw == Refresh(old(nw), fields, RedoSmooth(opts.nlBroadband, nlChanged, otherChanged))
      ensures converged == (RefreshConverged(old(pk), RedoPeak(nlChanged, otherChanged), ext.pkConverged) &&
        RefreshConverged(old(nw), RedoSmooth(opts.nlBroadband, nlChanged, otherChanged), ext.nwConverged))
      ensures output == old(output) + InitNotices(opts.verbose, old(pk).Uninitialized?, old(nw).Uninitialized?)
    {
      var nlRedo := nlChanged;
      var peakInitialised, peakConverged := RefreshPeak(nlRedo || otherChanged, ext.pkConverged);
      if !opts.nlBroadband {
        fields := fields.(snlPerp2 := 0.0, snlPar2 := 0.0);
        nlRedo := false;
      }
      var smoothInitialised, smoothConverged := RefreshSmooth(nlRedo || otherChanged, ext.nwConverged);
      converged := peakConverged && smoothConverged;
      output := output + InitNotices(opts.verbose, peakInitialised, smoothInitialised);
    }

    /** Initialises the peak transform or, when asked to, redoes it. */
    method RefreshPeak(redo: bool, transformConverged: bool) returns (initialised: bool, converged: bool)
      modifies this`pk
      ensures pk == Refresh(old(pk), fields, redo)
      ensures initialised == old(pk).Uninitialized?
      ensures converged == RefreshConverged(old(pk), redo, transformConverged)
    {
      initialised, converged := false, true;
      if pk.Uninitialized? {
        pk := Ready(fields, 0);
        initialised := true;
      } else if redo {
        pk := Ready(fields, pk.transforms + 1);
        converged := transformConverged;
      }
    }

    /** Initialises the smooth transform or, when asked to, redoes it. */
    method RefreshSmooth(redo: bool, transformConverged: bool) returns (initialised: bool, converged: bool)
      modifies this`nw
      ensures nw == Refresh(old(nw), fields, redo)
      ensures initialised == old(nw).Uninitialized?
      ensures converged == RefreshConverged(old(nw), redo, transformConverged)
    {
      initialised, converged := false, true;
      if nw.Uninitialized? {
        nw := Ready(fields, 0);
        initialised := true;
      } else if redo {
        nw := Ready(fields, nw.transforms + 1);
        converged := transformConverged;
      }
    }

    /** Counts a non-converged evaluation and prints its warnings, if any. */
    method RecordConvergence(converged: bool)
      modifies this`nWarnings, this`output
      ensures nWarnings == (if converged then old(nWarnings) else old(nWarnings) + 1)
      ensures output == old(output) + (if converged then [] else WarningNotices(nWarnings))
    {
      if !converged {
        nWarnings := nWarnings + 1;
        if nWarnings <= MaxWarnings {
          output := output + [NotConverged];
          if nWarnings == MaxWarnings {
            output := output + [NoMoreWarnings];
          }
        }
      }
    }
  }

  /** Validates the ranges and builds the model with every parameter
      defined and flagged changed, both transforms uninitialised. */
  method Create(opts: Options, zref: real, rmin: real, rmax: real, dilmin: real, dilmax: real, fields: Distortion)
    returns (r: Result<KSpaceCorrelationModel, RangeError>)
    ensures r.Err? <==> TransformRangeFor(rmin, rmax, dilmin, dilmax).Err?
    ensures r.Err? ==> r.error == TransformRangeFor(rmin, rmax, dilmin, dilmax).error
    ensures r.Ok? ==> (fresh(r.value) && r.value.Valid() && r.value.pk.Uninitialized? &&
      r.value.nw.Uninitialized? && r.value.range == TransformRangeFor(rmin, rmax, dilmin, dilmax).value &&
      r.value.state.params == KSpaceParameters(opts.crossCorrelation))
    ensures r.Ok? ==> (r.value.opts == opts && r.value.zref == zref &&
      r.value.dilmin == dilmin && r.value.dilmax == dilmax && r.value.fields == fields)
    ensures r.Ok? ==> (r.value.nWarnings == 0 && r.value.output == [] &&
      forall i :: 0 <= i < |r.value.state.changed| ==> r.value.state.changed[i])
  {
    var range := TransformRangeFor(rmin, rmax, dilmin, dilmax);
    if range.Err? {
      return Err(range.error);
    }
    var m := new KSpaceCorrelationModel(opts, zref, dilmin, dilmax, range.value, fields);
    r := Ok(m);
  }
}
