/** The r-space BAO multipole model: a fiducial template whose peak is the
    difference from a no-wiggles template, three broadband layers, linear bias
    with redshift evolution, and a Gaussian prior on the BAO scale outside a
    fixed band.

    The five templates are tabulated multipole curves; in the (r, mu) form each
    is combined into a redshift-space distorted correlation function by the
    external `rsd` combiner, given the distortion parameter beta. */
module BaoModel {
  import opened Common
  import AbsModel

  datatype BaoError = NegativeZRef

  /** The 19 parameters the model defines, in order, with defaults and errors. */
  function BaoParameters(): (ps: seq<Parameter>)
    ensures |ps| == 19
  {
    [Parameter("beta", 1.4, 0.1, true),
     Parameter("(1+beta)*bias", -0.336, 0.03, true),
     Parameter("alpha-bias", 3.8, 0.3, true),
     Parameter("alpha-beta", 0.0, 0.1, true),
     Parameter("BAO amplitude", 1.0, 0.15, true),
     Parameter("BAO scale", 1.0, 0.02, true),
     Parameter("BBand1 xio", 0.0, 0.001, true),
     Parameter("BBand1 a0", 0.0, 0.2, true),
     Parameter("BBand1 a1", 0.0, 2.0, true),
     Parameter("BBand1 a2", 0.0, 2.0, true),
     Parameter("BBand2 mono const", 0.0, 0.0001, true),
     Parameter("BBand2 quad const", 0.0, 0.0001, true),
     Parameter("BBand2 hexa const", 0.0, 0.0001, true),
     Parameter("BBand2 mono 1/r", 0.0, 0.01, true),
     Parameter("BBand2 quad 1/r", 0.0, 0.02, true),
     Parameter("BBand2 hexa 1/r", 0.0, 0.04, true),
     Parameter("BBand2 mono 1/(r*r)", 0.0, 0.6, true),
     Parameter("BBand2 quad 1/(r*r)", 0.0, 1.2, true),
     Parameter("BBand2 hexa 1/(r*r)", 0.0, 2.4, true)]
  }

  // Indices of the parameters in BaoParameters(); BaoLayout shows that the
  // by-name lookups of the model land on them.
  const Beta := 0
  const BetaBias := 1
  const AlphaBias := 2
  const AlphaBeta := 3
  const Amplitude := 4
  const Scale := 5
  const Xio := 6
  const A0 := 7
  const A1 := 8
  const A2 := 9
  const MonoConst := 10
  const MonoInvR := 13
  const MonoInvR2 := 16

  /** A few characters that tell the parameter names apart. */
  function NameKey(s: string): (int, char, char, char) {
    (|s|, if |s| > 0 then s[0] else ' ', if |s| > 0 then s[|s| - 1] else ' ', if |s| > 7 then s[7] else ' ')
  }

  /** The key of each parameter name, in order. */
  function BaoNameKeys(): seq<(int, char, char, char)> {
    [(4, 'b', 'a', ' '), (13, '(', 's', ')'), (10, 'a', 's', 'i'), (10, 'a', 'a', 'e'),
     (13, 'B', 'e', 'l'), (9, 'B', 'e', 'l'), (10, 'B', 'o', 'x'), (9, 'B', '0', 'a'), (9, 'B', '1', 'a'),
     (9, 'B', '2', 'a'), (17, 'B', 't', 'm'), (17, 'B', 't', 'q'), (17, 'B', 't', 'h'), (15, 'B', 'r', 'm'),
     (15, 'B', 'r', 'q'), (15, 'B', 'r', 'h'), (19, 'B', ')', 'm'), (19, 'B', ')', 'q'), (19, 'B', ')', 'h')]
  }

  lemma BaoNameKeysMatch()
    ensures forall i :: 0 <= i < 19 ==> NameKey(BaoParameters()[i].name) == BaoNameKeys()[i]
  {
    BaoNameKeysMatchFirst();
    BaoNameKeysMatchBBand1();
    BaoNameKeysMatchBBand2(10);
    BaoNameKeysMatchBBand2(13);
    BaoNameKeysMatchBBand2(16);
  }

  lemma BaoNameKeysMatchFirst()
    ensures forall i :: 0 <= i < 6 ==> NameKey(BaoParameters()[i].name) == BaoNameKeys()[i]
  {
  }

  lemma BaoNameKeysMatchBBand1()
    ensures forall i :: 6 <= i < 10 ==> NameKey(BaoParameters()[i].name) == BaoNameKeys()[i]
  {
  }

  /** The BBand2 names, one group of three at a time. */
  lemma BaoNameKeysMatchBBand2(lo: int)
    requires lo == 10 || lo == 13 || lo == 16
    ensures forall i :: lo <= i < lo + 3 ==> NameKey(BaoParameters()[i].name) == BaoNameKeys()[i]
  {
  }

  lemma BaoNameKeysDistinct()
    ensures forall i, j :: 0 <= i < j < 19 ==> BaoNameKeys()[i] != BaoNameKeys()[j]
  {
  }

  /** Parameter names are distinct, so looking a name up finds its own index. */
  lemma BaoLayout()
    ensures forall i, j :: 0 <= i < j < 19 ==> BaoParameters()[i].name != BaoParameters()[j].name
    ensures forall i :: 0 <= i < 19 ==> FindIndex(BaoParameters(), BaoParameters()[i].name) == Some(i)
  {
    var ps := BaoParameters();
    BaoNameKeysMatch();
    BaoNameKeysDistinct();
    forall i, j | 0 <= i < j < 19 ensures ps[i].name != ps[j].name {
      assert NameKey(ps[i].name) != NameKey(ps[j].name);
    }
    DistinctNamesLookup(ps);
  }

  /** The constructor: rejects a negative reference redshift, otherwise
      defines the 19 parameters (all flagged changed, nothing evaluated yet). */
  function Create(zref: real): (r: Result<ParameterState, BaoError>)
    ensures r.Err? <==> zref < 0.0
    ensures r.Ok? ==> r.value.params == BaoParameters() && r.value.WellFormed()
    ensures r.Ok? ==> r.value.params[0].name == "beta" && r.value.params[18].name == "BBand2 hexa 1/(r*r)"
    ensures r.Ok? ==> forall i :: 0 <= i < 19 ==> r.value.changed[i]
  {
    if zref < 0.0 then Err(NegativeZRef)
    else Ok(ParameterState(BaoParameters(), seq(19, _ => true)))
  }

  // ---- Scale prior ----

  const ScalePriorMin: real := 0.85
  const ScalePriorMax: real := 1.15
  /** 2 sigma^2 with sigma = 0.01. */
  const ScalePriorNorm: real := 2.0 * 0.01 * 0.01

  /** The Gaussian penalty diff^2 / (2 sigma^2) for a distance diff outside
      the band. */
  function Penalty(diff: real): real {
    diff * diff / ScalePriorNorm
  }

  /** -log(prior(scale)): zero inside [min, max], Gaussian outside. */
  function ScalePrior(scale: real): real {
    if scale < ScalePriorMin then Penalty(scale - ScalePriorMin)
    else if scale > ScalePriorMax then Penalty(scale - ScalePriorMax)
    else 0.0
  }

  /** The prior term of the model reads the "BAO scale" parameter. */
  function EvaluatePrior(v: seq<real>): (p: real)
    requires |v| == 19
    ensures p >= 0.0
    ensures p == 0.0 <==> ScalePriorMin <= v[Scale] <= ScalePriorMax
  {
    ScalePriorVanishesExactlyInside(v[Scale]);
    ScalePrior(v[Scale])
  }

  lemma PenaltyPositive(d: real)
    requires d != 0.0
    ensures Penalty(d) > 0.0
  {
    assert d * d > 0.0 by {
      if d < 0.0 {
        assert d * d == (-d) * (-d);
      }
    }
    calc {
      Penalty(d);
      == d * d / ScalePriorNorm;
      == (d * d) * (1.0 / ScalePriorNorm);
      > 0.0;
    }
  }

  /** The penalty is even in the distance and grows with it. */
  lemma PenaltyEvenAndGrowing(d: real, e: real)
    requires 0.0 <= d <= e
    ensures Penalty(-d) == Penalty(d) <= Penalty(e)
  {
    assert d * d <= d * e;
    assert d * e <= e * e;
    assert (-d) * (-d) == d * d;
  }

  /** The penalty is never negative, and it is zero exactly on the band
      (bounds included), so it is continuous at both bounds. */
  lemma ScalePriorVanishesExactlyInside(scale: real)
    ensures ScalePrior(scale) >= 0.0
    ensures ScalePrior(scale) == 0.0 <==> ScalePriorMin <= scale <= ScalePriorMax
  {
    if scale < ScalePriorMin {
      PenaltyPositive(scale - ScalePriorMin);
    } else if scale > ScalePriorMax {
      PenaltyPositive(scale - ScalePriorMax);
    }
  }

  /** Undershooting min by d costs what overshooting max by d costs, and a
      larger distance from the band costs more. */
  lemma ScalePriorSymmetricAndGrowing(d: real, e: real)
    requires 0.0 < d <= e
    ensures ScalePrior(ScalePriorMin - d) == ScalePrior(ScalePriorMax + d) == Penalty(d)
    ensures ScalePrior(ScalePriorMin - d) <= ScalePrior(ScalePriorMin - e)
    ensures ScalePrior(ScalePriorMax + d) <= ScalePrior(ScalePriorMax + e)
  {
    assert ScalePriorMin - d - ScalePriorMin == -d;
    assert ScalePriorMax + d - ScalePriorMax == d;
    assert ScalePriorMin - e - ScalePriorMin == -e;
    assert ScalePriorMax + e - ScalePriorMax == e;
    PenaltyEvenAndGrowing(d, e);
    PenaltyEvenAndGrowing(e, e);
  }

  // ---- Broadband model 2: c + r1/r + r2/r^2 per multipole ----

  datatype BBand2 = BBand2(c: real, r1: real, r2: real)

  function BBand2At(b: BBand2, r: real): real
    requires r != 0.0
  {
    b.c + b.r1 / r + b.r2 / (r * r)
  }

  /** All-zero coefficients give an identically zero broadband term. */
  lemma BBand2Zero(r: real)
    requires r != 0.0
    ensures BBand2At(BBand2(0.0, 0.0, 0.0), r) == 0.0
  {
    calc {
      BBand2At(BBand2(0.0, 0.0, 0.0), r);
      == 0.0 + 0.0 / r + 0.0 / (r * r);
      == 0.0;
    }
  }

  /** The BBand2 coefficients the model reads for one multipole. */
  function BBand2For(v: seq<real>, m: Multipole): BBand2
    requires |v| == 19
  {
    var k := match m case Monopole => 0 case Quadrupole => 1 case Hexadecapole => 2;
    BBand2(v[MonoConst + k], v[MonoInvR + k], v[MonoInvR2 + k])
  }

  // ---- Redshift-space distortion factors of the multipole form ----

  /** The linear distortion factor multiplying one multipole. */
  function RsdScale(m: Multipole, beta: real): real {
    if m == Hexadecapole then (8.0 / 35.0) * beta * beta
    else if m == Quadrupole then 4.0 * beta * ((1.0 / 3.0) + beta / 7.0)
    else 1.0 + beta * ((2.0 / 3.0) + beta / 5.0)
  }

  /** These are the abstract model's Kaiser normalisation factors per unit
      bias^2: two independent codings of the same three polynomials agree. */
  lemma RsdScaleIsKaiserFactor(m: Multipole, biasSq: real, beta: real)
    ensures biasSq * RsdScale(m, beta) ==
      AbsModel.SelectFactor(AbsModel.KaiserNormFactors(biasSq, beta), m)
  {
    var nf := AbsModel.KaiserNormFactors(biasSq, beta);
    match m
    case Monopole =>
      assert beta * ((2.0 / 3.0) + beta / 5.0) == beta * (2.0 / 3.0 + (1.0 / 5.0) * beta);
    case Quadrupole =>
      assert 4.0 * beta * ((1.0 / 3.0) + beta / 7.0) == beta * (4.0 / 3.0 + (4.0 / 7.0) * beta);
      assert biasSq * (beta * (4.0 / 3.0 + (4.0 / 7.0) * beta)) == biasSq * beta * (4.0 / 3.0 + (4.0 / 7.0) * beta);
    case Hexadecapole =>
      assert biasSq * ((8.0 / 35.0) * beta * beta) == biasSq * beta * beta * (8.0 / 35.0);
  }

  // ---- Templates and the two evaluation forms ----

  /** Tabulated monopole, quadrupole and hexadecapole curves of one template. */
  datatype Multipoles = Multipoles(mono: real -> real, quad: real -> real, hexa: real -> real)

  function PoleAt(t: Multipoles, r: real, m: Multipole): real {
    match m
    case Monopole => t.mono(r)
    case Quadrupole => t.quad(r)
    case Hexadecapole => t.hexa(r)
  }

  /** The external redshift-space combiner: (beta, mu, xi0, xi2, xi4) to
      xi(mu) for a function distorted by beta. */
  type RsdCombiner = (real, real, real, real, real) -> real

  /** A template distorted by beta, read at (r, mu). */
  function Distorted(rsd: RsdCombiner, t: Multipoles, beta: real, r: real, mu: real): real {
    rsd(beta, mu, t.mono(r), t.quad(r), t.hexa(r))
  }

  /** The model's fixed inputs: reference redshift, the fiducial, no-wiggles
      and three broadband templates, the combiner and the power function. */
  datatype BaoCorrelationModel = BaoCorrelationModel(
    zref: real,
    fid: Multipoles, nw: Multipoles, bbc: Multipoles, bb1: Multipoles, bb2: Multipoles,
    rsd: RsdCombiner, pow: (real, real) -> real)
  {
    ghost predicate Valid() { zref >= 0.0 }
  }

  /** Inputs every evaluation needs: 19 values, a finite bias (1+beta != 0)
      and r != 0 for the 1/r broadband terms. */
  ghost predicate Evaluable(m: BaoCorrelationModel, v: seq<real>, r: real) {
    m.Valid() && |v| == 19 && 1.0 + v[Beta] != 0.0 && r != 0.0
  }

  /** bias^2 times the redshift growth factor ((1+z)/(1+zref))^alpha-bias. */
  function BiasFactor(m: BaoCorrelationModel, v: seq<real>, z: real): real
    requires m.Valid() && |v| == 19 && 1.0 + v[Beta] != 0.0
  {
    var bias := v[BetaBias] / (1.0 + v[Beta]);
    bias * bias * AbsModel.RedshiftEvolution(1.0, v[AlphaBias], z, m.zref, m.pow)
  }

  /** With no bias the bias factor vanishes, at every redshift. */
  lemma ZeroBiasNoFactor(m: BaoCorrelationModel, v: seq<real>, z: real)
    requires m.Valid() && |v| == 19 && 1.0 + v[Beta] != 0.0
    ensures v[BetaBias] == 0.0 ==> BiasFactor(m, v, z) == 0.0
  {
    if v[BetaBias] == 0.0 {
      assert v[BetaBias] / (1.0 + v[Beta]) == 0.0 / (1.0 + v[Beta]) == 0.0;
    }
  }

  /** beta evolved to redshift z with exponent alpha-beta. */
  function EvolvedBeta(m: BaoCorrelationModel, v: seq<real>, z: real): real
    requires m.Valid() && |v| == 19
  {
    AbsModel.RedshiftEvolution(v[Beta], v[AlphaBeta], z, m.zref, m.pow)
  }

  /** One broadband term: skipped (zero) when its coefficient is zero. */
  function Weighted(coefficient: real, template: real): real {
    if coefficient != 0.0 then coefficient * template else 0.0
  }

  /** BBand1 terms in the (r, mu) form, with weights xio, 1+a0, a1 and a2. */
  function BBand1Mu(m: BaoCorrelationModel, v: seq<real>, beta: real, r: real, mu: real): real
    requires |v| == 19
  {
    Weighted(v[Xio], Distorted(m.rsd, m.bbc, beta, r, mu))
    + Weighted(1.0 + v[A0], Distorted(m.rsd, m.nw, beta, r, mu))
    + Weighted(v[A1], Distorted(m.rsd, m.bb1, beta, r, mu))
    + Weighted(v[A2], Distorted(m.rsd, m.bb2, beta, r, mu))
  }

  /** The peak in the (r, mu) form, read at the scaled radius; when the
      amplitude is zero neither template is read. */
  function PeakMu(m: BaoCorrelationModel, v: seq<real>, beta: real, r: real, mu: real): real
    requires |v| == 19
  {
    var ampl := v[Amplitude];
    var scale := v[Scale];
    if ampl != 0.0 then
      ampl * (Distorted(m.rsd, m.fid, beta, r * scale, mu) - Distorted(m.rsd, m.nw, beta, r * scale, mu))
    else 0.0
  }

  /** The BBand2 model in the (r, mu) form: the three coefficient curves
      combined as multipoles and distorted by beta. */
  function BBand2Mu(m: BaoCorrelationModel, v: seq<real>, beta: real, r: real, mu: real): real
    requires |v| == 19 && r != 0.0
  {
    m.rsd(beta, mu, BBand2At(BBand2For(v, Monopole), r),
          BBand2At(BBand2For(v, Quadrupole), r), BBand2At(BBand2For(v, Hexadecapole), r))
  }

  /** The overall factor times the sum of the peak and the two broadbands. */
  function Combine(factor: real, peak: real, bband1: real, bband2: real): real {
    factor * (peak + bband1 + bband2)
  }

  /** The multipole form also scales by the multipole's distortion factor. */
  function CombinePole(factor: real, rsdScale: real, peak: real, bband1: real, bband2: real): real {
    factor * rsdScale * (peak + bband1 + bband2)
  }

  /** xi(r, mu, z): every template distorted by the evolved beta. Without
      bias there is no correlation, and without amplitude only the two
      broadbands remain. */
  function XiMu(m: BaoCorrelationModel, v: seq<real>, r: real, mu: real, z: real): (x: real)
    requires Evaluable(m, v, r)
    ensures v[BetaBias] == 0.0 ==> x == 0.0
    ensures v[Amplitude] == 0.0 ==>
      x == BiasFactor(m, v, z) * (BBand1Mu(m, v, EvolvedBeta(m, v, z), r, mu) + BBand2Mu(m, v, EvolvedBeta(m, v, z), r, mu))
  {
    ZeroBiasNoFactor(m, v, z);
    Combine(BiasFactor(m, v, z), PeakMu(m, v, EvolvedBeta(m, v, z), r, mu),
            BBand1Mu(m, v, EvolvedBeta(m, v, z), r, mu), BBand2Mu(m, v, EvolvedBeta(m, v, z), r, mu))
  }

  /** BBand1 terms in the multipole form. */
  function BBand1Pole(m: BaoCorrelationModel, v: seq<real>, r: real, pole: Multipole): real
    requires |v| == 19
  {
    Weighted(v[Xio], PoleAt(m.bbc, r, pole))
    + Weighted(1.0 + v[A0], PoleAt(m.nw, r, pole))
    + Weighted(v[A1], PoleAt(m.bb1, r, pole))
    + Weighted(v[A2], PoleAt(m.bb2, r, pole))
  }

  /** The peak in the multipole form, at the scaled radius. */
  function PeakPole(m: BaoCorrelationModel, v: seq<real>, r: real, pole: Multipole): real
    requires |v| == 19
  {
    var ampl := v[Amplitude];
    var scale := v[Scale];
    if ampl != 0.0 then ampl * (PoleAt(m.fid, r * scale, pole) - PoleAt(m.nw, r * scale, pole))
    else 0.0
  }

  /** xi_ell(r, z): the undistorted multipole templates scaled by the
      multipole's linear distortion factor. Without bias there is no
      correlation, and without amplitude only the two broadbands remain. */
  function XiPole(m: BaoCorrelationModel, v: seq<real>, r: real, pole: Multipole, z: real): (x: real)
    requires Evaluable(m, v, r)
    ensures v[BetaBias] == 0.0 ==> x == 0.0
    ensures v[Amplitude] == 0.0 ==>
      x == BiasFactor(m, v, z) * RsdScale(pole, EvolvedBeta(m, v, z)) * (BBand1Pole(m, v, r, pole) + BBand2At(BBand2For(v, pole), r))
  {
    ZeroBiasNoFactor(m, v, z);
    CombinePole(BiasFactor(m, v, z), RsdScale(pole, EvolvedBeta(m, v, z)),
                PeakPole(m, v, r, pole), BBand1Pole(m, v, r, pole), BBand2At(BBand2For(v, pole), r))
  }

  /** The bias factor and the evolved beta read only the four linear bias
      values, the reference redshift and the power function. */
  lemma SameLinearBias(m: BaoCorrelationModel, m': BaoCorrelationModel, v: seq<real>, v': seq<real>, z: real)
    requires m.Valid() && m'.Valid() && |v| == 19 && |v'| == 19 && 1.0 + v[Beta] != 0.0
    requires m'.zref == m.zref && m'.pow == m.pow
    requires v'[Beta] == v[Beta] && v'[BetaBias] == v[BetaBias]
    requires v'[AlphaBias] == v[AlphaBias] && v'[AlphaBeta] == v[AlphaBeta]
    ensures BiasFactor(m', v', z) == BiasFactor(m, v, z)
    ensures EvolvedBeta(m', v', z) == EvolvedBeta(m, v, z)
  {
  }

  /** With zero amplitude the peak is zero whatever the fiducial template
      and the scale. */
  lemma ZeroAmplitudeNoPeak(m: BaoCorrelationModel, fid': Multipoles, v: seq<real>, scale': real,
                            beta: real, r: real, mu: real, pole: Multipole)
    requires |v| == 19 && v[Amplitude] == 0.0
    ensures PeakMu(m.(fid := fid'), v[Scale := scale'], beta, r, mu) == 0.0 == PeakMu(m, v, beta, r, mu)
    ensures PeakPole(m.(fid := fid'), v[Scale := scale'], r, pole) == 0.0 == PeakPole(m, v, r, pole)
  {
  }

  /** The broadbands read neither the fiducial template nor the scale. */
  lemma BroadbandIgnoresPeak(m: BaoCorrelationModel, fid': Multipoles, v: seq<real>, scale': real,
                             beta: real, r: real, mu: real, pole: Multipole)
    requires |v| == 19 && r != 0.0
    ensures BBand1Mu(m.(fid := fid'), v[Scale := scale'], beta, r, mu) == BBand1Mu(m, v, beta, r, mu)
    ensures BBand2Mu(m.(fid := fid'), v[Scale := scale'], beta, r, mu) == BBand2Mu(m, v, beta, r, mu)
    ensures BBand1Pole(m.(fid := fid'), v[Scale := scale'], r, pole) == BBand1Pole(m, v, r, pole)
    ensures BBand2For(v[Scale := scale'], pole) == BBand2For(v, pole)
  {
    var v' := v[Scale := scale'];
    assert BBand2For(v', Monopole) == BBand2For(v, Monopole);
    assert BBand2For(v', Quadrupole) == BBand2For(v, Quadrupole);
    assert BBand2For(v', Hexadecapole) == BBand2For(v, Hexadecapole);
  }

  /** With zero amplitude the result reads neither the fiducial template nor
      the scale: swapping the fiducial template or the scale changes nothing. */
  lemma ZeroAmplitudeSkipsPeakMu(m: BaoCorrelationModel, fid': Multipoles, v: seq<real>, scale': real,
                                 r: real, mu: real, z: real)
    requires Evaluable(m, v, r) && v[Amplitude] == 0.0
    ensures XiMu(m.(fid := fid'), v[Scale := scale'], r, mu, z) == XiMu(m, v, r, mu, z)
  {
    SameLinearBias(m, m.(fid := fid'), v, v[Scale := scale'], z);
    ZeroAmplitudeNoPeak(m, fid', v, scale', EvolvedBeta(m, v, z), r, mu, Monopole);
    BroadbandIgnoresPeak(m, fid', v, scale', EvolvedBeta(m, v, z), r, mu, Monopole);
  }

  /** The same in the multipole form. */
  lemma ZeroAmplitudeSkipsPeakPole(m: BaoCorrelationModel, fid': Multipoles, v: seq<real>, scale': real,
                                   r: real, pole: Multipole, z: real)
    requires Evaluable(m, v, r) && v[Amplitude] == 0.0
    ensures XiPole(m.(fid := fid'), v[Scale := scale'], r, pole, z) == XiPole(m, v, r, pole, z)
  {
    SameLinearBias(m, m.(fid := fid'), v, v[Scale := scale'], z);
    ZeroAmplitudeNoPeak(m, fid', v, scale', 0.0, r, 0.0, pole);
    BroadbandIgnoresPeak(m, fid', v, scale', 0.0, r, 0.0, pole);
  }

  /** With xio, a1 and a2 zero the bbc, bb1 and bb2 templates are not read. */
  lemma ZeroCoefficientsIgnoreTemplates(m: BaoCorrelationModel, t: Multipoles, v: seq<real>,
                                        beta: real, r: real, mu: real, pole: Multipole)
    requires |v| == 19 && v[Xio] == 0.0 && v[A1] == 0.0 && v[A2] == 0.0
    ensures BBand1Mu(m.(bbc := t, bb1 := t, bb2 := t), v, beta, r, mu) == BBand1Mu(m, v, beta, r, mu)
    ensures BBand1Pole(m.(bbc := t, bb1 := t, bb2 := t), v, r, pole) == BBand1Pole(m, v, r, pole)
  {
  }

  /** The peak and BBand2 never read the three BBand1 templates. */
  lemma PeakIgnoresBroadbandTemplates(m: BaoCorrelationModel, t: Multipoles, v: seq<real>,
                                      beta: real, r: real, mu: real, pole: Multipole)
    requires |v| == 19 && r != 0.0
    ensures PeakMu(m.(bbc := t, bb1 := t, bb2 := t), v, beta, r, mu) == PeakMu(m, v, beta, r, mu)
    ensures BBand2Mu(m.(bbc := t, bb1 := t, bb2 := t), v, beta, r, mu) == BBand2Mu(m, v, beta, r, mu)
    ensures PeakPole(m.(bbc := t, bb1 := t, bb2 := t), v, r, pole) == PeakPole(m, v, r, pole)
  {
  }

  /** With xio, a1 and a2 zero only the no-wiggles term of BBand1 is left. */
  lemma ZeroCoefficientsLeaveNoWiggles(m: BaoCorrelationModel, v: seq<real>,
                                       beta: real, r: real, mu: real, pole: Multipole)
    requires |v| == 19 && v[Xio] == 0.0 && v[A1] == 0.0 && v[A2] == 0.0
    ensures BBand1Mu(m, v, beta, r, mu) == Weighted(1.0 + v[A0], Distorted(m.rsd, m.nw, beta, r, mu))
    ensures BBand1Pole(m, v, r, pole) == Weighted(1.0 + v[A0], PoleAt(m.nw, r, pole))
  {
  }

  /** A zero broadband coefficient means its template is never read: with
      xio, a1 and a2 zero, the three broadband templates can be anything. */
  lemma ZeroCoefficientSkipsTemplateMu(m: BaoCorrelationModel, t: Multipoles, v: seq<real>,
                                       r: real, mu: real, z: real)
    requires Evaluable(m, v, r) && v[Xio] == 0.0 && v[A1] == 0.0 && v[A2] == 0.0
    ensures XiMu(m.(bbc := t, bb1 := t, bb2 := t), v, r, mu, z) == XiMu(m, v, r, mu, z)
  {
    SameLinearBias(m, m.(bbc := t, bb1 := t, bb2 := t), v, v, z);
    ZeroCoefficientsIgnoreTemplates(m, t, v, EvolvedBeta(m, v, z), r, mu, Monopole);
    PeakIgnoresBroadbandTemplates(m, t, v, EvolvedBeta(m, v, z), r, mu, Monopole);
  }

  /** The same in the multipole form. */
  lemma ZeroCoefficientSkipsTemplatePole(m: BaoCorrelationModel, t: Multipoles, v: seq<real>,
                                         r: real, pole: Multipole, z: real)
    requires Evaluable(m, v, r) && v[Xio] == 0.0 && v[A1] == 0.0 && v[A2] == 0.0
    ensures XiPole(m.(bbc := t, bb1 := t, bb2 := t), v, r, pole, z) == XiPole(m, v, r, pole, z)
  {
    SameLinearBias(m, m.(bbc := t, bb1 := t, bb2 := t), v, v, z);
    ZeroCoefficientsIgnoreTemplates(m, t, v, 0.0, r, 0.0, pole);
    PeakIgnoresBroadbandTemplates(m, t, v, 0.0, r, 0.0, pole);
  }

  /** When beta is zero at the reference redshift it stays zero at every z,
      and the quadrupole and hexadecapole predictions vanish identically. */
  lemma ZeroBetaHasNoQuadOrHexa(m: BaoCorrelationModel, v: seq<real>, r: real, z: real)
    requires Evaluable(m, v, r) && v[Beta] == 0.0
    ensures XiPole(m, v, r, Quadrupole, z) == 0.0
    ensures XiPole(m, v, r, Hexadecapole, z) == 0.0
  {
    assert EvolvedBeta(m, v, z) == 0.0;
  }

  /** Every value at its default and z at the reference redshift: the bias is
      -0.336/2.4, beta is not evolved, and the monopole is bias^2 times the
      Kaiser factor times the fiducial template itself (peak plus the
      no-wiggles broadband rebuild it). */
  lemma DefaultMonopoleAtReference(m: BaoCorrelationModel, r: real)
    requires m.Valid() && r != 0.0
    requires forall g :: m.pow(1.0, g) == 1.0
    ensures Evaluable(m, Values(BaoParameters()), r)
    ensures XiPole(m, Values(BaoParameters()), r, Monopole, m.zref) ==
      (-0.336 / 2.4) * (-0.336 / 2.4) * (1.0 + 1.4 * ((2.0 / 3.0) + 1.4 / 5.0)) * m.fid.mono(r)
  {
    DefaultValuesListed();
    DefaultLinearBias(m);
    DefaultTerms(m, r);
    var f, n := m.fid.mono(r), m.nw.mono(r);
    calc {
      XiPole(m, DefaultValues(), r, Monopole, m.zref);
      == CombinePole((-0.336 / 2.4) * (-0.336 / 2.4), RsdScale(Monopole, 1.4), f - n, n, 0.0);
      == (-0.336 / 2.4) * (-0.336 / 2.4) * (1.0 + 1.4 * ((2.0 / 3.0) + 1.4 / 5.0)) * f;
    }
  }

  /** The default values, as listed in BaoParameters. */
  function DefaultValues(): seq<real> {
    [1.4, -0.336, 3.8, 0.0, 1.0, 1.0, 0.0, 0.0, 0.0, 0.0, 0.0, 0.0, 0.0, 0.0, 0.0, 0.0, 0.0, 0.0, 0.0]
  }

  lemma DefaultValuesListed()
    ensures Values(BaoParameters()) == DefaultValues()
  {
  }

  /** At the defaults and the reference redshift, beta is 1.4 and the bias
      factor is (-0.336 / 2.4)^2. */
  lemma DefaultLinearBias(m: BaoCorrelationModel)
    requires m.Valid() && forall g :: m.pow(1.0, g) == 1.0
    ensures Evaluable(m, DefaultValues(), 1.0)
    ensures EvolvedBeta(m, DefaultValues(), m.zref) == 1.4
    ensures BiasFactor(m, DefaultValues(), m.zref) == (-0.336 / 2.4) * (-0.336 / 2.4)
  {
    assert m.pow(1.0, 3.8) == 1.0 && m.pow(1.0, 0.0) == 1.0;
  }

  /** At the defaults the peak is fid - nw, BBand1 is the no-wiggles template
      and BBand2 vanishes. */
  lemma DefaultTerms(m: BaoCorrelationModel, r: real)
    requires r != 0.0
    ensures PeakPole(m, DefaultValues(), r, Monopole) == m.fid.mono(r) - m.nw.mono(r)
    ensures BBand1Pole(m, DefaultValues(), r, Monopole) == m.nw.mono(r)
    ensures BBand2At(BBand2For(DefaultValues(), Monopole), r) == 0.0
  {
    assert BBand2For(DefaultValues(), Monopole) == BBand2(0.0, 0.0, 0.0);
    BBand2Zero(r);
  }
}
