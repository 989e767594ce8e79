/** The abstract correlation model: the update -> evaluate -> reset protocol
    around every model evaluation, the once-only definition of the four
    linear-bias parameters, the redshift-evolution law and the linear (Kaiser)
    normalisation factors of the three multipoles. */
module AbsModel {
  import opened Common

  datatype ModelError = LinearBiasAlreadyDefined | NegativeZRef | NoLinearBias

  /** p(z) = p0 * ((1+z)/(1+zref))^gamma, with `pow` the math library's power. */
  function RedshiftEvolution(p0: real, gamma: real, z: real, zref: real, pow: (real, real) -> real): (p: real)
    requires 1.0 + zref != 0.0
    ensures z == zref && pow(1.0, gamma) == 1.0 ==> p == p0
    ensures p0 == 0.0 ==> p == 0.0
  {
    var ratio := (1.0 + z) / (1.0 + zref);
    DivideBySelf(1.0 + zref);
    p0 * pow(ratio, gamma)
  }

  lemma DivideBySelf(x: real)
    requires x != 0.0
    ensures x / x == 1.0
  {
  }

  /** The four linear-bias parameters with their defaults and errors, in the
      order they are defined. */
  function LinearBiasParameters(): seq<Parameter> {
    [Parameter("beta", 1.4, 0.1, true),
     Parameter("(1+beta)*bias", -0.336, 0.03, true),
     Parameter("gamma-bias", 3.8, 0.3, true),
     Parameter("gamma-beta", 0.0, 0.1, true)]
  }

  /** The linear-bias block sits at indices base .. base+3. */
  ghost predicate LinearBiasBlock(ps: seq<Parameter>, base: int) {
    0 <= base && base + 4 <= |ps| &&
    ps[base].name == "beta" && ps[base + 1].name == "(1+beta)*bias" &&
    ps[base + 2].name == "gamma-bias" && ps[base + 3].name == "gamma-beta"
  }

  /** Every linear-bias parameter can be looked up by name. */
  ghost predicate HasLinearBias(ps: seq<Parameter>) {
    (exists j :: 0 <= j < |ps| && ps[j].name == "beta") &&
    (exists j :: 0 <= j < |ps| && ps[j].name == "(1+beta)*bias") &&
    (exists j :: 0 <= j < |ps| && ps[j].name == "gamma-bias") &&
    (exists j :: 0 <= j < |ps| && ps[j].name == "gamma-beta")
  }

  lemma BlockGivesLookup(ps: seq<Parameter>, base: int)
    requires LinearBiasBlock(ps, base)
    ensures HasLinearBias(ps)
  {
    assert ps[base].name == "beta";
    assert ps[base + 1].name == "(1+beta)*bias";
    assert ps[base + 2].name == "gamma-bias";
    assert ps[base + 3].name == "gamma-beta";
  }

  /** Monopole, quadrupole and hexadecapole normalisation factors. */
  datatype NormFactors = NormFactors(f0: real, f2: real, f4: real)

  /** Linear Kaiser factors for bias^2 and beta. */
  function KaiserNormFactors(biasSq: real, beta: real): NormFactors {
    NormFactors(biasSq * (1.0 + beta * (2.0 / 3.0 + (1.0 / 5.0) * beta)),
                biasSq * beta * (4.0 / 3.0 + (4.0 / 7.0) * beta),
                biasSq * beta * beta * (8.0 / 35.0))
  }

  /** The factor returned for a requested multipole; any multipole other than
      the quadrupole and hexadecapole gets the monopole factor. */
  function SelectFactor(nf: NormFactors, m: Multipole): real {
    match m
    case Hexadecapole => nf.f4
    case Quadrupole => nf.f2
    case _ => nf.f0
  }

  /** The current values of the four linear-bias parameters. */
  datatype LinearBias = LinearBias(beta: real, betaBias: real, gammaBias: real, gammaBeta: real)

  /** The linear-bias parameter values, each looked up by name. */
  function LinearBiasOf(ps: seq<Parameter>): LinearBias
    requires HasLinearBias(ps)
  {
    LinearBias(ValueOf(ps, "beta"), ValueOf(ps, "(1+beta)*bias"),
               ValueOf(ps, "gamma-bias"), ValueOf(ps, "gamma-beta"))
  }

  /** The three factors at redshift z for the given linear-bias values. */
  function NormFactorsFor(lb: LinearBias, zref: real, z: real, pow: (real, real) -> real): NormFactors
    requires 1.0 + lb.beta != 0.0 && 1.0 + zref != 0.0
  {
    var bias := lb.betaBias / (1.0 + lb.beta);
    KaiserNormFactors(RedshiftEvolution(bias * bias, lb.gammaBias, z, zref, pow),
                      RedshiftEvolution(lb.beta, lb.gammaBeta, z, zref, pow))
  }

  /** With no (evolved) redshift-space distortion only the monopole survives,
      and it is bias^2 itself. */
  lemma KaiserAtZeroBeta(biasSq: real)
    ensures KaiserNormFactors(biasSq, 0.0) == NormFactors(biasSq, 0.0, 0.0)
  {
  }

  /** For non-negative bias^2 and 0 <= beta <= 24 the monopole factor dominates
      the hexadecapole factor, which is non-negative. */
  lemma MonopoleDominatesHexadecapole(biasSq: real, beta: real)
    requires biasSq >= 0.0 && 0.0 <= beta <= 24.0
    ensures KaiserNormFactors(biasSq, beta).f0 >= KaiserNormFactors(biasSq, beta).f4 >= 0.0
  {
    KaiserDifference(biasSq, beta);
    KaiserGapPositive(beta);
    NonNegativeProduct(biasSq, 1.0 + beta * (2.0 / 3.0) - beta * beta / 35.0);
    NonNegativeProduct(biasSq, beta);
    NonNegativeProduct(biasSq * beta, beta);
  }

  /** f0 - f4 = bias^2 (1 + 2 beta / 3 - beta^2 / 35). */
  lemma KaiserDifference(biasSq: real, beta: real)
    ensures KaiserNormFactors(biasSq, beta).f0 - KaiserNormFactors(biasSq, beta).f4
         == biasSq * (1.0 + beta * (2.0 / 3.0) - beta * beta / 35.0)
  {
  }

  lemma KaiserGapPositive(beta: real)
    requires 0.0 <= beta <= 24.0
    ensures 1.0 + beta * (2.0 / 3.0) - beta * beta / 35.0 > 0.0
  {
    NonNegativeProduct(beta, 24.0 - beta);
  }

  lemma NonNegativeProduct(a: real, b: real)
    requires a >= 0.0 && b >= 0.0
    ensures a * b >= 0.0
  {
  }

  /** The dominance does not extend to every beta >= 0: at beta = 25 the
      hexadecapole factor exceeds the monopole factor. */
  lemma HexadecapoleExceedsMonopoleAtLargeBeta()
    ensures KaiserNormFactors(1.0, 25.0).f4 > KaiserNormFactors(1.0, 25.0).f0
  {
  }

  /** At the reference redshift the evolution is the identity, so the factors
      are the Kaiser factors of the parameters as stored. */
  lemma NormFactorsAtReference(lb: LinearBias, zref: real, pow: (real, real) -> real)
    requires 1.0 + lb.beta != 0.0 && 1.0 + zref != 0.0
    requires forall g :: pow(1.0, g) == 1.0
    ensures var bias := lb.betaBias / (1.0 + lb.beta);
            NormFactorsFor(lb, zref, zref, pow) == KaiserNormFactors(bias * bias, lb.beta)
  {
    var bias := lb.betaBias / (1.0 + lb.beta);
    assert pow(1.0, lb.gammaBias) == 1.0;
    assert pow(1.0, lb.gammaBeta) == 1.0;
  }

  /** The parameter state and linear-bias bookkeeping shared by every
      correlation model. */
  class AbsCorrelationModel {
    const name: string
    /** Parameter values and changed flags (the inherited fit-model state). */
    var state: ParameterState
    /** Index of "beta" once the linear-bias parameters are defined, -1 before. */
    var indexBase: int
    /** Reference redshift; the constructor leaves it unset, so its first
        value is whatever the object starts with. */
    var zref: real
    /** Normalisation factors cached by the last GetNormFactor call. */
    var normFactor0: real
    var normFactor2: real
    var normFactor4: real

    ghost predicate Valid()
      reads this
    {
      state.WellFormed() && indexBase >= -1 &&
      (indexBase >= 0 ==> LinearBiasBlock(state.params, indexBase))
    }

    constructor (name: string, initialZref: real)
      ensures Valid()
      ensures this.name == name && state == ParameterState([], [])
      ensures indexBase == -1 && zref == initialZref
    {
      this.name := name;
      state := ParameterState([], []);
      indexBase := -1;
      zref := initialZref;
    }

    /** Appends a parameter and returns its index. */
    method DefineParameter(pname: string, value: real, error: real) returns (index: nat)
      requires Valid()
      modifies this`state
      ensures Valid()
      ensures state == Define(old(state), pname, value, error)
      ensures index == |old(state.params)|
    {
      index := |state.params|;
      state := Define(state, pname, value, error);
    }

    /** Defines beta, (1+beta)*bias, gamma-bias and gamma-beta consecutively,
        once only, and returns the index of gamma-beta. The zref guard reads
        the stored reference redshift before the argument replaces it. */
    method DefineLinearBiasParameters(zrefArg: real) returns (r: Result<int, ModelError>)
      requires Valid()
      modifies this`state, this`indexBase, this`zref
      ensures Valid()
      ensures old(indexBase) >= 0 ==> r == Err(LinearBiasAlreadyDefined)
      ensures old(indexBase) < 0 && old(zref) < 0.0 ==> r == Err(NegativeZRef)
      ensures r.Err? ==> state == old(state) && indexBase == old(indexBase) && zref == old(zref)
      ensures old(indexBase) < 0 && old(zref) >= 0.0 ==>
        && r == Ok(|old(state.params)| + 3)
        && zref == zrefArg
        && indexBase == |old(state.params)|
        && state.params == old(state.params) + LinearBiasParameters()
        && state.changed == old(state.changed) + [true, true, true, true]
    {
      if indexBase >= 0 {
        return Err(LinearBiasAlreadyDefined);
      }
      if zref < 0.0 {
        return Err(NegativeZRef);
      }
      zref := zrefArg;
      var betaIndex := DefineParameter("beta", 1.4, 0.1);
      var _ := DefineParameter("(1+beta)*bias", -0.336, 0.03);
      var _ := DefineParameter("gamma-bias", 3.8, 0.3);
      var last := DefineParameter("gamma-beta", 0.0, 0.1);
      indexBase := betaIndex;
      r := Ok(last);
    }

    /** Either evaluate overload: install the parameter values, evaluate with
        the model-specific `evaluator` (told whether anything changed), then
        clear every changed flag. */
    method Evaluate(r: real, coord: Coord, z: real, values: seq<real>,
                    evaluator: (ParameterState, real, Coord, real, bool) -> real) returns (xi: real)
      requires Valid() && |values| == |state.params|
      modifies this`state
      ensures Valid()
      ensures state == ResetChanged(Update(old(state), values))
      ensures Values(state.params) == values && !AnyChanged(state)
      ensures xi == evaluator(Update(old(state), values), r, coord, z, AnyChanged(Update(old(state), values)))
    {
      state := Update(state, values);
      var anyChanged := AnyChanged(state);
      xi := evaluator(state, r, coord, z, anyChanged);
      state := ResetChanged(state);
    }

    /** Computes all three normalisation factors at redshift z, caches them,
        and returns the one for the requested multipole. */
    method GetNormFactor(multipole: Multipole, z: real, pow: (real, real) -> real)
      returns (r: Result<real, ModelError>)
      requires indexBase >= 0 ==> (HasLinearBias(state.params) &&
        1.0 + LinearBiasOf(state.params).beta != 0.0 && 1.0 + zref != 0.0)
      modifies this`normFactor0, this`normFactor2, this`normFactor4
      ensures indexBase < 0 ==> r == Err(NoLinearBias)
      ensures indexBase < 0 ==> (normFactor0 == old(normFactor0) &&
        normFactor2 == old(normFactor2) && normFactor4 == old(normFactor4))
      ensures indexBase >= 0 ==>
        && NormFactors(normFactor0, normFactor2, normFactor4) == NormFactorsFor(LinearBiasOf(state.params), zref, z, pow)
        && r == Ok(SelectFactor(NormFactorsFor(LinearBiasOf(state.params), zref, z, pow), multipole))
    {
      if indexBase < 0 {
        return Err(NoLinearBias);
      }
      var nf := NormFactorsFor(LinearBiasOf(state.params), zref, z, pow);
      normFactor0, normFactor2, normFactor4 := nf.f0, nf.f2, nf.f4;
      r := Ok(SelectFactor(nf, multipole));
    }
  }
}
