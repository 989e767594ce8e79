/** What the correlation analyzer computes, as functions: the argument
    checks of each analysis, the radial grid of model dumps, the layout of
    the sampling output file, the classification of sample fits, the
    reshaping of Markov-chain output and the finite-difference gradients of
    the residual dump. The methods of the analyzer are proved against these. */
module AnalyzerSpec {
  import opened Common
  import opened Streams
  import opened Samplers

  /** The errors the analyzer throws, one per check. */
  datatype AnalyzerError =
    | RangeNotIncreasing
    | NegativeZData
    | NonPositiveJackknifeDrop
    | TooFewObservations
    | NonPositiveBootstrapTrials
    | NegativeBootstrapSize
    | NonPositiveToyCount
    | NoCovariance
    | NonPositiveVarianceScale
    | NegativeNSave
    | InconsistentRefit
    | NonPositiveChainLength
    | NegativeChainInterval
    | NoObservations
    | TooFewDumpPoints

  // ----- argument checks -----

  /** The jackknife drops at least one observation out of more than one. */
  function JackknifeCheck(drop: int, ndata: nat): (e: Option<AnalyzerError>)
    ensures e.None? <==> drop > 0 && ndata > 1
    ensures e == Some(NonPositiveJackknifeDrop) <==> drop <= 0
    ensures e == Some(TooFewObservations) <==> drop > 0 && ndata <= 1
  {
    if drop <= 0 then Some(NonPositiveJackknifeDrop)
    else if ndata <= 1 then Some(TooFewObservations)
    else None
  }

  /** The bootstrap needs trials, a size that is not negative and more than
      one observation; a size of 0 means one trial draws as many observations
      as there are. The result is the size each trial uses. */
  function BootstrapCheck(trials: int, size: int, ndata: nat): (r: Result<int, AnalyzerError>)
    ensures r.Ok? <==> trials > 0 && size >= 0 && ndata > 1
    ensures r == Err(NonPositiveBootstrapTrials) <==> trials <= 0
    ensures r == Err(NegativeBootstrapSize) <==> trials > 0 && size < 0
    ensures r == Err(TooFewObservations) <==> trials > 0 && size >= 0 && ndata <= 1
    ensures r.Ok? ==> r.value > 0 && (size > 0 ==> r.value == size) && (size == 0 ==> r.value == ndata)
  {
    if trials <= 0 then Err(NonPositiveBootstrapTrials)
    else if size < 0 then Err(NegativeBootstrapSize)
    else if ndata <= 1 then Err(TooFewObservations)
    else if size == 0 then Ok(ndata)
    else Ok(size)
  }

  /** The toy Monte Carlo checks its count, then the covariance, then the
      variance scale. */
  function ToyMCCheck(ngen: int, hasCovariance: bool, varianceScale: real): (e: Option<AnalyzerError>)
    ensures e.None? <==> ngen > 0 && hasCovariance && varianceScale > 0.0
    ensures e == Some(NonPositiveToyCount) <==> ngen <= 0
    ensures e == Some(NoCovariance) <==> ngen > 0 && !hasCovariance
    ensures e == Some(NonPositiveVarianceScale) <==> ngen > 0 && hasCovariance && varianceScale <= 0.0
  {
    if ngen <= 0 then Some(NonPositiveToyCount)
    else if !hasCovariance then Some(NoCovariance)
    else if varianceScale <= 0.0 then Some(NonPositiveVarianceScale)
    else None
  }

  /** A sampling analysis needs nsave >= 0, and a refit minimum exactly when
      there is a refit configuration. */
  function SamplingCheck(nsave: int, hasRefit: bool, refitConfig: string): (e: Option<AnalyzerError>)
    ensures e.None? <==> nsave >= 0 && (hasRefit <==> |refitConfig| > 0)
    ensures e == Some(NegativeNSave) <==> nsave < 0
    ensures e == Some(InconsistentRefit) <==> nsave >= 0 && !(hasRefit <==> |refitConfig| > 0)
  {
    if nsave < 0 then Some(NegativeNSave)
    else if (!hasRefit && 0 < |refitConfig|) || (hasRefit && 0 == |refitConfig|) then Some(InconsistentRefit)
    else None
  }

  /** A Markov chain needs a positive length and an interval that is not
      negative. */
  function ChainCheck(nchain: int, interval: int): (e: Option<AnalyzerError>)
    ensures e.None? <==> nchain > 0 && interval >= 0
    ensures e == Some(NonPositiveChainLength) <==> nchain <= 0
    ensures e == Some(NegativeChainInterval) <==> nchain > 0 && interval < 0
  {
    if nchain <= 0 then Some(NonPositiveChainLength)
    else if interval < 0 then Some(NegativeChainInterval)
    else None
  }

  // ----- model dumps -----

  /** The parameters a configuration script leaves, or the parameters
      themselves when there is no script. */
  function Scripted(parameters: seq<Parameter>, script: string,
                    configure: (seq<Parameter>, string) -> seq<Parameter>): seq<Parameter>
  {
    if 0 < |script| then configure(parameters, script) else parameters
  }

  /** What a dump needs from the analyzer: the radial range, the data
      redshift and the model's prediction at (r, mu or multipole, z). */
  datatype Dumper = Dumper(rmin: real, rmax: real, zdata: real,
                           evaluate: (real, Coord, real, seq<real>) -> real)

  /** The spacing of an ndump-point grid over [rmin, rmax]. */
  function GridStep(rmin: real, rmax: real, ndump: int): real
    requires ndump > 1
  {
    (rmax - rmin) / ((ndump - 1) as real)
  }

  /** Radius number i of the grid. */
  function GridPoint(rmin: real, rmax: real, ndump: int, i: int): real
    requires ndump > 1
  {
    rmin + GridStep(rmin, rmax, ndump) * (i as real)
  }

  /** The grid starts at rmin and ends exactly at rmax. */
  lemma GridEnds(rmin: real, rmax: real, ndump: int)
    requires ndump > 1
    ensures GridPoint(rmin, rmax, ndump, 0) == rmin
    ensures GridPoint(rmin, rmax, ndump, ndump - 1) == rmax
  {
    var n := (ndump - 1) as real;
    assert GridStep(rmin, rmax, ndump) * n == rmax - rmin;
  }

  /** Over an increasing range the grid is strictly increasing. */
  lemma GridIncreasing(rmin: real, rmax: real, ndump: int, i: int, j: int)
    requires ndump > 1 && rmin < rmax && i < j
    ensures GridPoint(rmin, rmax, ndump, i) < GridPoint(rmin, rmax, ndump, j)
  {
    var step := GridStep(rmin, rmax, ndump);
    assert step > 0.0;
    StepScales(step, i as real, j as real);
  }

  lemma StepScales(step: real, a: real, b: real)
    requires step > 0.0 && a < b
    ensures step * a < step * b
  {
    assert step * b - step * a == step * (b - a);
    assert step * (b - a) > 0.0;
  }

  /** The three multipoles each grid point reports, in this order. */
  function Predictions(dm: Dumper, r: real, values: seq<real>): (ps: seq<real>)
    ensures |ps| == 3
  {
    [dm.evaluate(r, Pole(Monopole), dm.zdata, values),
     dm.evaluate(r, Pole(Quadrupole), dm.zdata, values),
     dm.evaluate(r, Pole(Hexadecapole), dm.zdata, values)]
  }

  /** The one-line dump of the first n grid points: three predictions each. */
  function DumpFields(dm: Dumper, values: seq<real>, ndump: int, n: nat): (l: Line)
    requires ndump > 1
  {
    if n == 0 then []
    else DumpFields(dm, values, ndump, n - 1) + RealTexts(Predictions(dm, GridPoint(dm.rmin, dm.rmax, ndump, n - 1), values))
  }

  /** Field 3i+j of a one-line dump is multipole j (monopole, quadrupole,
      hexadecapole) at grid point i. */
  lemma {:induction false} DumpFieldsLayout(dm: Dumper, values: seq<real>, ndump: int, n: nat)
    requires ndump > 1
    ensures |DumpFields(dm, values, ndump, n)| == 3 * n
    ensures forall i, j :: 0 <= i < n && 0 <= j < 3 ==>
      DumpFields(dm, values, ndump, n)[3 * i + j] ==
        RealText(Predictions(dm, GridPoint(dm.rmin, dm.rmax, ndump, i), values)[j])
  {
    if n > 0 {
      DumpFieldsLayout(dm, values, ndump, n - 1);
      var prev := DumpFields(dm, values, ndump, n - 1);
      var last := RealTexts(Predictions(dm, GridPoint(dm.rmin, dm.rmax, ndump, n - 1), values));
      forall i, j | 0 <= i < n && 0 <= j < 3
        ensures (prev + last)[3 * i + j] == RealText(Predictions(dm, GridPoint(dm.rmin, dm.rmax, ndump, i), values)[j])
      {
        if i < n - 1 {
          assert 3 * i + j < 3 * (n - 1);
        } else {
          assert 3 * i + j == 3 * (n - 1) + j;
        }
      }
    }
  }

  /** The multi-line dump of the first n grid points: one line per point,
      the radius first. */
  function DumpTable(dm: Dumper, values: seq<real>, ndump: int, n: nat): (t: seq<Line>)
    requires ndump > 1
    ensures |t| == n
    ensures forall i :: 0 <= i < n ==>
      t[i] == [RealText(GridPoint(dm.rmin, dm.rmax, ndump, i))] + RealTexts(Predictions(dm, GridPoint(dm.rmin, dm.rmax, ndump, i), values))
  {
    seq(n, i requires 0 <= i < n =>
      [RealText(GridPoint(dm.rmin, dm.rmax, ndump, i))] + RealTexts(Predictions(dm, GridPoint(dm.rmin, dm.rmax, ndump, i), values)))
  }

  /** What a complete dump writes: a partial line, or whole lines. */
  function DumpStream(dm: Dumper, values: seq<real>, ndump: int, oneLine: bool, n: nat): seq<Item>
    requires ndump > 1
  {
    if oneLine then Puts(DumpFields(dm, values, ndump, n)) else WriteLines(DumpTable(dm, values, ndump, n))
  }

  /** Read back, a multi-line dump is ndump lines of four fields, running from
      rmin to rmax. */
  lemma MultiLineDumpReadsBack(dm: Dumper, values: seq<real>, ndump: int)
    requires ndump > 1
    ensures var ls := Lines(DumpStream(dm, values, ndump, false, ndump));
      && |ls| == ndump
      && (forall i :: 0 <= i < ndump ==> |ls[i]| == 4)
      && ls[0][0] == RealText(dm.rmin)
      && ls[ndump - 1][0] == RealText(dm.rmax)
  {
    ReadWrittenLines(DumpTable(dm, values, ndump, ndump));
    GridEnds(dm.rmin, dm.rmax, ndump);
  }

  // ----- the sampling output file -----

  /** One fit's fields: all parameter values, then the chi-square (twice the
      minimized -log(likelihood)). */
  function FitFields(parameters: seq<Parameter>, fval: real): (l: Line)
    ensures |l| == |parameters| + 1
    ensures l[|parameters|] == RealText(2.0 * fval)
    ensures forall i :: 0 <= i < |parameters| ==> l[i] == RealText(parameters[i].value)
  {
    RealTexts(Values(parameters)) + [RealText(2.0 * fval)]
  }

  /** One line of the file: the fit, the refit if any, then (nsave > 0) the
      one-line model dump of each. */
  function SampleLine(dm: Dumper, nsave: int, parameters: seq<Parameter>, fval: real,
                      refit: Option<(seq<Parameter>, real)>): Line
    requires nsave != 1
  {
    FitFields(parameters, fval)
    + (if refit.Some? then FitFields(refit.value.0, refit.value.1) else [])
    + (if nsave > 0 then
         DumpFields(dm, Values(parameters), nsave, nsave)
         + (if refit.Some? then DumpFields(dm, Values(refit.value.0), nsave, nsave) else [])
       else [])
  }

  /** The refit as the file records it: present when it has parameters. */
  function RefitRecord(refit: Option<FunctionMinimum>): Option<(seq<Parameter>, real)> {
    if refit.Some? && |refit.value.parameters| > 0 then Some((refit.value.parameters, refit.value.minValue)) else None
  }

  /** The three header lines: (npar, nsave, nfit); the errors of each input
      minimum; the input minima written like a sample. */
  function HeaderLines(dm: Dumper, nsave: int, fmin: FunctionMinimum, fmin2: Option<FunctionMinimum>): (h: seq<Line>)
    requires nsave != 1
    ensures |h| == 3
  {
    [[IntText(|fmin.parameters|), IntText(nsave), IntText(if fmin2.Some? then 2 else 1)],
     RealTexts(Errors(fmin.parameters)) + (if fmin2.Some? then RealTexts(Errors(fmin2.value.parameters)) else []),
     SampleLine(dm, nsave, fmin.parameters, fmin.minValue,
       if fmin2.Some? then Some((fmin2.value.parameters, fmin2.value.minValue)) else None)]
  }

  /** A line without a refit holds npar values, the chi-square at index npar,
      then 3*nsave dump values; with a refit of as many parameters, twice as
      many fields. */
  lemma SampleLineLength(dm: Dumper, nsave: int, parameters: seq<Parameter>, fval: real,
                         refit: Option<(seq<Parameter>, real)>)
    requires nsave >= 0 && nsave != 1
    requires refit.Some? ==> |refit.value.0| == |parameters|
    ensures var l := SampleLine(dm, nsave, parameters, fval, refit);
      && |l| == (if refit.Some? then 2 else 1) * (|parameters| + 1 + 3 * nsave)
      && l[|parameters|] == RealText(2.0 * fval)
  {
    if nsave > 0 {
      DumpFieldsLayout(dm, Values(parameters), nsave, nsave);
      if refit.Some? {
        DumpFieldsLayout(dm, Values(refit.value.0), nsave, nsave);
      }
    }
  }

  // ----- sample fits -----

  /** The fits of one sample: the refit is attempted only after a successful
      first fit. */
  datatype SampleFit = SampleFit(first: FunctionMinimum, refit: Option<FunctionMinimum>)

  /** The minimizer run with the analyzer's method on a sample, with a
      configuration script ("" for the model's own configuration). */
  type Fitter = (string, Dataset, string) -> FunctionMinimum

  function FitSample(fit: Fitter, fitMethod: string, d: Dataset, refitConfig: string, hasRefit: bool): (f: SampleFit)
    ensures f.first == fit(fitMethod, d, "")
    ensures f.refit.Some? <==> f.first.ok && hasRefit
    ensures f.refit.Some? ==> f.refit.value == fit(fitMethod, d, refitConfig)
  {
    var first := fit(fitMethod, d, "");
    SampleFit(first, if first.ok && hasRefit then Some(fit(fitMethod, d, refitConfig)) else None)
  }

  /** A sample counts when its first fit and its refit (if any) succeed. */
  predicate Accepted(f: SampleFit) {
    f.first.ok && (f.refit.None? || f.refit.value.ok)
  }

  /** A sample is accepted exactly when the first fit succeeds and, with a
      refit requested, the refit succeeds too. */
  lemma AcceptedIffFitsSucceed(fit: Fitter, fitMethod: string, d: Dataset, refitConfig: string, hasRefit: bool)
    ensures Accepted(FitSample(fit, fitMethod, d, refitConfig, hasRefit))
       <==> fit(fitMethod, d, "").ok && (!hasRefit || fit(fitMethod, d, refitConfig).ok)
  {
  }

  /** The fits of a sequence of samples, fitted in order. */
  function FitsOf(fit: Fitter, fitMethod: string, ds: seq<Dataset>, refitConfig: string, hasRefit: bool): (fs: seq<SampleFit>)
    ensures |fs| == |ds|
  {
    if ds == [] then []
    else FitsOf(fit, fitMethod, ds[..|ds| - 1], refitConfig, hasRefit) + [FitSample(fit, fitMethod, ds[|ds| - 1], refitConfig, hasRefit)]
  }

  /** Fit i is the fit of sample i. */
  lemma {:induction false} FitsOfAt(fit: Fitter, fitMethod: string, ds: seq<Dataset>, refitConfig: string, hasRefit: bool)
    ensures forall i :: 0 <= i < |ds| ==>
      FitsOf(fit, fitMethod, ds, refitConfig, hasRefit)[i] == FitSample(fit, fitMethod, ds[i], refitConfig, hasRefit)
  {
    if ds != [] {
      FitsOfAt(fit, fitMethod, ds[..|ds| - 1], refitConfig, hasRefit);
    }
  }

  /** Fitting one more sample extends the fits by that sample's fits. */
  lemma FitsOfAppend(fit: Fitter, fitMethod: string, ds: seq<Dataset>, n: nat, refitConfig: string, hasRefit: bool)
    requires n < |ds|
    ensures FitsOf(fit, fitMethod, ds[..n + 1], refitConfig, hasRefit)
         == FitsOf(fit, fitMethod, ds[..n], refitConfig, hasRefit) + [FitSample(fit, fitMethod, ds[n], refitConfig, hasRefit)]
  {
    assert ds[..n + 1][..n] == ds[..n];
  }

  /** How many of the fits are rejected. */
  function Rejected(fs: seq<SampleFit>): nat {
    if fs == [] then 0
    else Rejected(fs[..|fs| - 1]) + (if Accepted(fs[|fs| - 1]) then 0 else 1)
  }

  /** The accepted fits, in order. */
  function AcceptedFits(fs: seq<SampleFit>): (a: seq<SampleFit>)
    ensures forall i :: 0 <= i < |a| ==> Accepted(a[i])
  {
    if fs == [] then []
    else AcceptedFits(fs[..|fs| - 1]) + (if Accepted(fs[|fs| - 1]) then [fs[|fs| - 1]] else [])
  }

  /** Every sample is either accepted or rejected: the rejected count is the
      number of samples minus the accepted ones, so never more than the
      number of samples. */
  lemma {:induction false} RejectedCount(fs: seq<SampleFit>)
    ensures Rejected(fs) + |AcceptedFits(fs)| == |fs|
    ensures Rejected(fs) <= |fs|
  {
    if fs != [] {
      RejectedCount(fs[..|fs| - 1]);
    }
  }

  /** What a statistics accumulator receives for one fit: the floating
      parameter values and the minimized value. */
  datatype Stat = Stat(values: seq<real>, fval: real)

  function FitStats(fs: seq<SampleFit>): (s: seq<Stat>)
  {
    var a := AcceptedFits(fs);
    seq(|a|, i requires 0 <= i < |a| => Stat(FloatingValues(a[i].first.parameters), a[i].first.minValue))
  }

  function RefitStats(fs: seq<SampleFit>): (s: seq<Stat>)
  {
    var a := AcceptedFits(fs);
    seq(|a|, i requires 0 <= i < |a| =>
      if a[i].refit.Some? then Stat(FloatingValues(a[i].refit.value.parameters), a[i].refit.value.minValue)
      else Stat([], 0.0))
  }

  function SavedLines(dm: Dumper, nsave: int, fs: seq<SampleFit>): (ls: seq<Line>)
    requires nsave != 1
  {
    var a := AcceptedFits(fs);
    seq(|a|, i requires 0 <= i < |a| => SampleLine(dm, nsave, a[i].first.parameters, a[i].first.minValue, RefitRecord(a[i].refit)))
  }

  /** One more sample: it is counted as rejected, or it adds one entry to
      each statistics list. */
  lemma AppendFit(fs: seq<SampleFit>, f: SampleFit)
    ensures Rejected(fs + [f]) == Rejected(fs) + (if Accepted(f) then 0 else 1)
    ensures AcceptedFits(fs + [f]) == AcceptedFits(fs) + (if Accepted(f) then [f] else [])
    ensures FitStats(fs + [f]) == FitStats(fs) +
      (if Accepted(f) then [Stat(FloatingValues(f.first.parameters), f.first.minValue)] else [])
    ensures RefitStats(fs + [f]) == RefitStats(fs) +
      (if Accepted(f) && f.refit.Some? then [Stat(FloatingValues(f.refit.value.parameters), f.refit.value.minValue)]
       else if Accepted(f) then [Stat([], 0.0)] else [])
  {
    assert (fs + [f])[..|fs|] == fs;
  }

  /** One more sample adds one saved line when it is accepted. */
  lemma AppendSavedLine(dm: Dumper, nsave: int, fs: seq<SampleFit>, f: SampleFit)
    requires nsave != 1
    ensures SavedLines(dm, nsave, fs + [f]) == SavedLines(dm, nsave, fs) +
      (if Accepted(f) then [SampleLine(dm, nsave, f.first.parameters, f.first.minValue, RefitRecord(f.refit))] else [])
  {
    AppendFit(fs, f);
  }

  /** What a sampling analysis reports: the number of rejected samples, the
      statistics of the fits and refits, and the file lines (when saving). */
  datatype SamplingSummary = SamplingSummary(nInvalid: nat, fitStats: seq<Stat>,
                                             refitStats: Option<seq<Stat>>, saved: Option<seq<Line>>)

  /** The samples a sampler hands out from its from-th request on. */
  ghost function Draws(kind: SamplerKind, res: Resampler, from: nat): (ds: seq<Dataset>)
    requires kind.ToyMC? ==> ToyFits(kind)
    requires kind.Jackknife? ==> res.JackknifeEnds()
    ensures |ds| == if from < SampleCount(kind, res) then SampleCount(kind, res) - from else 0
    ensures forall i :: 0 <= i < |ds| ==> SampleAt(kind, res, from + i) == Some(ds[i])
  {
    var n := if from < SampleCount(kind, res) then SampleCount(kind, res) - from else 0;
    seq(n, i requires 0 <= i < n => SamplesThenNone(kind, res, from + i); SampleAt(kind, res, from + i).value)
  }

  /** A sampling analysis over the samples from the from-th request on. */
  ghost function SamplingOutcome(kind: SamplerKind, res: Resampler, from: nat, fit: Fitter, fitMethod: string,
                                 dm: Dumper, fmin: FunctionMinimum, fmin2: Option<FunctionMinimum>,
                                 refitConfig: string, saveName: string, nsave: int): Result<SamplingSummary, AnalyzerError>
    requires kind.ToyMC? ==> ToyFits(kind)
    requires kind.Jackknife? ==> res.JackknifeEnds()
  {
    var check := SamplingCheck(nsave, fmin2.Some?, refitConfig);
    if check.Some? then Err(check.value)
    else if |saveName| > 0 && nsave == 1 then Err(TooFewDumpPoints)
    else
      var fs := FitsOf(fit, fitMethod, Draws(kind, res, from), refitConfig, fmin2.Some?);
      Ok(SamplingSummary(Rejected(fs), FitStats(fs), if fmin2.Some? then Some(RefitStats(fs)) else None,
        if |saveName| > 0 then Some(HeaderLines(dm, nsave, fmin, fmin2) + SavedLines(dm, nsave, fs)) else None))
  }

  /** When its checks pass, a sampling analysis reports the fits of the
      samples drawn. */
  lemma SamplingOutcomeOk(kind: SamplerKind, res: Resampler, from: nat, fit: Fitter, fitMethod: string,
                          dm: Dumper, fmin: FunctionMinimum, fmin2: Option<FunctionMinimum>,
                          refitConfig: string, saveName: string, nsave: int)
    requires kind.ToyMC? ==> ToyFits(kind)
    requires kind.Jackknife? ==> res.JackknifeEnds()
    requires SamplingCheck(nsave, fmin2.Some?, refitConfig).None?
    requires |saveName| > 0 ==> nsave != 1
    ensures var fs := FitsOf(fit, fitMethod, Draws(kind, res, from), refitConfig, fmin2.Some?);
      SamplingOutcome(kind, res, from, fit, fitMethod, dm, fmin, fmin2, refitConfig, saveName, nsave)
        == Ok(SamplingSummary(Rejected(fs), FitStats(fs), if fmin2.Some? then Some(RefitStats(fs)) else None,
             if |saveName| > 0 then Some(HeaderLines(dm, nsave, fmin, fmin2) + SavedLines(dm, nsave, fs)) else None))
  {
  }

  /** Each sample is either rejected or contributes one statistics entry and
      one saved line; the count of rejected samples never exceeds the number
      of samples. */
  lemma SamplingAccounts(kind: SamplerKind, res: Resampler, fit: Fitter, fitMethod: string,
                         dm: Dumper, fmin: FunctionMinimum, fmin2: Option<FunctionMinimum>,
                         refitConfig: string, saveName: string, nsave: int)
    requires kind.ToyMC? ==> ToyFits(kind)
    requires kind.Jackknife? ==> res.JackknifeEnds()
    ensures var r := SamplingOutcome(kind, res, 0, fit, fitMethod, dm, fmin, fmin2, refitConfig, saveName, nsave);
      r.Ok? ==>
        && r.value.nInvalid + |r.value.fitStats| == SampleCount(kind, res)
        && r.value.nInvalid <= SampleCount(kind, res)
        && (r.value.saved.Some? ==> |r.value.saved.value| == 3 + |r.value.fitStats|)
        && (r.value.refitStats.Some? ==> |r.value.refitStats.value| == |r.value.fitStats|)
  {
    var r := SamplingOutcome(kind, res, 0, fit, fitMethod, dm, fmin, fmin2, refitConfig, saveName, nsave);
    if r.Ok? {
      var fs := FitsOf(fit, fitMethod, Draws(kind, res, 0), refitConfig, fmin2.Some?);
      RejectedCount(fs);
    }
  }

  /** A sampling analysis fails exactly for a negative nsave, a refit minimum
      without a refit configuration or the other way round, or a one-point
      model dump requested for a saved file. */
  lemma SamplingFailures(kind: SamplerKind, res: Resampler, from: nat, fit: Fitter, fitMethod: string,
                         dm: Dumper, fmin: FunctionMinimum, fmin2: Option<FunctionMinimum>,
                         refitConfig: string, saveName: string, nsave: int)
    requires kind.ToyMC? ==> ToyFits(kind)
    requires kind.Jackknife? ==> res.JackknifeEnds()
    ensures SamplingOutcome(kind, res, from, fit, fitMethod, dm, fmin, fmin2, refitConfig, saveName, nsave).Err?
       <==> nsave < 0 || (fmin2.Some? <==> |refitConfig| == 0) || (|saveName| > 0 && nsave == 1)
  {
  }

  // ----- Markov chains -----

  /** Where record i of a flat chain of (npar values, fval) records starts:
      each record before it takes npar + 1 numbers. */
  function Offset(npar: nat, i: nat): nat {
    if i == 0 then 0 else Offset(npar, i - 1) + npar + 1
  }

  lemma OffsetStep(npar: nat, i: nat)
    ensures Offset(npar, i + 1) == Offset(npar, i) + npar + 1
  {
  }

  /** Record i starts at i * (npar + 1). */
  lemma {:induction false} OffsetIsProduct(npar: nat, i: nat)
    ensures Offset(npar, i) == i * (npar + 1)
  {
    if i > 0 {
      OffsetIsProduct(npar, i - 1);
    }
  }

  /** Later records start further on. */
  lemma {:induction false} MonotoneOffset(npar: nat, i: nat, j: nat)
    requires i <= j
    ensures Offset(npar, i) <= Offset(npar, j)
  {
    if i < j {
      MonotoneOffset(npar, i, j - 1);
    }
  }

  /** Record i of the chain: its npar parameter values and its fval. */
  function ChainRecord(samples: seq<real>, npar: nat, i: nat): (r: (seq<real>, real))
    requires Offset(npar, i + 1) <= |samples|
    ensures |r.0| == npar
  {
    OffsetStep(npar, i);
    (samples[Offset(npar, i)..Offset(npar, i) + npar], samples[Offset(npar, i) + npar])
  }

  /** The records, put back one after the other, are the chain's first n
      records' worth of numbers. */
  lemma {:induction false} ChainRecordsTile(samples: seq<real>, npar: nat, n: nat)
    requires Offset(npar, n) <= |samples|
    ensures Flatten(samples, npar, n) == samples[..Offset(npar, n)]
  {
    if n > 0 {
      OffsetStep(npar, n - 1);
      ChainRecordsTile(samples, npar, n - 1);
      var o := Offset(npar, n - 1);
      assert samples[..o + npar + 1] == samples[..o] + samples[o..o + npar] + [samples[o + npar]];
    }
  }

  /** The first n records laid out flat again. */
  function Flatten(samples: seq<real>, npar: nat, n: nat): seq<real>
    requires Offset(npar, n) <= |samples|
  {
    if n == 0 then []
    else
      OffsetStep(npar, n - 1);
      var r := ChainRecord(samples, npar, n - 1);
      Flatten(samples, npar, n - 1) + r.0 + [r.1]
  }

  /** The statistics of a chain: every record, none filtered out. */
  function ChainStats(parameters: seq<Parameter>, samples: seq<real>, n: nat): (s: seq<Stat>)
    requires Offset(|parameters|, n) <= |samples|
    ensures |s| == n
  {
    if n == 0 then []
    else
      OffsetStep(|parameters|, n - 1);
      var r := ChainRecord(samples, |parameters|, n - 1);
      ChainStats(parameters, samples, n - 1) + [Stat(FloatingValues(SetValues(parameters, r.0)), r.1)]
  }

  /** The lines of a chain's file after its header: one per record. */
  function ChainLines(dm: Dumper, nsave: int, parameters: seq<Parameter>, samples: seq<real>, n: nat): (ls: seq<Line>)
    requires nsave != 1
    requires Offset(|parameters|, n) <= |samples|
    ensures |ls| == n
  {
    if n == 0 then []
    else
      OffsetStep(|parameters|, n - 1);
      var r := ChainRecord(samples, |parameters|, n - 1);
      ChainLines(dm, nsave, parameters, samples, n - 1) + [SampleLine(dm, nsave, SetValues(parameters, r.0), r.1, None)]
  }

  /** One more chain record: one more statistics entry. */
  lemma AppendChainStat(parameters: seq<Parameter>, samples: seq<real>, n: nat)
    requires Offset(|parameters|, n + 1) <= |samples|
    ensures Offset(|parameters|, n) <= |samples|
    ensures var r := ChainRecord(samples, |parameters|, n);
      ChainStats(parameters, samples, n + 1) == ChainStats(parameters, samples, n) + [Stat(FloatingValues(SetValues(parameters, r.0)), r.1)]
  {
    OffsetStep(|parameters|, n);
  }

  /** One more chain record: one more line. */
  lemma AppendChainLine(dm: Dumper, nsave: int, parameters: seq<Parameter>, samples: seq<real>, n: nat)
    requires nsave != 1
    requires Offset(|parameters|, n + 1) <= |samples|
    ensures Offset(|parameters|, n) <= |samples|
    ensures var r := ChainRecord(samples, |parameters|, n);
      ChainLines(dm, nsave, parameters, samples, n + 1) == ChainLines(dm, nsave, parameters, samples, n) + [SampleLine(dm, nsave, SetValues(parameters, r.0), r.1, None)]
  {
    OffsetStep(|parameters|, n);
  }

  // ----- residuals -----

  /** One bin of the combined dataset as the residual dump reads it. */
  datatype ResidualBin = ResidualBin(index: int, centers: seq<real>, r: real, coord: Coord, z: real,
                                     data: real, variance: real)

  /** The angular field of a bin: mu, or the multipole's ell. */
  function CoordField(c: Coord): Token {
    match c
    case Mu(mu) => RealText(mu)
    case Pole(m) => IntText(Ell(m))
  }

  /** The prediction for a bin with parameter i set to x. */
  function PredictWith(evaluate: (real, Coord, real, seq<real>) -> real, b: ResidualBin,
                       values: seq<real>, i: nat, x: real): real
    requires i < |values|
  {
    evaluate(b.r, b.coord, b.z, values[i := x])
  }

  /** The central-difference derivative of the prediction with respect to
      parameter i, with a step of a tenth of its error; 0 when that step is
      not positive. */
  function GradientAt(evaluate: (real, Coord, real, seq<real>) -> real, b: ResidualBin,
                      values: seq<real>, errors: seq<real>, i: nat): real
    requires i < |values| && i < |errors|
  {
    var dpar := 0.1 * errors[i];
    if dpar > 0.0 then
      (PredictWith(evaluate, b, values, i, values[i] + 0.5 * dpar)
       - PredictWith(evaluate, b, values, i, values[i] - 0.5 * dpar)) / dpar
    else 0.0
  }

  /** The difference quotient is exact for a prediction that is affine in the
      parameter. */
  lemma AffineGradientExact(evaluate: (real, Coord, real, seq<real>) -> real, b: ResidualBin,
                            values: seq<real>, errors: seq<real>, i: nat, a: real, c: real)
    requires i < |values| && i < |errors| && errors[i] > 0.0
    requires forall x: real :: PredictWith(evaluate, b, values, i, x) == a + c * x
    ensures GradientAt(evaluate, b, values, errors, i) == c
  {
    var dpar := 0.1 * errors[i];
    var hi := values[i] + 0.5 * dpar;
    var lo := values[i] - 0.5 * dpar;
    assert PredictWith(evaluate, b, values, i, hi) == a + c * hi;
    assert PredictWith(evaluate, b, values, i, lo) == a + c * lo;
    DifferenceQuotient(a, c, hi, lo, dpar);
  }

  lemma DifferenceQuotient(a: real, c: real, hi: real, lo: real, d: real)
    requires d > 0.0 && hi - lo == d
    ensures ((a + c * hi) - (a + c * lo)) / d == c
  {
    calc {
      (a + c * hi) - (a + c * lo);
      c * (hi - lo);
      c * d;
    }
  }

  /** A parameter the prediction ignores has a zero gradient. */
  lemma IgnoredParameterHasZeroGradient(evaluate: (real, Coord, real, seq<real>) -> real, b: ResidualBin,
                                        values: seq<real>, errors: seq<real>, i: nat)
    requires i < |values| && i < |errors|
    requires forall x: real :: PredictWith(evaluate, b, values, i, x) == PredictWith(evaluate, b, values, i, values[i])
    ensures GradientAt(evaluate, b, values, errors, i) == 0.0
  {
    var dpar := 0.1 * errors[i];
    if dpar > 0.0 {
      assert PredictWith(evaluate, b, values, i, values[i] + 0.5 * dpar) == PredictWith(evaluate, b, values, i, values[i]);
      assert PredictWith(evaluate, b, values, i, values[i] - 0.5 * dpar) == PredictWith(evaluate, b, values, i, values[i]);
    }
  }

  /** The gradients of the first n parameters. */
  function Gradients(evaluate: (real, Coord, real, seq<real>) -> real, b: ResidualBin,
                     values: seq<real>, errors: seq<real>, n: nat): (g: seq<real>)
    requires n <= |values| && n <= |errors|
    ensures |g| == n
    ensures forall i :: 0 <= i < n ==> g[i] == GradientAt(evaluate, b, values, errors, i)
  {
    seq(n, i requires 0 <= i < n => GradientAt(evaluate, b, values, errors, i))
  }

  /** One line of the residual dump: bin index, bin centers, r, mu or ell,
      z, prediction, data, error, then the gradients if requested. */
  function ResidualLine(evaluate: (real, Coord, real, seq<real>) -> real, sqrt: real -> real,
                        hasCovariance: bool, b: ResidualBin, values: seq<real>, errors: seq<real>,
                        npar: nat, dumpGradients: bool): Line
    requires dumpGradients ==> npar <= |values| && npar <= |errors|
  {
    [IntText(b.index)] + RealTexts(b.centers)
    + [RealText(b.r), CoordField(b.coord), RealText(b.z), RealText(evaluate(b.r, b.coord, b.z, values)),
       RealText(b.data), RealText(if hasCovariance then sqrt(b.variance) else 0.0)]
    + (if dumpGradients then RealTexts(Gradients(evaluate, b, values, errors, npar)) else [])
  }
}
