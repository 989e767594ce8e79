/** The correlation analyzer: it holds the observations and the radial range
    used for model dumps, runs resampling analyses (jackknife, bootstrap,
    each observation, toy Monte Carlo) and Markov chains, and dumps model
    predictions and residuals. The minimizer, the Markov-chain generator,
    the model's prediction and the configuration scripts are oracles. */
module Analyzer {
  import opened Common
  import opened Streams
  import opened Samplers
  import opened AnalyzerSpec

  /** The external pieces the analyzer calls:
      - fit(method, sample, script): the minimizer;
      - evaluate(r, mu or multipole, z, values): the model's prediction;
      - configure(parameters, script): a configuration script applied to
        parameters;
      - mcmc(fmin, nchain, interval): the flat Markov-chain output;
      - sqrt: the square root of a variance. */
  datatype Externals = Externals(
    fit: Fitter,
    evaluate: (real, Coord, real, seq<real>) -> real,
    configure: (seq<Parameter>, string) -> seq<Parameter>,
    mcmc: (FunctionMinimum, nat, nat) -> seq<real>,
    sqrt: real -> real)

  /** What the toy Monte Carlo needs beyond the resampler: the combined
      (unfinalized) dataset, the covariance scaling, the prediction of a
      dataset's bins from parameter values, and the k-th noise draw from a
      dataset's covariance. */
  datatype ToyInputs = ToyInputs(
    combined: Dataset,
    scaleCovariance: (Dataset, real) -> Dataset,
    predict: (Dataset, seq<real>) -> seq<real>,
    noise: (Dataset, nat) -> seq<real>)

  /** Predictions and noise draws cover every bin of the dataset. */
  ghost predicate ToyInputsFit(toy: ToyInputs) {
    && (forall d: Dataset, vs: seq<real> :: |toy.predict(d, vs)| >= |d.values|)
    && (forall d: Dataset, k: nat :: |toy.noise(d, k)| >= |d.values|)
  }

  /** The toy Monte Carlo sampler an analysis builds: the combined dataset,
      its covariance scaled unless the scale is 1, finalized; the truth
      predicted from the minimum's parameters after the Monte Carlo script. */
  function ToyKind(ngen: int, mcConfig: string, mcSaveFile: string, varianceScale: real,
                   fmin: FunctionMinimum, toy: ToyInputs, res: Resampler,
                   configure: (seq<Parameter>, string) -> seq<Parameter>): (k: SamplerKind)
    ensures k.ToyMC? && k.ngen == ngen && k.filename == mcSaveFile
    ensures ToyInputsFit(toy) ==> ToyFits(k)
  {
    var scaled := if varianceScale != 1.0 then toy.scaleCovariance(toy.combined, varianceScale) else toy.combined;
    var prototype := res.finalize(scaled);
    var truth := toy.predict(prototype, Values(configure(fmin.parameters, mcConfig)));
    ToyMC(ngen, prototype, truth, mcSaveFile, (k: nat) => toy.noise(prototype, k))
  }

  /** What a Markov chain reports: the statistics of every record and the
      file lines (when saving). */
  datatype ChainSummary = ChainSummary(stats: seq<Stat>, saved: Option<seq<Line>>)

  class CorrelationAnalyzer {
    const fitMethod: string
    const rmin: real
    const rmax: real
    const verbose: bool
    const res: Resampler
    var zdata: real

    ghost predicate Valid()
      reads this
    {
      rmin < rmax
    }

    /** The analyzer over the resampler's observations; `zdata` is the data
        redshift until `SetZData` replaces it. */
    constructor (fitMethod: string, rmin: real, rmax: real, verbose: bool, res: Resampler, zdata: real)
      requires rmin < rmax
      ensures Valid()
      ensures this.fitMethod == fitMethod && this.rmin == rmin && this.rmax == rmax
      ensures this.verbose == verbose && this.res == res && this.zdata == zdata
    {
      this.fitMethod := fitMethod;
      this.rmin := rmin;
      this.rmax := rmax;
      this.verbose := verbose;
      this.res := res;
      this.zdata := zdata;
    }

    /** What model dumps read from the analyzer. */
    function View(evaluate: (real, Coord, real, seq<real>) -> real): Dumper
      reads this
    {
      Dumper(rmin, rmax, zdata, evaluate)
    }

    /** Sets the data redshift, which may not be negative. */
    method SetZData(z: real) returns (e: Option<AnalyzerError>)
      modifies this`zdata
      ensures e.Some? <==> z < 0.0
      ensures e.Some? ==> e.value == NegativeZData && zdata == old(zdata)
      ensures e.None? ==> zdata == z
    {
      if z < 0.0 {
        return Some(NegativeZData);
      }
      zdata := z;
      e := None;
    }

    /** Writes the three multipole predictions at ndump radii from rmin to
        rmax: on the current line, or one line per radius with the radius
        first. */
    method DumpModel(parameters: seq<Parameter>, ndump: int, script: string, oneLine: bool, ext: Externals)
      returns (out: Result<seq<Item>, AnalyzerError>)
      ensures out.Err? <==> ndump <= 1
      ensures out.Err? ==> out.error == TooFewDumpPoints
      ensures out.Ok? ==>
        out.value == DumpStream(View(ext.evaluate), Values(Scripted(parameters, script, ext.configure)), ndump, oneLine, ndump)
    {
      if ndump <= 1 {
        return Err(TooFewDumpPoints);
      }
      var ps := if 0 < |script| then ext.configure(parameters, script) else parameters;
      var values := Values(ps);
      var dr := (rmax - rmin) / ((ndump - 1) as real);
      var items: seq<Item> := [];
      for rIndex := 0 to ndump
        invariant items == DumpStream(View(ext.evaluate), values, ndump, oneLine, rIndex)
      {
        var rval := rmin + dr * (rIndex as real);
        assert rval == GridPoint(rmin, rmax, ndump, rIndex);
        var point := DumpPoint(rval, values, oneLine, ext);
        DumpStep(View(ext.evaluate), values, ndump, oneLine, rIndex);
        items := items + point;
      }
      out := Ok(items);
    }

    /** The output of one grid point of a dump. */
    method DumpPoint(rval: real, values: seq<real>, oneLine: bool, ext: Externals) returns (items: seq<Item>)
      ensures items == if oneLine then Puts(RealTexts(Predictions(View(ext.evaluate), rval, values)))
        else [Put(RealText(rval))] + Puts(RealTexts(Predictions(View(ext.evaluate), rval, values))) + [EndLine]
    {
      var mono := ext.evaluate(rval, Pole(Monopole), zdata, values);
      var quad := ext.evaluate(rval, Pole(Quadrupole), zdata, values);
      var hexa := ext.evaluate(rval, Pole(Hexadecapole), zdata, values);
      items := [];
      if !oneLine {
        items := items + [Put(RealText(rval))];
      }
      items := items + Puts(RealTexts([mono, quad, hexa]));
      if !oneLine {
        items := items + [EndLine];
      }
    }

    /** A sampling analysis: fits every sample the sampler hands out (and
        refits it after a successful first fit when a refit is requested),
        accumulates and saves the accepted ones and counts the others. */
    method DoSamplingAnalysis(sampler: Sampler, fmin: FunctionMinimum, fmin2: Option<FunctionMinimum>,
                              refitConfig: string, saveName: string, nsave: int, ext: Externals)
      returns (r: Result<SamplingSummary, AnalyzerError>)
      requires sampler.Valid()
      modifies sampler
      ensures sampler.Valid()
      ensures r.Ok? ==> sampler.Calls() > old(sampler.Calls())
      ensures r.Err? ==> unchanged(sampler)
      ensures r == SamplingOutcome(sampler.kind, sampler.res, old(sampler.Calls()), ext.fit, fitMethod,
                                   View(ext.evaluate), fmin, fmin2, refitConfig, saveName, nsave)
    {
      var check := SamplingCheck(nsave, fmin2.Some?, refitConfig);
      if check.Some? {
        return Err(check.value);
      }
      var started := OpenSamplingOutput(fmin, fmin2, saveName, nsave, ext);
      if started.Err? {
        return Err(started.error);
      }
      var output := started.value;
      ghost var header := if |saveName| > 0 then HeaderLines(View(ext.evaluate), nsave, fmin, fmin2) else [];
      ghost var fits;
      var fitStats, refitStats, nInvalid;
      fits, fitStats, refitStats, nInvalid := FitSamples(sampler, output, fmin2.Some?, refitConfig, header, View(ext.evaluate), ext);
      SamplingOutcomeOk(sampler.kind, sampler.res, old(sampler.Calls()), ext.fit, fitMethod, View(ext.evaluate),
                        fmin, fmin2, refitConfig, saveName, nsave);
      r := Ok(SamplingSummary(nInvalid, fitStats, if fmin2.Some? then Some(refitStats) else None,
                              if |saveName| > 0 then Some(output.lines) else None));
    }

    /** The jackknife analysis: after its checks, a sampling analysis over
        the subsets that leave `drop` observations out. */
    method DoJackknifeAnalysis(drop: int, fmin: FunctionMinimum, fmin2: Option<FunctionMinimum>,
                               refitConfig: string, saveName: string, nsave: int, ext: Externals)
      returns (r: Result<SamplingSummary, AnalyzerError>)
      requires res.JackknifeEnds()
      ensures var check := JackknifeCheck(drop, |res.observations|);
        check.Some? ==> r == Err(check.value)
      ensures JackknifeCheck(drop, |res.observations|).None? ==>
        r == SamplingOutcome(Jackknife(drop as nat), res, 0, ext.fit, fitMethod, View(ext.evaluate),
                             fmin, fmin2, refitConfig, saveName, nsave)
    {
      var check := JackknifeCheck(drop, |res.observations|);
      if check.Some? {
        return Err(check.value);
      }
      var sampler := new Sampler(Jackknife(drop as nat), res);
      r := DoSamplingAnalysis(sampler, fmin, fmin2, refitConfig, saveName, nsave, ext);
    }

    /** The bootstrap analysis: after its checks, a sampling analysis over
        `trials` bootstrap draws of the checked size (all observations when
        the size is 0). */
    method DoBootstrapAnalysis(trials: int, size: int, fixCovariance: bool, fmin: FunctionMinimum,
                               fmin2: Option<FunctionMinimum>, refitConfig: string, saveName: string, nsave: int,
                               ext: Externals)
      returns (r: Result<SamplingSummary, AnalyzerError>)
      ensures var check := BootstrapCheck(trials, size, |res.observations|);
        check.Err? ==> r == Err(check.error)
      ensures var check := BootstrapCheck(trials, size, |res.observations|);
        check.Ok? ==>
          r == SamplingOutcome(Bootstrap(trials, check.value, fixCovariance), res, 0, ext.fit, fitMethod,
                               View(ext.evaluate), fmin, fmin2, refitConfig, saveName, nsave)
    {
      var check := BootstrapCheck(trials, size, |res.observations|);
      if check.Err? {
        return Err(check.error);
      }
      var sampler := new Sampler(Bootstrap(trials, check.value, fixCovariance), res);
      r := DoSamplingAnalysis(sampler, fmin, fmin2, refitConfig, saveName, nsave, ext);
    }

    /** Fits each observation on its own, in order. */
    method FitEach(fmin: FunctionMinimum, fmin2: Option<FunctionMinimum>, refitConfig: string, saveName: string,
                   nsave: int, ext: Externals)
      returns (r: Result<SamplingSummary, AnalyzerError>)
      ensures r == SamplingOutcome(Each, res, 0, ext.fit, fitMethod, View(ext.evaluate),
                                   fmin, fmin2, refitConfig, saveName, nsave)
    {
      var sampler := new Sampler(Each, res);
      r := DoSamplingAnalysis(sampler, fmin, fmin2, refitConfig, saveName, nsave, ext);
    }

    /** The toy Monte Carlo: after its checks, a sampling analysis over `ngen`
        noisy copies of the predicted truth. `files` lists the datasets the
        sampler wrote: the first toy sample, when there is a file name and
        the analysis ran. */
    method DoToyMCSampling(ngen: int, mcConfig: string, mcSaveFile: string, varianceScale: real,
                           fmin: FunctionMinimum, fmin2: Option<FunctionMinimum>, refitConfig: string,
                           saveName: string, nsave: int, toy: ToyInputs, ext: Externals)
      returns (r: Result<SamplingSummary, AnalyzerError>, files: seq<(string, Dataset)>)
      requires ToyInputsFit(toy)
      ensures var check := ToyMCCheck(ngen, toy.combined.hasCovariance, varianceScale);
        check.Some? ==> r == Err(check.value) && files == []
      ensures ToyMCCheck(ngen, toy.combined.hasCovariance, varianceScale).None? ==>
        var kind := ToyKind(ngen, mcConfig, mcSaveFile, varianceScale, fmin, toy, res, ext.configure);
        && ToyFits(kind)
        && r == SamplingOutcome(kind, res, 0, ext.fit, fitMethod, View(ext.evaluate),
                                fmin, fmin2, refitConfig, saveName, nsave)
        && files == (if r.Ok? && |mcSaveFile| > 0 then [(mcSaveFile, SampleAt(kind, res, 0).value)] else [])
    {
      var check := ToyMCCheck(ngen, toy.combined.hasCovariance, varianceScale);
      if check.Some? {
        return Err(check.value), [];
      }
      var kind := ToyKind(ngen, mcConfig, mcSaveFile, varianceScale, fmin, toy, res, ext.configure);
      var sampler := new Sampler(kind, res);
      r := DoSamplingAnalysis(sampler, fmin, fmin2, refitConfig, saveName, nsave, ext);
      files := sampler.saved;
    }

    /** Fits every sample the sampler still hands out, in order, taking in
        each one's fits. */
    method FitSamples(sampler: Sampler, output: SamplingOutput, hasRefit: bool, refitConfig: string,
                      ghost header: seq<Line>, ghost dm: Dumper, ext: Externals)
      returns (ghost fits: seq<SampleFit>, fitStats: seq<Stat>, refitStats: seq<Stat>, nInvalid: nat)
      requires sampler.Valid() && output.Valid()
      requires output.parent == this && output.evaluate == ext.evaluate && dm == View(ext.evaluate)
      requires output.lines == (if output.saving then header else [])
      modifies sampler, output`lines
      ensures sampler.Valid()
      ensures old(sampler.Calls()) >= 0
      ensures sampler.Calls() == old(sampler.Calls()) + |fits| + 1
      ensures fits == FitsOf(ext.fit, fitMethod, Draws(sampler.kind, sampler.res, old(sampler.Calls())), refitConfig, hasRefit)
      ensures nInvalid == Rejected(fits) && fitStats == FitStats(fits)
      ensures hasRefit ==> refitStats == RefitStats(fits)
      ensures output.lines == (if output.saving then header + SavedLines(dm, output.nsave, fits) else [])
    {
      ghost var from: nat := sampler.Calls();
      ghost var all := Draws(sampler.kind, sampler.res, from);
      fits := [];
      fitStats := [];
      refitStats := [];
      nInvalid := 0;
      var sample := NextDraw(sampler, from, all, 0);
      while sample.Some?
        invariant sampler.Valid() && output.Valid()
        invariant sampler.Calls() == from + |fits| + 1
        invariant sample.Some? ==> |fits| < |all| && sample.value == all[|fits|]
        invariant sample.None? ==> |fits| == |all|
        invariant forall i :: 0 <= i < |fits| ==> fits[i] == FitSample(ext.fit, fitMethod, all[i], refitConfig, hasRefit)
        invariant nInvalid == Rejected(fits)
        invariant fitStats == FitStats(fits)
        invariant hasRefit ==> refitStats == RefitStats(fits)
        invariant output.lines == (if output.saving then header + SavedLines(dm, output.nsave, fits) else [])
        decreases |all| - |fits|
      {
        fits, fitStats, refitStats, nInvalid, sample :=
          FitStep(sampler, output, hasRefit, refitConfig, header, dm, ext, from, all, fits, fitStats, refitStats, nInvalid, sample.value);
      }
      FitsOfAt(ext.fit, fitMethod, all, refitConfig, hasRefit);
    }

    /** One turn of a sampling analysis: fits the sample, takes in its fits
        and asks the sampler for the next one. */
    method FitStep(sampler: Sampler, output: SamplingOutput, hasRefit: bool, refitConfig: string,
                   ghost header: seq<Line>, ghost dm: Dumper, ext: Externals, ghost from: nat, ghost all: seq<Dataset>,
                   ghost fits: seq<SampleFit>, fitStats: seq<Stat>, refitStats: seq<Stat>, nInvalid: nat, sample: Dataset)
      returns (ghost newFits: seq<SampleFit>, newFitStats: seq<Stat>, newRefitStats: seq<Stat>, newInvalid: nat,
               next: Option<Dataset>)
      requires sampler.Valid() && output.Valid()
      requires output.parent == this && output.evaluate == ext.evaluate && dm == View(ext.evaluate)
      requires all == Draws(sampler.kind, sampler.res, from)
      requires sampler.Calls() == from + |fits| + 1
      requires |fits| < |all| && sample == all[|fits|]
      requires forall i :: 0 <= i < |fits| ==> fits[i] == FitSample(ext.fit, fitMethod, all[i], refitConfig, hasRefit)
      requires nInvalid == Rejected(fits) && fitStats == FitStats(fits)
      requires hasRefit ==> refitStats == RefitStats(fits)
      requires output.lines == (if output.saving then header + SavedLines(dm, output.nsave, fits) else [])
      modifies sampler, output`lines
      ensures sampler.Valid()
      ensures |newFits| == |fits| + 1
      ensures sampler.Calls() == from + |newFits| + 1
      ensures next.Some? ==> |newFits| < |all| && next.value == all[|newFits|]
      ensures next.None? ==> |newFits| == |all|
      ensures forall i :: 0 <= i < |newFits| ==> newFits[i] == FitSample(ext.fit, fitMethod, all[i], refitConfig, hasRefit)
      ensures newInvalid == Rejected(newFits) && newFitStats == FitStats(newFits)
      ensures hasRefit ==> newRefitStats == RefitStats(newFits)
      ensures output.lines == (if output.saving then header + SavedLines(dm, output.nsave, newFits) else [])
    {
      var fitted := FitOne(sample, hasRefit, refitConfig, ext);
      newFitStats, newRefitStats, newInvalid := Accumulate(output, fitted, hasRefit, fitStats, refitStats, nInvalid, fits,
                                                           header, dm, ext);
      newFits := fits + [fitted];
      next := NextDraw(sampler, from, all, |newFits|);
    }

    /** Takes in one sample's fits: an accepted sample adds its statistics
        and its saved line, any other one is counted as rejected. */
    method Accumulate(output: SamplingOutput, f: SampleFit, hasRefit: bool, fitStats: seq<Stat>, refitStats: seq<Stat>,
                      nInvalid: nat, ghost fits: seq<SampleFit>, ghost header: seq<Line>, ghost dm: Dumper, ext: Externals)
      returns (newFitStats: seq<Stat>, newRefitStats: seq<Stat>, newInvalid: nat)
      requires output.Valid() && output.parent == this && output.evaluate == ext.evaluate && dm == View(ext.evaluate)
      requires f.refit.Some? <==> f.first.ok && hasRefit
      requires nInvalid == Rejected(fits) && fitStats == FitStats(fits)
      requires hasRefit ==> refitStats == RefitStats(fits)
      requires output.lines == (if output.saving then header + SavedLines(dm, output.nsave, fits) else [])
      modifies output`lines
      ensures newInvalid == Rejected(fits + [f]) && newFitStats == FitStats(fits + [f])
      ensures hasRefit ==> newRefitStats == RefitStats(fits + [f])
      ensures output.lines == (if output.saving then header + SavedLines(dm, output.nsave, fits + [f]) else [])
    {
      AppendFit(fits, f);
      if output.saving {
        AppendSavedLine(dm, output.nsave, fits, f);
      }
      newFitStats, newRefitStats, newInvalid := fitStats, refitStats, nInvalid;
      if Accepted(f) {
        newFitStats := fitStats + [Stat(FloatingValues(f.first.parameters), f.first.minValue)];
        if hasRefit {
          newRefitStats := refitStats + [Stat(FloatingValues(f.refit.value.parameters), f.refit.value.minValue)];
        }
        var refitParameters := if f.refit.Some? then f.refit.value.parameters else [];
        var refitValue := if f.refit.Some? then f.refit.value.minValue else 0.0;
        output.SaveSample(f.first.parameters, f.first.minValue, refitParameters, refitValue, ext);
      } else {
        newInvalid := nInvalid + 1;
      }
    }

    /** The fits of one sample: the refit only after a successful first fit. */
    method FitOne(sample: Dataset, hasRefit: bool, refitConfig: string, ext: Externals) returns (f: SampleFit)
      ensures f == FitSample(ext.fit, fitMethod, sample, refitConfig, hasRefit)
    {
      var sampleMin := ext.fit(fitMethod, sample, "");
      var sampleMinRefit: Option<FunctionMinimum> := None;
      if sampleMin.ok && hasRefit {
        sampleMinRefit := Some(ext.fit(fitMethod, sample, refitConfig));
      }
      f := SampleFit(sampleMin, sampleMinRefit);
    }

    /** Opens the output of a sampling analysis and writes its header; fails
        when the header's model dump would have fewer than two points. */
    method OpenSamplingOutput(fmin: FunctionMinimum, fmin2: Option<FunctionMinimum>, saveName: string,
                              nsave: int, ext: Externals)
      returns (r: Result<SamplingOutput, AnalyzerError>)
      ensures r.Err? <==> |saveName| > 0 && nsave == 1
      ensures r.Err? ==> r.error == TooFewDumpPoints
      ensures r.Ok? ==> fresh(r.value) && r.value.Valid()
      ensures r.Ok? ==> r.value.parent == this && r.value.nsave == nsave && r.value.evaluate == ext.evaluate
      ensures r.Ok? ==> r.value.saving == (|saveName| > 0)
      ensures r.Ok? ==> r.value.lines == (if |saveName| > 0 then HeaderLines(View(ext.evaluate), nsave, fmin, fmin2) else [])
    {
      if |saveName| == 0 {
        var output := new SamplingOutput(nsave, this, false, ext.evaluate, []);
        return Ok(output);
      }
      if nsave == 1 {
        return Err(TooFewDumpPoints);
      }
      var line1 := [IntText(|fmin.parameters|), IntText(nsave), IntText(if fmin2.Some? then 2 else 1)];
      var line2 := RealTexts(Errors(fmin.parameters));
      if fmin2.Some? {
        line2 := line2 + RealTexts(Errors(fmin2.value.parameters));
      }
      var refit := if fmin2.Some? then Some((fmin2.value.parameters, fmin2.value.minValue)) else None;
      var line3 := FitsLine(fmin.parameters, fmin.minValue, refit, nsave, ext);
      assert line2 == RealTexts(Errors(fmin.parameters)) + (if fmin2.Some? then RealTexts(Errors(fmin2.value.parameters)) else []);
      var output := new SamplingOutput(nsave, this, true, ext.evaluate, [line1, line2, line3]);
      r := Ok(output);
    }

    /** The fields of a fit and of its refit, then their one-line dumps. */
    method FitsLine(parameters: seq<Parameter>, fval: real, refit: Option<(seq<Parameter>, real)>,
                    nsave: int, ext: Externals) returns (line: Line)
      requires nsave != 1
      ensures line == SampleLine(View(ext.evaluate), nsave, parameters, fval, refit)
    {
      line := FitFields(parameters, fval);
      if refit.Some? {
        line := line + FitFields(refit.value.0, refit.value.1);
      }
      if nsave > 0 {
        var dump := DumpModel(parameters, nsave, "", true, ext);
        line := line + Fields(dump.value);
        if refit.Some? {
          var dump2 := DumpModel(refit.value.0, nsave, "", true, ext);
          line := line + Fields(dump2.value);
        }
      }
    }

    /** A Markov chain of nchain records from the combined data, each
        written to the output and accumulated, none filtered out. */
    method GenerateMarkovChain(nchain: int, interval: int, fmin: FunctionMinimum, saveName: string,
                               nsave: int, ext: Externals)
      returns (r: Result<ChainSummary, AnalyzerError>)
      requires nchain > 0 && interval >= 0 ==>
        Offset(|fmin.parameters|, nchain) <= |ext.mcmc(fmin, nchain, interval)|
      ensures ChainCheck(nchain, interval).Some? ==> r == Err(ChainCheck(nchain, interval).value)
      ensures ChainCheck(nchain, interval).None? && |saveName| > 0 && nsave == 1 ==> r == Err(TooFewDumpPoints)
      ensures r.Ok? <==> ChainCheck(nchain, interval).None? && (|saveName| == 0 || nsave != 1)
      ensures r.Ok? ==>
        var samples := ext.mcmc(fmin, nchain, interval);
        && r.value.stats == ChainStats(fmin.parameters, samples, nchain)
        && r.value.saved == (if |saveName| > 0
             then Some(HeaderLines(View(ext.evaluate), nsave, fmin, None) + ChainLines(View(ext.evaluate), nsave, fmin.parameters, samples, nchain))
             else None)
    {
      var check := ChainCheck(nchain, interval);
      if check.Some? {
        return Err(check.value);
      }
      var samples := ext.mcmc(fmin, nchain, interval);
      var started := OpenSamplingOutput(fmin, None, saveName, nsave, ext);
      if started.Err? {
        return Err(started.error);
      }
      var output := started.value;
      ghost var header := if |saveName| > 0 then HeaderLines(View(ext.evaluate), nsave, fmin, None) else [];
      var stats := RunChain(output, samples, fmin.parameters, nchain, header, View(ext.evaluate), ext);
      r := Ok(ChainSummary(stats, if |saveName| > 0 then Some(output.lines) else None));
    }

    /** Saves and accumulates the first nchain records of a chain, each
        with its values set into a copy of the parameters. */
    method RunChain(output: SamplingOutput, samples: seq<real>, base: seq<Parameter>, nchain: nat,
                    ghost header: seq<Line>, ghost dm: Dumper, ext: Externals)
      returns (stats: seq<Stat>)
      requires output.Valid() && output.parent == this && output.evaluate == ext.evaluate && dm == View(ext.evaluate)
      requires Offset(|base|, nchain) <= |samples|
      requires output.lines == (if output.saving then header else [])
      modifies output`lines
      ensures stats == ChainStats(base, samples, nchain)
      ensures output.lines == (if output.saving then header + ChainLines(dm, output.nsave, base, samples, nchain) else [])
    {
      var parameters := base;
      var npar := |parameters|;
      stats := [];
      var iter := 0;
      ghost var last := Values(base);
      SetValuesOwn(base);
      for i := 0 to nchain
        invariant output.Valid() && output.parent == this && output.evaluate == ext.evaluate
        invariant iter == Offset(npar, i) && Offset(npar, i) <= |samples|
        invariant |last| == npar && parameters == SetValues(base, last)
        invariant stats == ChainStats(base, samples, i)
        invariant output.lines == (if output.saving then header + ChainLines(dm, output.nsave, base, samples, i) else [])
      {
        MonotoneOffset(npar, i + 1, nchain);
        iter, parameters, stats := ChainStep(output, samples, base, i, iter, parameters, last, stats, header, dm, ext);
        last := ChainRecord(samples, npar, i).0;
      }
    }

    /** One record of a Markov chain: its values are set into the
        parameters, which are saved with the record's fval and accumulated. */
    method ChainStep(output: SamplingOutput, samples: seq<real>, ghost base: seq<Parameter>, i: nat, iter: nat,
                     parameters: seq<Parameter>, ghost last: seq<real>, stats: seq<Stat>, ghost header: seq<Line>,
                     ghost dm: Dumper, ext: Externals)
      returns (newIter: nat, newParameters: seq<Parameter>, newStats: seq<Stat>)
      requires output.Valid() && output.parent == this && output.evaluate == ext.evaluate && dm == View(ext.evaluate)
      requires Offset(|base|, i + 1) <= |samples| && iter == Offset(|base|, i)
      requires |last| == |base| && parameters == SetValues(base, last)
      requires Offset(|base|, i) <= |samples| && stats == ChainStats(base, samples, i)
      requires output.lines == (if output.saving then header + ChainLines(dm, output.nsave, base, samples, i) else [])
      modifies output`lines
      ensures newIter == Offset(|base|, i + 1)
      ensures newParameters == SetValues(base, ChainRecord(samples, |base|, i).0)
      ensures newStats == ChainStats(base, samples, i + 1)
      ensures output.lines == (if output.saving then header + ChainLines(dm, output.nsave, base, samples, i + 1) else [])
    {
      var npar := |parameters|;
      OffsetStep(npar, i);
      AppendChainStat(base, samples, i);
      if output.saving {
        AppendChainLine(dm, output.nsave, base, samples, i);
      }
      var next := iter + npar;
      var pvalues := samples[iter..next];
      var fval := samples[next];
      assert (pvalues, fval) == ChainRecord(samples, npar, i);
      next := next + 1;
      newIter := next;
      SetValuesTwice(base, last, pvalues);
      newParameters := SetValues(parameters, pvalues);
      output.SaveSample(newParameters, fval, [], 0.0, ext);
      newStats := stats + [Stat(FloatingValues(newParameters), fval)];
    }

    /** One line per bin of the combined data: its index and centers, r, mu
        or ell, z, the prediction, the data and its error, then (on request)
        the gradient of the prediction with respect to every parameter. */
    method DumpResiduals(fmin: FunctionMinimum, script: string, dumpGradients: bool,
                         bins: seq<ResidualBin>, hasCovariance: bool, ext: Externals)
      returns (r: Result<seq<Line>, AnalyzerError>)
      requires dumpGradients ==> |fmin.parameters| <= |Scripted(fmin.parameters, script, ext.configure)|
      ensures r.Err? <==> |res.observations| == 0
      ensures r.Err? ==> r.error == NoObservations
      ensures r.Ok? ==>
        var ps := Scripted(fmin.parameters, script, ext.configure);
        && |r.value| == |bins|
        && forall k :: 0 <= k < |bins| ==>
             r.value[k] == ResidualLine(ext.evaluate, ext.sqrt, hasCovariance, bins[k], Values(ps), Errors(ps), |fmin.parameters|, dumpGradients)
    {
      if |res.observations| == 0 {
        return Err(NoObservations);
      }
      var parameters := if 0 < |script| then ext.configure(fmin.parameters, script) else fmin.parameters;
      var values := Values(parameters);
      var npar := |fmin.parameters|;
      var errors := if dumpGradients then Errors(parameters) else [];
      var parameterValues := new real[|values|](i requires 0 <= i < |values| => values[i]);
      var lines: seq<Line> := [];
      for k := 0 to |bins|
        invariant parameterValues[..] == values
        invariant |lines| == k
        invariant forall j :: 0 <= j < k ==>
          lines[j] == ResidualLine(ext.evaluate, ext.sqrt, hasCovariance, bins[j], values, Errors(parameters), npar, dumpGradients)
      {
        var b := bins[k];
        var predicted := ext.evaluate(b.r, b.coord, b.z, parameterValues[..]);
        var error := if hasCovariance then ext.sqrt(b.variance) else 0.0;
        var line := [IntText(b.index)] + RealTexts(b.centers)
          + [RealText(b.r), CoordField(b.coord), RealText(b.z), RealText(predicted), RealText(b.data), RealText(error)];
        if dumpGradients {
          var gradients := ComputeGradients(parameterValues, errors, npar, b, ext.evaluate);
          line := line + RealTexts(gradients);
        }
        lines := lines + [line];
      }
      r := Ok(lines);
    }
  }

  /** The gradients of the first npar parameters, each by perturbing the
      parameter in place around its value and putting the value back. */
  method ComputeGradients(parameterValues: array<real>, errors: seq<real>, npar: nat, b: ResidualBin,
                          evaluate: (real, Coord, real, seq<real>) -> real)
    returns (g: seq<real>)
    requires npar <= parameterValues.Length && npar <= |errors|
    modifies parameterValues
    ensures parameterValues[..] == old(parameterValues[..])
    ensures g == Gradients(evaluate, b, old(parameterValues[..]), errors, npar)
  {
    ghost var values := parameterValues[..];
    g := [];
    for ipar := 0 to npar
      invariant parameterValues[..] == values
      invariant |g| == ipar
      invariant forall i :: 0 <= i < ipar ==> g[i] == GradientAt(evaluate, b, values, errors, i)
    {
      var gradient := 0.0;
      var dpar := 0.1 * errors[ipar];
      if dpar > 0.0 {
        var p0 := parameterValues[ipar];
        parameterValues[ipar] := p0 + 0.5 * dpar;
        var predHi := evaluate(b.r, b.coord, b.z, parameterValues[..]);
        assert parameterValues[..] == values[ipar := p0 + 0.5 * dpar];
        parameterValues[ipar] := p0 - 0.5 * dpar;
        var predLo := evaluate(b.r, b.coord, b.z, parameterValues[..]);
        assert parameterValues[..] == values[ipar := p0 - 0.5 * dpar];
        gradient := (predHi - predLo) / dpar;
        parameterValues[ipar] := p0;
        assert parameterValues[..] == values;
      }
      g := g + [gradient];
    }
  }

  /** The sampler's next sample: the n-th of its draws from its from-th
      request on, or none once they are used up. */
  method NextDraw(sampler: Sampler, ghost from: nat, ghost all: seq<Dataset>, ghost n: nat) returns (sample: Option<Dataset>)
    requires sampler.Valid() && sampler.Calls() == from + n
    requires all == Draws(sampler.kind, sampler.res, from)
    modifies sampler
    ensures sampler.Valid() && sampler.Calls() == from + n + 1
    ensures sample.Some? ==> n < |all| && sample.value == all[n]
    ensures sample.None? ==> n >= |all|
  {
    sample := sampler.NextSample();
    SamplesThenNone(sampler.kind, sampler.res, from + n);
  }

  /** One more grid point of a dump. */
  lemma DumpStep(dm: Dumper, values: seq<real>, ndump: int, oneLine: bool, n: nat)
    requires ndump > 1
    ensures var r := GridPoint(dm.rmin, dm.rmax, ndump, n);
      DumpStream(dm, values, ndump, oneLine, n + 1) ==
        if oneLine then DumpStream(dm, values, ndump, oneLine, n) + Puts(RealTexts(Predictions(dm, r, values)))
        else DumpStream(dm, values, ndump, oneLine, n) + [Put(RealText(r))] + Puts(RealTexts(Predictions(dm, r, values))) + [EndLine]
  {
    var r := GridPoint(dm.rmin, dm.rmax, ndump, n);
    var preds := RealTexts(Predictions(dm, r, values));
    if oneLine {
      PutsAppend(DumpFields(dm, values, ndump, n), preds);
    } else {
      var row := [RealText(r)] + preds;
      assert DumpTable(dm, values, ndump, n + 1) == DumpTable(dm, values, ndump, n) + [row];
      WriteLinesAppend(DumpTable(dm, values, ndump, n), row);
      PutsAppend([RealText(r)], preds);
    }
  }

  /** The file a sampling analysis or a Markov chain writes: nothing when no
      file name was given, otherwise the header, then one line per saved
      sample. */
  class SamplingOutput {
    const nsave: int
    const parent: CorrelationAnalyzer
    const saving: bool
    const evaluate: (real, Coord, real, seq<real>) -> real
    var lines: seq<Line>

    ghost predicate Valid()
      reads this
    {
      saving ==> nsave != 1
    }

    constructor (nsave: int, parent: CorrelationAnalyzer, saving: bool,
                 evaluate: (real, Coord, real, seq<real>) -> real, lines: seq<Line>)
      requires saving ==> nsave != 1
      ensures Valid()
      ensures this.nsave == nsave && this.parent == parent && this.saving == saving
      ensures this.evaluate == evaluate && this.lines == lines
    {
      this.nsave := nsave;
      this.parent := parent;
      this.saving := saving;
      this.evaluate := evaluate;
      this.lines := lines;
    }

    /** Writes one sample's line: its fit, its refit when that has
        parameters, then the dumps. Writes nothing without a file. */
    method SaveSample(parameters: seq<Parameter>, fval: real, parameters2: seq<Parameter>, fval2: real,
                      ext: Externals)
      requires Valid() && ext.evaluate == evaluate
      modifies this`lines
      ensures lines == old(lines) + (if saving
        then [SampleLine(parent.View(evaluate), nsave, parameters, fval,
                if |parameters2| > 0 then Some((parameters2, fval2)) else None)]
        else [])
    {
      if !saving {
        return;
      }
      var refit := if |parameters2| > 0 then Some((parameters2, fval2)) else None;
      var line := parent.FitsLine(parameters, fval, refit, nsave, ext);
      lines := lines + [line];
    }
  }

  /** Builds an analyzer; the dump range must be increasing. */
  method Create(fitMethod: string, rmin: real, rmax: real, verbose: bool, res: Resampler, zdata: real)
    returns (r: Result<CorrelationAnalyzer, AnalyzerError>)
    ensures r.Err? <==> rmin >= rmax
    ensures r.Err? ==> r.error == RangeNotIncreasing
    ensures r.Ok? ==> fresh(r.value) && r.value.Valid() && r.value.rmin == rmin && r.value.rmax == rmax
    ensures r.Ok? ==> r.value.fitMethod == fitMethod && r.value.verbose == verbose
    ensures r.Ok? ==> r.value.res == res && r.value.zdata == zdata
  {
    if rmin >= rmax {
      return Err(RangeNotIncreasing);
    }
    var a := new CorrelationAnalyzer(fitMethod, rmin, rmax, verbose, res, zdata);
    r := Ok(a);
  }
}
