# baofit: a verified model of the fitting core

baofit fits models of the three-dimensional correlation function of the
Lyman-alpha forest, and of galaxies, to binned data. It pays most attention to
the baryon acoustic oscillation (BAO) peak. This project models, in Dafny, the
parts of baofit that decide what a fit produces:

- **The analyzer** (`CorrelationAnalyzer`). It checks its inputs and runs a
  fit on each resampled data set, whatever the sampler is: jackknife,
  bootstrap, each-observation or toy Monte Carlo. It accumulates parameter
  statistics over the fits that succeed. It can also refit each sample with
  a second fit method, and it writes every accepted fit to a sampling file.
  The same class runs a Markov chain, writes its samples in the same file
  format, and dumps a model, residuals and gradients on a radial grid.
- **The abstract correlation model** (`AbsCorrelationModel`). It stores the
  parameter values before each evaluation and resets the "changed" flags
  afterwards. It owns the four linear-bias parameters, which are defined
  once. It evolves a value in redshift as a power law, and it computes the
  Kaiser normalisation of the monopole, quadrupole and hexadecapole.
- **The real-space BAO model** (`BaoCorrelationModel`). It has 19
  parameters, a prior that penalises BAO scales outside [0.85, 1.15], the
  peak and broadband terms, and the redshift-space distortion factors of
  the multipoles.
- **The k-space BAO model** (`BaoKSpaceCorrelationModel`). Its parameter
  layout depends on the cross-correlation mode. Its constructor checks the
  radial range and widens it by the dilation limits. On each evaluation it
  refreshes its peak and smooth transforms only when their inputs changed,
  and prints at most ten convergence warnings. It applies an isotropic or
  anisotropic BAO scale, with its dilation limits, and composes the result
  with the metal, radiation and broadband distortions.
- **The scan parser** (`data/parsescan.py`). It reads a sampling file, checks
  the header and the width of every line, and prints, for each sample, two
  chosen parameter values and the chi-square difference to the best fit.

Numbers are mathematical reals. Every computation that lives in a library
baofit links against is a function-valued parameter: the minimizer, the
Markov chain, the resampler, the power law, the square root, the tabulated
templates and the k-space transforms. Each output stream is a sequence of
items, either a field or an end of line. A field is an integer, a real or
other text, so a number written by the analyzer is read back exactly as
written.

The modules follow the program's files:

| module | file | contents |
|---|---|---|
| `Common` | `Common.dfy` | results, multipoles, parameters and their changed flags, the minimizer's result |
| `Streams` | `Streams.dfy` | fields, lines, and the round trip of writing lines and reading them back |
| `Samplers` | `Samplers.dfy` | the four samplers as one class, and the sample sequence each one produces |
| `AnalyzerSpec` | `AnalyzerSpec.dfy` | specification functions of the analyzer: input checks, grids, output lines, fit bookkeeping, chain records, gradients |
| `Analyzer` | `CorrelationAnalyzer.dfy` | the analyzer class and its methods, each proved against `AnalyzerSpec` |
| `AbsModel` | `AbsCorrelationModel.dfy` | the abstract model class, redshift evolution, Kaiser factors |
| `BaoModel` | `BaoCorrelationModel.dfy` | the real-space BAO model |
| `KSpaceModel` | `BaoKSpaceCorrelationModel.dfy` | the k-space BAO model and its transform state |
| `ParseScan` | `ParseScan.dfy` | the scan parser, as a specification function and as the loop that runs it |
| `ScanRoundTrip` | `ScanRoundTrip.dfy` | files written by the analyzer, read back by the scan parser |

Three facts stated by the proofs are worth calling out:

- **Monopole and hexadecapole.** The Kaiser monopole factor
  `1 + 2b/3 + b^2/5` dominates the hexadecapole factor `8b^2/35` only for
  `0 <= b <= 24`. `AbsModel.HexadecapoleExceedsMonopoleAtLargeBeta` shows
  that the ordering is reversed at `b = 25`. The model proves the bounded
  statement and makes no claim for all non-negative `b`.
- **Refit files.** The analyzer writes a refit's values next to the first
  fit's, and its header says there are two fits per line. The scan parser
  uses the number of fits only for the errors line. It expects every later
  line to have single-fit width, so it stops with a length error on the
  best-fit line of any refit file (`ScanRoundTrip.RefitScanRejected`).
  Single-fit files from sampling and from the Markov chain parse back to
  exactly the values written (`ScanRoundTrip.SamplingScanParses`,
  `ScanRoundTrip.ChainScanParses`).
- **Stale k-space transforms.** The k-space model redoes its transforms only
  when parameter 0 (beta) or the broadening pair changed. The evolved beta
  also depends on gamma-beta, on beta2·bias2 and on the redshift, so a
  change of any of these alone keeps transforms built for the old value
  (`KSpaceModel.GammaBetaChangeLeavesTransforms`). The model follows the
  source here.

## Model

| member | source | states |
|---|---|---|
| `Common.Values` | baofit/CorrelationAnalyzer.cc:676-677 | the value list has one entry per parameter, and entry i is parameter i's value |
| `Common.Errors` | baofit/CorrelationAnalyzer.cc:436-438 | the error list has one entry per parameter, and entry i is parameter i's error |
| `Common.SetValues` | baofit/CorrelationAnalyzer.cc:588-589 | loading a value list changes each parameter's value and nothing else: names, errors and floating flags are kept |
| `Common.Define` | baofit/AbsCorrelationModel.cc:37-41 | step lemma for the parameter list: defining a parameter appends it at the next index, marked as changed, and keeps every earlier parameter |
| `Common.Update` | baofit/AbsCorrelationModel.cc:18 | updating stores the new values, and a parameter is flagged changed exactly when its value differs or it was already flagged |
| `Common.UpdateSameValues` | baofit/AbsCorrelationModel.cc:16-22 | updating with the values already stored changes nothing |
| `Common.RepeatedUpdateUnchanged` | baofit/AbsCorrelationModel.cc:16-22 | after an evaluation resets the flags, evaluating the same values again flags no parameter changed, so the transforms are left alone |
| `Common.RepeatedUpdateKeepsFlags` | baofit/AbsCorrelationModel.cc:16-22 | when an evaluation fails before the reset, installing the same values again keeps every flag, so the next evaluation still sees what changed |
| `Common.ResetChanged` | baofit/AbsCorrelationModel.cc:20 | resetting clears every changed flag and keeps the values |
| `Streams.ReadWrittenLines` | data/parsescan.py:24-37 | splitting a written stream at its ends of line gives back exactly the lines that were written |
| `Samplers.Noisy` | baofit/CorrelationAnalyzer.cc:328-332 | a toy sample has one value per bin, the truth plus the noise for that bin |
| `Samplers.SamplesThenNone` | baofit/CorrelationAnalyzer.cc:265-346 | each sampler gives a sample for calls 0 to n-1 and nothing from then on, where n is the jackknife's number of subsets, the bootstrap's number of trials, the number of observations or the number of toys |
| `Samplers.BootstrapDraws` | baofit/CorrelationAnalyzer.cc:283-291 | bootstrap sample k is the resampler's draw number k of the requested size, with or without covariance fixing as requested |
| `Samplers.EachInOrder` | baofit/CorrelationAnalyzer.cc:301-309 | the each-observation sampler returns observation k at call k |
| `Samplers.ToySampleBins` | baofit/CorrelationAnalyzer.cc:321-332 | toy sample k exists for every k below the number of toys; it has the prototype's size and covariance, and each bin is the truth plus toy k's noise for that bin |
| `Samplers.Sampler.constructor` | baofit/CorrelationAnalyzer.cc:265-318 | a new sampler has made no calls and holds the kind and resampler it was given |
| `Samplers.Sampler.NextSample` | baofit/CorrelationAnalyzer.cc:265-346 | the sample returned is the specified sample for the number of calls made so far, and the call count goes up by one |
| `Samplers.AddNoise` | baofit/CorrelationAnalyzer.cc:328-332 | the loop over bins returns, for each bin of the prototype, the truth plus the noise |
| `AnalyzerSpec.JackknifeCheck` | baofit/CorrelationAnalyzer.cc:352-357 | a drop count that is not positive is refused first, then fewer than two observations; the check passes exactly when neither holds |
| `AnalyzerSpec.BootstrapCheck` | baofit/CorrelationAnalyzer.cc:365-374 | each error case holds if and only if its check fails; on success the size is the one given, or the number of observations when the size given is 0 |
| `AnalyzerSpec.ToyMCCheck` | baofit/CorrelationAnalyzer.cc:389-400 | the toy checks fail in the source's order: no toys, then no covariance, then a variance scale that is not positive; they pass exactly when none holds |
| `AnalyzerSpec.SamplingCheck` | baofit/CorrelationAnalyzer.cc:502-507 | a sampling run passes exactly when nsave is not negative and a refit method is given exactly when a refit configuration is; it is refused with NegativeNSave exactly when nsave is negative, and with InconsistentRefit exactly when nsave is not negative and only one of the two is given |
| `AnalyzerSpec.ChainCheck` | baofit/CorrelationAnalyzer.cc:562-567 | a chain passes its checks exactly when its length is positive and its interval is not negative; it is refused with NonPositiveChainLength exactly when the length is not positive, and with NegativeChainInterval exactly when the length is positive and the interval negative |
| `AnalyzerSpec.GridEnds` | baofit/CorrelationAnalyzer.cc:679-681 | the first grid point is rmin and the last is rmax |
| `AnalyzerSpec.GridIncreasing` | baofit/CorrelationAnalyzer.cc:679-681 | grid points increase strictly from rmin to rmax |
| `AnalyzerSpec.DumpFieldsLayout` | baofit/CorrelationAnalyzer.cc:679-689 | in a one-line dump, field 3i+j is multipole j at grid point i |
| `AnalyzerSpec.MultiLineDumpReadsBack` | baofit/CorrelationAnalyzer.cc:679-689 | a multi-line dump reads back as ndump lines of four fields: the radius, from rmin to rmax, then the three multipoles |
| `AnalyzerSpec.FitFields` | baofit/CorrelationAnalyzer.cc:470-476 | a fit's fields are its parameter values followed by twice its minimum value, the chi-square |
| `AnalyzerSpec.SampleLineLength` | baofit/CorrelationAnalyzer.cc:466-490 | a saved line has (1 or 2) × (npar + 1 + 3·nsave) fields, and its chi-square sits at index npar |
| `AnalyzerSpec.FitSample` | baofit/CorrelationAnalyzer.cc:521-530 | the first fit uses the fit method on the sample; a refit runs exactly when the first fit succeeded and a refit method was given, and it uses the refit configuration |
| `AnalyzerSpec.AcceptedIffFitsSucceed` | baofit/CorrelationAnalyzer.cc:523-531 | a sample is accepted exactly when its first fit succeeded and, when there is a refit, the refit succeeded too |
| `AnalyzerSpec.FitsOfAt` | baofit/CorrelationAnalyzer.cc:519-549 | the fit of sample k is the fit of the sampler's k-th draw |
| `AnalyzerSpec.FitsOfAppend` | baofit/CorrelationAnalyzer.cc:519-549 | fitting one more draw appends exactly its fit |
| `AnalyzerSpec.RejectedCount` | baofit/CorrelationAnalyzer.cc:541-557 | the rejected samples and the accepted fits together account for every sample |
| `AnalyzerSpec.AppendFit` | baofit/CorrelationAnalyzer.cc:531-543 | step lemma for the statistics: one more sample fit adds one statistics entry when accepted, one refit entry when accepted with a refit, and neither when rejected |
| `AnalyzerSpec.AppendSavedLine` | baofit/CorrelationAnalyzer.cc:536-539 | step lemma for the saved lines: one more sample fit adds one saved line when accepted and a file is open, and none otherwise |
| `AnalyzerSpec.SamplingOutcomeOk` | baofit/CorrelationAnalyzer.cc:499-558 | step lemma for a whole run: a sampling run that passes its checks returns the statistics of the accepted fits, the refit statistics and the saved lines over every draw |
| `AnalyzerSpec.SamplingAccounts` | baofit/CorrelationAnalyzer.cc:516-557 | the number of invalid samples plus the number of fits kept equals the number of samples drawn, and the refit statistics are empty without a refit |
| `AnalyzerSpec.SamplingFailures` | baofit/CorrelationAnalyzer.cc:502-507 | a sampling run fails exactly when nsave is negative, when the refit options disagree, or when an output file is requested with nsave equal to 1 |
| `AnalyzerSpec.OffsetStep` | baofit/CorrelationAnalyzer.cc:580-587 | step lemma for the chain layout: each chain record starts npar + 1 values after the one before it |
| `AnalyzerSpec.OffsetIsProduct` | baofit/CorrelationAnalyzer.cc:580-587 | chain record i starts at i·(npar + 1) |
| `AnalyzerSpec.MonotoneOffset` | baofit/CorrelationAnalyzer.cc:580-587 | later chain records start later |
| `AnalyzerSpec.ChainRecordsTile` | baofit/CorrelationAnalyzer.cc:580-587 | the first i chain records laid end to end are exactly the first i·(npar + 1) chain values |
| `AnalyzerSpec.AppendChainStat` | baofit/CorrelationAnalyzer.cc:589-594 | step lemma for the chain statistics: one more chain record adds one statistics entry, its values without its chi-square |
| `AnalyzerSpec.AppendChainLine` | baofit/CorrelationAnalyzer.cc:589-590 | step lemma for the chain output: one more chain record adds its own sample line (its values and chi-square) to the chain's lines, for every record |
| `AnalyzerSpec.AffineGradientExact` | baofit/CorrelationAnalyzer.cc:644-658 | for a prediction that is affine in a parameter with a positive error, the finite-difference gradient is exactly the slope |
| `AnalyzerSpec.IgnoredParameterHasZeroGradient` | baofit/CorrelationAnalyzer.cc:644-658 | a parameter the prediction does not depend on has gradient zero |
| `AnalyzerSpec.Gradients` | baofit/CorrelationAnalyzer.cc:643-661 | there is one gradient for each of the first n parameters, and gradient i is the finite-difference gradient of parameter i |
| `Analyzer.ToyKind` | baofit/CorrelationAnalyzer.cc:401-419 | the toy sampler gets the requested number of toys and output file, and its samples meet the toy invariant whenever the prototype and the truth agree in size |
| `Analyzer.Create` | baofit/CorrelationAnalyzer.cc:30-37 | construction fails exactly when rmin >= rmax, and otherwise stores every argument |
| `Analyzer.CorrelationAnalyzer.constructor` | baofit/CorrelationAnalyzer.cc:30-37 | the analyzer holds the fit method, radial range, verbosity, resampler and redshift it was given |
| `Analyzer.CorrelationAnalyzer.SetZData` | baofit/CorrelationAnalyzer.cc:41-46 | a negative redshift is refused and leaves the stored one in place; otherwise it is stored |
| `Analyzer.CorrelationAnalyzer.DumpModel` | baofit/CorrelationAnalyzer.cc:666-690 | the dump fails exactly when ndump <= 1, and otherwise writes the specified grid of predictions on one line or on ndump lines |
| `Analyzer.CorrelationAnalyzer.DumpPoint` | baofit/CorrelationAnalyzer.cc:681-688 | one grid point writes its three predictions, preceded by the radius and followed by an end of line in multi-line mode |
| `Analyzer.CorrelationAnalyzer.DoSamplingAnalysis` | baofit/CorrelationAnalyzer.cc:499-558 | the run returns the specified sampling outcome for the sampler's draws: the failure, or the statistics, the count of invalid samples and the saved lines |
| `Analyzer.CorrelationAnalyzer.DoJackknifeAnalysis` | baofit/CorrelationAnalyzer.cc:349-360 | a jackknife run fails with the jackknife check's error, and otherwise returns the sampling outcome of the jackknife sampler |
| `Analyzer.CorrelationAnalyzer.DoBootstrapAnalysis` | baofit/CorrelationAnalyzer.cc:362-377 | a bootstrap run fails with the bootstrap check's error, and otherwise returns the sampling outcome of the bootstrap sampler at the checked size |
| `Analyzer.CorrelationAnalyzer.FitEach` | baofit/CorrelationAnalyzer.cc:379-383 | fitting each observation returns the sampling outcome of the each-observation sampler |
| `Analyzer.CorrelationAnalyzer.DoToyMCSampling` | baofit/CorrelationAnalyzer.cc:385-421 | a toy run fails with the toy check's error, and otherwise returns the sampling outcome of the toy sampler built from the scaled prediction |
| `Analyzer.CorrelationAnalyzer.FitSamples` | baofit/CorrelationAnalyzer.cc:519-549 | the loop draws every sample and leaves the accumulated fits equal to the fits of all draws |
| `Analyzer.CorrelationAnalyzer.FitStep` | baofit/CorrelationAnalyzer.cc:520-548 | one draw either ends the loop, when no sample is left, or adds that sample's fit to the accumulated state |
| `Analyzer.CorrelationAnalyzer.Accumulate` | baofit/CorrelationAnalyzer.cc:531-543 | an accepted fit adds its statistics, its refit statistics and its saved line, and a rejected fit adds one invalid sample |
| `Analyzer.CorrelationAnalyzer.FitOne` | baofit/CorrelationAnalyzer.cc:521-530 | the fit of one sample is the specified first fit and optional refit |
| `Analyzer.CorrelationAnalyzer.OpenSamplingOutput` | baofit/CorrelationAnalyzer.cc:425-462 | opening the output fails exactly when a file is named and nsave is 1, and otherwise writes the three header lines |
| `Analyzer.CorrelationAnalyzer.FitsLine` | baofit/CorrelationAnalyzer.cc:466-491 | the saved line of a fit is the specified sample line: values, chi-square and dumps, followed by the refit's when there is one |
| `Analyzer.CorrelationAnalyzer.GenerateMarkovChain` | baofit/CorrelationAnalyzer.cc:560-597 | the chain fails with the chain check's error, or when an output file is requested with nsave equal to 1; it succeeds exactly when neither happens, and then returns statistics over every record and saves the header and every record |
| `Analyzer.CorrelationAnalyzer.RunChain` | baofit/CorrelationAnalyzer.cc:580-595 | the loop over chain records accumulates the specified statistics and lines for all of them |
| `Analyzer.CorrelationAnalyzer.ChainStep` | baofit/CorrelationAnalyzer.cc:583-594 | one chain record adds its statistics entry and, when a file is open, its output line |
| `Analyzer.CorrelationAnalyzer.DumpResiduals` | baofit/CorrelationAnalyzer.cc:599-664 | the dump fails exactly when there are no observations, and otherwise writes one specified residual line per bin |
| `Analyzer.ComputeGradients` | baofit/CorrelationAnalyzer.cc:643-661 | nudging each of the first npar parameters in place returns the specified gradients and restores every parameter value |
| `Analyzer.NextDraw` | baofit/CorrelationAnalyzer.cc:519-520 | a draw returns the sampler's next specified sample and counts one call |
| `Analyzer.DumpStep` | baofit/CorrelationAnalyzer.cc:679-689 | the dump of the first k + 1 grid points is the dump of the first k followed by point k |
| `Analyzer.SamplingOutput.constructor` | baofit/CorrelationAnalyzer.cc:425-462 | the output holds the three header lines for the best fit |
| `Analyzer.SamplingOutput.SaveSample` | baofit/CorrelationAnalyzer.cc:466-491 | saving appends exactly the sample's line and changes nothing else |
| `AbsModel.RedshiftEvolution` | baofit/AbsCorrelationModel.cc:44-46 | at the reference redshift the value is unchanged, and a zero value stays zero at every redshift |
| `AbsModel.BlockGivesLookup` | baofit/AbsCorrelationModel.cc:37-57 | a parameter list holding the four linear-bias parameters as a block lets each of them be found by name |
| `AbsModel.KaiserAtZeroBeta` | baofit/AbsCorrelationModel.cc:60-62 | without redshift-space distortion the factors are bias², 0 and 0 |
| `AbsModel.MonopoleDominatesHexadecapole` | baofit/AbsCorrelationModel.cc:60-62 | for 0 <= beta <= 24 the monopole factor is at least the hexadecapole factor |
| `AbsModel.KaiserDifference` | baofit/AbsCorrelationModel.cc:60-62 | the monopole factor minus the hexadecapole factor is bias² times 1 + 2b/3 - b²/35 |
| `AbsModel.HexadecapoleExceedsMonopoleAtLargeBeta` | baofit/AbsCorrelationModel.cc:60-62 | at beta = 25 the hexadecapole factor exceeds the monopole factor |
| `AbsModel.NormFactorsAtReference` | baofit/AbsCorrelationModel.cc:44-62 | at the reference redshift, with a power law that fixes 1, the factors are the Kaiser factors of the stored bias and beta |
| `AbsModel.AbsCorrelationModel.constructor` | baofit/AbsCorrelationModel.cc:10-12 | a new model has no parameters, no linear-bias block and the given reference redshift |
| `AbsModel.AbsCorrelationModel.DefineParameter` | baofit/AbsCorrelationModel.cc:37-41 | defining a parameter appends it, flagged changed, and returns its index |
| `AbsModel.AbsCorrelationModel.DefineLinearBiasParameters` | baofit/AbsCorrelationModel.cc:32-42 | a second definition is refused, a negative stored reference redshift is refused, and otherwise four parameters (beta, (1+beta)·bias, gamma-bias, gamma-beta) are appended at the old size and the new reference redshift is stored |
| `AbsModel.AbsCorrelationModel.Evaluate` | baofit/AbsCorrelationModel.cc:16-30 | evaluation stores the new values, passes the evaluator whether any of them changed, and then clears every changed flag |
| `AbsModel.AbsCorrelationModel.GetNormFactor` | baofit/AbsCorrelationModel.cc:48-72 | without a linear-bias block it fails; otherwise it caches the three normalisation factors and returns the one for the requested multipole |
| `BaoModel.BaoLayout` | baofit/BaoCorrelationModel.cc:27-48 | the 19 parameter names are distinct and each is found at its own index |
| `BaoModel.Create` | baofit/BaoCorrelationModel.cc:18-48 | construction fails exactly when zref < 0, and otherwise defines the 19 parameters from "beta" to "BBand2 hexa 1/(r*r)", all flagged changed |
| `BaoModel.EvaluatePrior` | baofit/BaoCorrelationModel.cc:106-117 | the prior penalty is never negative, and it is zero exactly when the BAO scale lies in [0.85, 1.15] |
| `BaoModel.PenaltyPositive` | baofit/BaoCorrelationModel.cc:108-115 | outside the allowed range the penalty is positive |
| `BaoModel.PenaltyEvenAndGrowing` | baofit/BaoCorrelationModel.cc:108-115 | the penalty depends only on the distance to the range, and grows with it |
| `BaoModel.ScalePriorVanishesExactlyInside` | baofit/BaoCorrelationModel.cc:97-117 | the scale prior is zero if and only if the scale is inside [0.85, 1.15] |
| `BaoModel.ScalePriorSymmetricAndGrowing` | baofit/BaoCorrelationModel.cc:97-117 | the prior is the same the same distance below and above the range, and grows further out |
| `BaoModel.BBand2Zero` | baofit/BaoCorrelationModel.cc:123-129 | with all six coefficients zero the second broadband adds nothing |
| `BaoModel.RsdScaleIsKaiserFactor` | baofit/BaoCorrelationModel.cc:211-226 | each multipole's distortion factor is the Kaiser factor of the evolved bias and beta |
| `BaoModel.SameLinearBias` | baofit/BaoCorrelationModel.cc:149-153 | BiasFactor and EvolvedBeta read only the four linear-bias values, the reference redshift and the evolution power, so the mu form and the multipole form use the same evolved bias and beta |
| `BaoModel.ZeroAmplitudeNoPeak` | baofit/BaoCorrelationModel.cc:176-180 | with zero BAO amplitude the peak term is zero |
| `BaoModel.BroadbandIgnoresPeak` | baofit/BaoCorrelationModel.cc:182-187 | the broadband terms do not depend on the peak parameters |
| `BaoModel.ZeroAmplitudeSkipsPeakMu` | baofit/BaoCorrelationModel.cc:176-189 | with zero amplitude the mu prediction is the same for any peak template |
| `BaoModel.ZeroAmplitudeSkipsPeakPole` | baofit/BaoCorrelationModel.cc:228-240 | with zero amplitude the multipole prediction is the same for any peak template |
| `BaoModel.ZeroCoefficientsIgnoreTemplates` | baofit/BaoCorrelationModel.cc:183-186 | with zero broadband coefficients the broadband term does not depend on its templates |
| `BaoModel.PeakIgnoresBroadbandTemplates` | baofit/BaoCorrelationModel.cc:176-180 | the peak term and the second broadband term do not depend on the broadband templates |
| `BaoModel.ZeroCoefficientsLeaveNoWiggles` | baofit/BaoCorrelationModel.cc:183-186 | with the broadband coefficients other than a0 zero, the first broadband term is (1 + a0) times the no-wiggle template |
| `BaoModel.ZeroCoefficientSkipsTemplateMu` | baofit/BaoCorrelationModel.cc:182-189 | with zero broadband coefficients the mu prediction is the same for any broadband template |
| `BaoModel.ZeroCoefficientSkipsTemplatePole` | baofit/BaoCorrelationModel.cc:234-240 | with zero broadband coefficients the multipole prediction is the same for any broadband template |
| `BaoModel.ZeroBiasNoFactor` | baofit/BaoCorrelationModel.cc:203-208 | with (1+beta)·bias zero the bias factor is zero at every redshift |
| `BaoModel.XiMu` | baofit/BaoCorrelationModel.cc:137-190 | the (r, mu) prediction is zero without bias, and with zero amplitude it is the bias factor times the two broadbands alone, each distorted by the evolved beta |
| `BaoModel.XiPole` | baofit/BaoCorrelationModel.cc:192-241 | the multipole prediction is zero without bias, and with zero amplitude it is the bias factor times the multipole's distortion factor times the two broadbands alone |
| `BaoModel.ZeroBetaHasNoQuadOrHexa` | baofit/BaoCorrelationModel.cc:209-240 | with beta zero at the reference redshift (so the evolved beta is zero at every redshift, whatever the power law) the quadrupole and hexadecapole predictions are zero |
| `BaoModel.DefaultMonopoleAtReference` | baofit/BaoCorrelationModel.cc:192-240 | at the default parameters and the reference redshift, the monopole is (-0.336/2.4)² × (1 + 2·1.4/3 + 1.4²/5) times the fiducial monopole template, since peak and broadband together restore the full template |
| `BaoModel.DefaultValuesListed` | baofit/BaoCorrelationModel.cc:27-48 | the default values of the 19 parameters are those the constructor defines |
| `BaoModel.DefaultLinearBias` | baofit/BaoCorrelationModel.cc:27-30 | at the reference redshift the default beta is 1.4 and the squared bias is (-0.336/2.4)², from the default (1+beta)·bias of -0.336 |
| `BaoModel.DefaultTerms` | baofit/BaoCorrelationModel.cc:32-48 | at the default values the peak monopole is the fiducial minus the no-wiggle template, the first broadband monopole is the no-wiggle template, and the second broadband adds nothing |
| `KSpaceModel.KSpaceLayout` | baofit/BaoKSpaceCorrelationModel.cc:39-59 | the layout has the linear block, then the cross block when cross-correlating, then the broadening block at the nl index and the peak block at the BAO index |
| `KSpaceModel.CrossModeInsertsThree` | baofit/BaoKSpaceCorrelationModel.cc:43-50 | cross-correlation mode inserts three parameters and moves the later blocks by three |
| `KSpaceModel.TransformRangeFor` | baofit/BaoKSpaceCorrelationModel.cc:97-105 | each error (rmin >= rmax, rmin not positive, dilmin > dilmax, dilmin not positive) is returned exactly when its check is the first to fail; otherwise the range runs from rmin·dilmin to rmax·dilmax with the ceiling of its width as the number of points |
| `KSpaceModel.WidenedRange` | baofit/BaoKSpaceCorrelationModel.cc:102-103 | the range widened by the dilation limits is still positive and increasing |
| `KSpaceModel.DistortionAcrossLineOfSight` | baofit/BaoKSpaceCorrelationModel.cc:138-149 | across the line of sight (mu = 0) the distortion is the broadening damping alone |
| `KSpaceModel.NoBroadeningLeavesUnitDistortion` | baofit/BaoKSpaceCorrelationModel.cc:138-149 | across the line of sight, with no perpendicular broadening, the distortion is 1 |
| `KSpaceModel.WarningsAreRateLimited` | baofit/BaoKSpaceCorrelationModel.cc:224-232 | however many transforms fail to converge, at most ten warnings and one final notice are printed |
| `KSpaceModel.SmoothTransformWithoutBroadband` | baofit/BaoKSpaceCorrelationModel.cc:207-223 | without broadband broadening, the smooth transform is redone exactly when the other parameters changed, and always with the broadening set to zero |
| `KSpaceModel.Refresh` | baofit/BaoKSpaceCorrelationModel.cc:193-223 | an uninitialised transform is initialised with the current fields and not counted as a transform; an initialised one is redone (and counted) exactly when asked, and is otherwise kept as it was |
| `KSpaceModel.InitialiseOnce` | baofit/BaoKSpaceCorrelationModel.cc:193-201 | the first refresh initialises a transform with the current distortion, whatever is asked, and a later refresh that is not asked to redo it leaves it as it is |
| `KSpaceModel.AnisotropicScaleLimits` | baofit/BaoKSpaceCorrelationModel.cc:242-247 | along the line of sight the squared anisotropic scale is the parallel scale squared, and across it the perpendicular scale squared |
| `KSpaceModel.AdditiveDistortionNotScaled` | baofit/BaoKSpaceCorrelationModel.cc:272-286 | the additive distortion is added after the multiplicative one and is not scaled by it |
| `KSpaceModel.MetalsScaledByDistortion` | baofit/BaoKSpaceCorrelationModel.cc:274-281 | the metal term is scaled by the multiplicative distortion |
| `KSpaceModel.Compose` | baofit/BaoKSpaceCorrelationModel.cc:272-286 | the prediction is bias² (amplitude·peak + smooth) plus the metal and radiation terms when enabled, all times 1 + the multiplicative distortion when enabled, plus the additive distortion when enabled |
| `KSpaceModel.PlainComposition` | baofit/BaoKSpaceCorrelationModel.cc:268-272 | with no extra terms the prediction is bias² × (amplitude × peak + smooth) |
| `KSpaceModel.Predict` | baofit/BaoKSpaceCorrelationModel.cc:235-288 | the prediction fails on the minimum dilation limit exactly when the scale is below it, on the maximum exactly when it is within the minimum and above the maximum, and succeeds exactly within both |
| `KSpaceModel.DecoupledSmoothIgnoresScale` | baofit/BaoKSpaceCorrelationModel.cc:266-270 | in decoupled mode with zero BAO amplitude the prediction does not depend on the BAO scale parameters |
| `KSpaceModel.RadiationScaledByDistortion` | baofit/BaoKSpaceCorrelationModel.cc:274-281 | with radiation and the multiplicative distortion on, a change of the radiation term changes the prediction by that change times (1 + distortion) |
| `KSpaceModel.GammaBetaChangeLeavesTransforms` | baofit/BaoKSpaceCorrelationModel.cc:171-223 | after a reset, a change of gamma-beta alone sets a changed flag but asks neither transform to be redone, so both keep their old distortion while the evolved beta moves |
| `KSpaceModel.ZeroAmplitudeIgnoresPeak` | baofit/BaoKSpaceCorrelationModel.cc:268-272 | with zero BAO amplitude the prediction does not depend on the peak transform |
| `KSpaceModel.KSpaceCorrelationModel.constructor` | baofit/BaoKSpaceCorrelationModel.cc:25-105 | a new model has the layout for its mode with every parameter flagged changed, the range it was given, no transform initialised and no warning printed |
| `KSpaceModel.KSpaceCorrelationModel.Evaluate` | baofit/BaoKSpaceCorrelationModel.cc:151-289 | evaluation installs the new values and evaluates with whether any of them changed; it clears every changed flag only when the prediction succeeds, and a failed dilation check leaves the flags of the update set; when no value changed the transforms, warnings and output are untouched, otherwise they are refreshed as specified; the result is the specified prediction for the new values |
| `KSpaceModel.KSpaceCorrelationModel.EvaluateChanged` | baofit/BaoKSpaceCorrelationModel.cc:151-289 | called with whether any parameter changed, it refreshes the transforms only when one did, records the warnings and returns the specified prediction |
| `KSpaceModel.KSpaceCorrelationModel.Transform` | baofit/BaoKSpaceCorrelationModel.cc:186-233 | both transforms are refreshed as their changed flags ask and convergence is recorded |
| `KSpaceModel.KSpaceCorrelationModel.RunTransforms` | baofit/BaoKSpaceCorrelationModel.cc:193-223 | the peak transform is refreshed before the smooth one, and the smooth one sees the broadband switch |
| `KSpaceModel.KSpaceCorrelationModel.RefreshPeak` | baofit/BaoKSpaceCorrelationModel.cc:193-205 | the peak transform is initialised on first use and otherwise redone only when its inputs changed |
| `KSpaceModel.KSpaceCorrelationModel.RefreshSmooth` | baofit/BaoKSpaceCorrelationModel.cc:207-223 | the smooth transform is initialised on first use and otherwise redone only when its inputs changed |
| `KSpaceModel.KSpaceCorrelationModel.RecordConvergence` | baofit/BaoKSpaceCorrelationModel.cc:224-232 | a failed convergence counts one more warning and prints only the warnings the rate limit allows |
| `KSpaceModel.Create` | baofit/BaoKSpaceCorrelationModel.cc:97-105 | construction fails exactly when the range checks fail, with their error; otherwise the model stores its options, reference redshift and dilation limits, has no transform initialised, no warning and no output, and flags every parameter changed |
| `ParseScan.PyIndex` | data/parsescan.py:39-43 | an index gives a value exactly within [-n, n), counting from the end when negative |
| `ParseScan.ReadHeader` | data/parsescan.py:24 | a header reads exactly when the line has three integer fields, and gives those three numbers |
| `ParseScan.ScanRow` | data/parsescan.py:37-43 | a line fails as not numeric, or as the wrong length, exactly in those cases, and gives a row exactly when every index is in range: the two chosen values and the chi-square minus the best |
| `ParseScan.ScanPointsRows` | data/parsescan.py:37-44 | the rows are those of the leading lines, and the run parses every line, with the count of lines, or stops at the first line with no row, with that line's error |
| `ParseScan.RowsParse` | data/parsescan.py:37-44 | lines that each give a row parse completely to those rows |
| `ParseScan.ParsedFile` | data/parsescan.py:24-44 | a parsed file has three header lines and one row per later line, each as wide as the best-fit line, and reports that count |
| `ParseScan.ParsedRows` | data/parsescan.py:31-43 | the row of scan point k comes from line 3 + k, with the chi-square taken relative to the best-fit line's |
| `ParseScan.ParseScanFile` | data/parsescan.py:8-47 | the parser's loop writes exactly the specified rows and ends exactly as specified |
| `ScanRoundTrip.RecordLineRow` | data/parsescan.py:39-43 | a single-fit line written by the analyzer parses back to its two chosen values and its chi-square minus the best |
| `ScanRoundTrip.SampleLineNumeric` | baofit/CorrelationAnalyzer.cc:466-490 | every field of a saved line is a number |
| `ScanRoundTrip.HeaderAndErrorsLines` | data/parsescan.py:24-29 | the written header reads back as (npar, nsave, 1), and the written errors line is the parameter errors |
| `ScanRoundTrip.BestLine` | data/parsescan.py:31-37 | the written best-fit line is the best fit's sample line, and the data lines are exactly the lines appended after it |
| `ScanRoundTrip.HeaderPasses` | data/parsescan.py:24-36 | the header of a single-fit file passes every check of the parser |
| `ScanRoundTrip.RecordsParse` | data/parsescan.py:37-44 | written sample lines parse to one row per line |
| `ScanRoundTrip.ScanReadBack` | data/parsescan.py:19-37 | the parser sees exactly the lines the analyzer wrote |
| `ScanRoundTrip.WrittenScanParses` | data/parsescan.py:24-44 | a written single-fit file parses to the rows of its data lines, and counts them |
| `ScanRoundTrip.WrittenRecordsParse` | data/parsescan.py:24-44 | a file written with a header and sample lines parses to the rows of those records |
| `ScanRoundTrip.SavedLinesAreRecords` | baofit/CorrelationAnalyzer.cc:531-540 | the lines a sampling run saves are the sample lines of its accepted fits |
| `ScanRoundTrip.SamplingScanParses` | data/parsescan.py:31-44 | a sampling file without refit parses back to one row per accepted fit: the fit's two chosen values and its chi-square relative to the best fit |
| `ScanRoundTrip.ChainLinesAreRecords` | baofit/CorrelationAnalyzer.cc:581-590 | the lines a chain saves are the sample lines of every chain record |
| `ScanRoundTrip.ChainRecordAt` | baofit/CorrelationAnalyzer.cc:583-589 | saved chain line k holds record k, read at offset k·(npar+1): its parameter values and its chi-square |
| `ScanRoundTrip.ChainScanParses` | data/parsescan.py:31-44 | a chain file parses back to one row per saved record |
| `ScanRoundTrip.RefitScanRejected` | data/parsescan.py:31-34 | a refit file stops at the best-fit line with a length error reporting twice the single-fit width, and writes no row |

## Left out

- Console output is not modelled: verbose messages, printed summaries, `printToStream` and the progress lines of sampling and chains. The text of error messages is replaced by error values.
- `CorrelationAnalyzer::addData`, `getCombined`, `compareEach`, `doScanAnalysis`, `printScaleZEff`, `getDecorrelatedWeights`, `estimateCombinedCovariance` and the accumulation callback are outside the core this model covers. src/baofit.cc, the command-line driver, is not part of this model.
- The digits of a number are not modelled. Both writing and parsing keep a real as one exact field, so rounding on output and Python's float parsing of C++ text are not captured.
- Opening files and the parser's `IOError` are not modelled. A file is its list of lines.
- Libraries are parameters of the model: the minimizer and its statistics, the Markov chain, the resampler's subset and bootstrap draws, covariance sampling, the correlation templates and their interpolation, the k-space transforms with their convergence test, and `pow`, `exp` and `sqrt`.
- Samplers.Sampler.NextSample: the four sampler subclasses are one class with a kind tag, and each sample is the resampler's or the noise source's sample for that call rather than data built by copying.
- Analyzer.CorrelationAnalyzer.DoSamplingAnalysis: fitting is a pure function of the sample. Minimizer state that carries over from one fit to the next is not modelled.
- AnalyzerSpec.FitStats: the parameter statistics accumulator is the list of accepted fits it was given. Means, errors and covariances are not modelled.
- ScanRoundTrip.SamplingScanParses: the two chosen indices are limited to parameter columns, and the minimizer is required to keep the number of parameters. The parser also accepts other columns and negative indices, which `ParseScan.ScanRow` models in full.
- ScanRoundTrip.ChainScanParses: the same limits on the chosen indices.
- The parser's `ValueError` and `IndexError`, and its exits, are `ParseScan.Exit` values.
- AbsModel.AbsCorrelationModel.GetNormFactor: requires 1 + beta and 1 + zref to be non-zero. Division by zero, IEEE infinities and NaN are not modelled.
- BaoModel.XiMu, BaoModel.XiPole and KSpaceModel.Predict: require the divisors they use to be non-zero. The real-space forms need 1 + beta and r (which also covers r²); their reference redshift is never negative. The k-space prediction needs 1 + beta, 1 + zref and, in cross mode, bias2 (the divisor of beta2). A scale of zero is not excluded: the k-space dilation check refuses it as an error value.
- AbsModel.RedshiftEvolution: the power law is an argument. The property at the reference redshift holds for any power law that fixes 1.
- AbsModel.AbsCorrelationModel.constructor: the source's constructor leaves the reference redshift uninitialised until the linear-bias block is defined. The model takes its initial value as an argument, and the check in `DefineLinearBiasParameters` reads that old value.
- Analyzer.CorrelationAnalyzer.constructor: the stored data redshift is likewise left uninitialised by the source and is an argument here.
- The beta that the real-space BAO model installs on its three templates with `setDistortion` before each mu-form evaluation is an argument of `BaoModel.XiMu` (the evolved beta), not a field of the templates.
- The k-space model's metal, radiation and broadband-distortion sub-models are oracle values. Their parameters are not part of the layout modelled here.
- The parameter bookkeeping of the fit-model library (defining parameters, changed flags, lookup by name) is stated once in `Common`, as that library is assumed to behave. Its own code is not part of this model.
- Analyzer.CorrelationAnalyzer.DumpModel: the model's prediction is the oracle `Externals.evaluate`, a total function of the radius, coordinate, redshift and values. The source calls the correlation model itself, which can throw (the k-space dilation check) and whose k-space transforms depend on earlier calls (only parameter 0 and the broadening pair trigger a re-transform). A dump that the source aborts, or whose values it reads from stale transforms, is not captured. The dumps in saved sample lines (`OpenSamplingOutput`, `FitsLine`, and `DoSamplingAnalysis` with nsave > 0) use the same oracle.
- Analyzer.CorrelationAnalyzer.DumpResiduals: the same total, history-free prediction oracle; a residual dump the model's evaluation would abort is not captured.
- Analyzer.ComputeGradients: the same oracle, so each nudged prediction is history-free. In the source a nudge of a parameter that does not trigger a k-space re-transform (gamma-beta, for example) is evaluated with transforms built for the earlier values.
- KSpaceModel.Create: the k-space model's `_setZRef`, `_setDVIndex` and four-argument `redshiftEvolution` live in code that is not part of this model. The model reuses `AbsModel.RedshiftEvolution` with the same power law, takes zref as given, and applies no negative-zref check there (only 1 + zref must be non-zero).
- The header file's declarations drift from the implementation, for example in a bootstrap covariance argument. The model follows the implementation.
