/** The four resampling strategies of the correlation analyzer. Each one
    hands out datasets one at a time until it has none left; which dataset
    the k-th request returns is decided by a few counters. The resampler
    that selects jackknife and bootstrap subsets, and the covariance draw of
    the toy Monte Carlo, are oracles. */
module Samplers {
  import opened Common

  /** A binned dataset: its bin values and whether it carries a covariance. */
  datatype Dataset = Dataset(values: seq<real>, hasCovariance: bool)

  /** The observations added to the analyzer and the external resampling
      operations over them.
      - jackknife(ndrop, seqno): the seqno-th subset with ndrop observations
        left out, none once the subsets are exhausted;
      - bootstrap(draw, size, fix): the draw-th random bootstrap trial of
        `size` observations;
      - finalize: the finalization applied to each sample. */
  datatype Resampler = Resampler(
    observations: seq<Dataset>,
    jackknife: (nat, nat) -> Option<Dataset>,
    jackknifeCount: nat -> nat,
    bootstrap: (nat, int, bool) -> Dataset,
    finalize: Dataset -> Dataset)
  {
    /** The jackknife sequence for each ndrop has a known length. */
    ghost predicate JackknifeEnds() {
      forall ndrop: nat, seqno: nat :: jackknife(ndrop, seqno).Some? <==> seqno < jackknifeCount(ndrop)
    }
  }

  /** Which sampler, with its construction arguments. For the toy Monte
      Carlo, noise(k) is the k-th draw from the prototype's covariance. */
  datatype SamplerKind =
    | Jackknife(ndrop: nat)
    | Bootstrap(trials: int, size: int, fix: bool)
    | Each
    | ToyMC(ngen: int, prototype: Dataset, truth: seq<real>, filename: string, noise: nat -> seq<real>)

  /** Truth plus noise, bin by bin. */
  function Noisy(truth: seq<real>, noise: seq<real>, n: nat): (vs: seq<real>)
    requires |truth| >= n && |noise| >= n
    ensures |vs| == n
    ensures forall i :: 0 <= i < n ==> vs[i] == truth[i] + noise[i]
  {
    seq(n, i requires 0 <= i < n => truth[i] + noise[i])
  }

  /** The toy Monte Carlo's truth and noise cover every bin of the prototype. */
  ghost predicate ToyFits(kind: SamplerKind)
    requires kind.ToyMC?
  {
    |kind.truth| >= |kind.prototype.values| &&
    forall k: nat :: |kind.noise(k)| >= |kind.prototype.values|
  }

  /** What the k-th request (counting from 0) to a fresh sampler returns. */
  ghost function SampleAt(kind: SamplerKind, res: Resampler, k: nat): Option<Dataset>
    requires kind.ToyMC? ==> ToyFits(kind)
  {
    match kind
    case Jackknife(ndrop) =>
      (match res.jackknife(ndrop, k)
       case None => None
       case Some(d) => Some(res.finalize(d)))
    case Bootstrap(trials, size, fix) =>
      if k + 1 <= trials then Some(res.finalize(res.bootstrap(k, size, fix))) else None
    case Each =>
      if k + 1 <= |res.observations| then Some(res.finalize(res.observations[k])) else None
    case ToyMC(ngen, prototype, truth, _, noise) =>
      if ngen - k > 0 then Some(prototype.(values := Noisy(truth, noise(k), |prototype.values|))) else None
  }

  /** How many samples the sampler hands out before its first "none". */
  function SampleCount(kind: SamplerKind, res: Resampler): nat {
    match kind
    case Jackknife(ndrop) => res.jackknifeCount(ndrop)
    case Bootstrap(trials, _, _) => if trials > 0 then trials else 0
    case Each => |res.observations|
    case ToyMC(ngen, _, _, _, _) => if ngen > 0 then ngen else 0
  }

  /** Every sampler hands out exactly its count of samples and then none,
      however often it is asked again. */
  lemma SamplesThenNone(kind: SamplerKind, res: Resampler, k: nat)
    requires kind.ToyMC? ==> ToyFits(kind)
    requires kind.Jackknife? ==> res.JackknifeEnds()
    ensures SampleAt(kind, res, k).Some? <==> k < SampleCount(kind, res)
  {
    if kind.Jackknife? {
      assert res.jackknife(kind.ndrop, k).Some? <==> k < res.jackknifeCount(kind.ndrop);
    }
  }

  /** The bootstrap returns `trials` finalized draws, the k-th from the
      resampler's k-th random trial of the requested size. */
  lemma BootstrapDraws(trials: int, size: int, fix: bool, res: Resampler, k: nat)
    requires k < trials
    ensures SampleAt(Bootstrap(trials, size, fix), res, k) == Some(res.finalize(res.bootstrap(k, size, fix)))
  {
  }

  /** "Each" returns finalized copies of the observations, in order. */
  lemma EachInOrder(res: Resampler, k: nat)
    ensures k < |res.observations| ==> SampleAt(Each, res, k) == Some(res.finalize(res.observations[k]))
    ensures k >= |res.observations| ==> SampleAt(Each, res, k) == None
  {
  }

  /** The k-th toy sample is the prototype with bin i replaced by truth plus
      the k-th noise draw, for every bin. */
  lemma ToySampleBins(kind: SamplerKind, res: Resampler, k: nat)
    requires kind.ToyMC? && ToyFits(kind) && k < kind.ngen
    ensures var s := SampleAt(kind, res, k);
      && s.Some?
      && s.value.hasCovariance == kind.prototype.hasCovariance
      && |s.value.values| == |kind.prototype.values|
      && forall i :: 0 <= i < |kind.prototype.values| ==> s.value.values[i] == kind.truth[i] + kind.noise(k)[i]
  {
  }

  /** The sampler object: its kind, the resampler it reads, the counters of
      all four strategies (each kind uses its own) and the datasets the toy
      Monte Carlo has saved to file. */
  class Sampler {
    const kind: SamplerKind
    const res: Resampler
    var seqno: int
    var next: int
    var remaining: int
    var first: bool
    var saved: seq<(string, Dataset)>

    /** How many requests the sampler has answered, read off its counters. */
    function Calls(): int
      reads this
    {
      match kind
      case Jackknife(_) => seqno
      case Bootstrap(_, _, _) => next
      case Each => next
      case ToyMC(ngen, _, _, _, _) => ngen - remaining
    }

    /** Counters never run backwards; the toy Monte Carlo saves a file only
        for its first sample, and only when it has a file name. */
    ghost predicate Valid()
      reads this
    {
      && Calls() >= 0
      && (kind.Jackknife? ==> res.JackknifeEnds())
      && (kind.ToyMC? ==> ToyFits(kind))
      && (kind.ToyMC? ==> (first <==> Calls() == 0 || kind.ngen <= 0))
      && (kind.ToyMC? && !first && |kind.filename| > 0 ==>
            SampleAt(kind, res, 0).Some? && saved == [(kind.filename, SampleAt(kind, res, 0).value)])
      && (!kind.ToyMC? || first || |kind.filename| == 0 ==> saved == [])
    }

    constructor (kind: SamplerKind, res: Resampler)
      requires kind.Jackknife? ==> res.JackknifeEnds()
      requires kind.ToyMC? ==> ToyFits(kind)
      ensures Valid() && Calls() == 0
      ensures this.kind == kind && this.res == res
    {
      this.kind := kind;
      this.res := res;
      seqno := 0;
      next := 0;
      remaining := if kind.ToyMC? then kind.ngen else 0;
      first := true;
      saved := [];
    }

    /** Hands out the next sample, or none. */
    method NextSample() returns (s: Option<Dataset>)
      requires Valid()
      modifies this
      ensures Valid()
      ensures Calls() == old(Calls()) + 1
      ensures s == SampleAt(kind, res, old(Calls()))
    {
      match kind {
        case Jackknife(ndrop) =>
          var sample := res.jackknife(ndrop, seqno);
          seqno := seqno + 1;
          if sample.Some? {
            s := Some(res.finalize(sample.value));
          } else {
            s := None;
          }
        case Bootstrap(trials, size, fix) =>
          next := next + 1;
          if next <= trials {
            s := Some(res.finalize(res.bootstrap(next - 1, size, fix)));
          } else {
            s := None;
          }
        case Each =>
          next := next + 1;
          if next <= |res.observations| {
            s := Some(res.finalize(res.observations[next - 1]));
          } else {
            s := None;
          }
        case ToyMC(ngen, prototype, truth, filename, noise) =>
          var k: nat := ngen - remaining;
          var r := remaining;
          remaining := remaining - 1;
          if r > 0 {
            var values := AddNoise(prototype.values, truth, noise(k));
            s := Some(prototype.(values := values));
            if first && |filename| > 0 {
              saved := saved + [(filename, s.value)];
            }
            first := false;
          } else {
            s := None;
          }
      }
    }
  }

  /** Overwrites every bin of a copy of the prototype's values with truth
      plus noise, in bin order. */
  method AddNoise(prototype: seq<real>, truth: seq<real>, noise: seq<real>) returns (values: seq<real>)
    requires |truth| >= |prototype| && |noise| >= |prototype|
    ensures values == Noisy(truth, noise, |prototype|)
  {
    var a := new real[|prototype|](i requires 0 <= i < |prototype| => prototype[i]);
    for i := 0 to a.Length
      invariant forall j :: 0 <= j < i ==> a[j] == truth[j] + noise[j]
    {
      a[i] := truth[i] + noise[i];
    }
    values := a[..];
  }
}
