/** The stratified estimate, its variance and its interval (measurement/vvr.py). The square root is a
    parameter: what is proved of it uses only that it is a root. */
module Estimator {
  import opened Prelude
  import opened Sums
  import opened WaterFilling
  import opened WaterLevels
  import opened Allocations
  import opened Sampling

  datatype Stratum = Stratum(population: nat, sampled: nat, calls: nat)

  function Rate(s: Stratum): real {
    if s.sampled > 0 then s.calls as real / s.sampled as real else 0.0
  }

  // Calls never outnumber the views reviewed.
  predicate Plausible(s: Stratum) {
    s.calls <= s.sampled <= s.population
  }

  function Weight(s: Stratum, population: nat): real
    requires population > 0
  {
    s.population as real / population as real
  }

  function PointTerm(s: Stratum, population: nat): real
    requires population > 0
  {
    if s.sampled == 0 then 0.0 else Weight(s, population) * Rate(s)
  }

  function Correction(s: Stratum): real
    requires s.population > 0
  {
    1.0 - s.sampled as real / s.population as real
  }

  function Spread(s: Stratum): real {
    Times(Rate(s), 1.0 - Rate(s))
  }

  // weight^2 * correction * spread / divisor
  function Contribution(weight: real, correction: real, spread: real, divisor: real): real
    requires divisor > 0.0
  {
    Times(weight, Times(weight, Times(correction, spread / divisor)))
  }

  /** W^2 (1 - n/N) p (1 - p) / (n - 1), for a stratum with at least two sampled views. */
  function VarianceTerm(s: Stratum, population: nat): real
    requires population > 0
  {
    if s.population == 0 || s.sampled < 2 then 0.0
    else Contribution(Weight(s, population), Correction(s), Spread(s), (s.sampled - 1) as real)
  }

  function PointTerms(strata: seq<Stratum>, population: nat): seq<real>
    requires population > 0
  {
    seq(|strata|, h requires 0 <= h < |strata| => PointTerm(strata[h], population))
  }

  function VarianceTerms(strata: seq<Stratum>, population: nat): seq<real>
    requires population > 0
  {
    seq(|strata|, h requires 0 <= h < |strata| => VarianceTerm(strata[h], population))
  }

  function Populations(strata: seq<Stratum>): seq<int> {
    seq(|strata|, h requires 0 <= h < |strata| => strata[h].population)
  }

  /** The variance loop; an empty population is refused. */
  method StratifiedVariance(strata: seq<Stratum>) returns (r: Option<real>)
    ensures r == if Total(Populations(strata)) <= 0 then None
                 else Some(Sum(VarianceTerms(strata, Total(Populations(strata)))))
  {
    var population := Total(Populations(strata));
    if population <= 0 {
      return None;
    }
    var variance := 0.0;
    for h := 0 to |strata|
      invariant variance == Sum(VarianceTerms(strata[..h], population))
    {
      var s := strata[h];
      hide Contribution, Times;
      ghost var before := VarianceTerms(strata[..h], population);
      SumSnoc(before, VarianceTerm(s, population));
      assert VarianceTerms(strata[..h + 1], population) == before + [VarianceTerm(s, population)];
      if s.population > 0 && s.sampled >= 2 {
        var rate, weight := Rate(s), Weight(s, population);
        var fpc := 1.0 - s.sampled as real / s.population as real;
        var term := Contribution(weight, fpc, Times(rate, 1.0 - rate), (s.sampled - 1) as real);
        variance := variance + term;
      }
    }
    assert strata[..|strata|] == strata;
    r := Some(variance);
  }

  /** stratified_standard_error, with the root it takes. */
  method StandardError(strata: seq<Stratum>, sqrt: real -> real) returns (r: Option<real>)
    ensures r == if Total(Populations(strata)) <= 0 then None
                 else Some(sqrt(Sum(VarianceTerms(strata, Total(Populations(strata))))))
  {
    var variance := StratifiedVariance(strata);
    r := if variance.None? then None else Some(sqrt(variance.value));
  }

  lemma {:induction false} SumSnoc(xs: seq<real>, x: real)
    ensures Sum(xs + [x]) == Sum(xs) + x
  {
    if xs == [] {
      assert Sum([x]) == x;
      assert xs + [x] == [x];
    } else {
      assert (xs + [x])[1..] == xs[1..] + [x];
      SumSnoc(xs[1..], x);
    }
  }

  // ------------------------------------------------------------------
  // The estimate
  // ------------------------------------------------------------------

  // An all-or-nothing rate from a stratum sampled short of a census.
  predicate DegenerateAt(s: Stratum) {
    2 <= s.sampled < s.population && (Rate(s) == 0.0 || Rate(s) == 1.0)
  }

  datatype Estimate = Estimate(point: real, variance: real, strata: seq<Stratum>, everyStratumHasTwo: bool,
                               degenerate: set<nat>)

  datatype Failure = AsksForMore(band: nat) | Starved

  predicate Columns(sample: seq<seq<nat>>, calls: seq<seq<bool>>) {
    |sample| == |calls| == RISK_BANDS
  }

  // Bands that hold nothing have population 0 and add nothing to any sum.
  function Strata(f: Frame, sample: seq<seq<nat>>, calls: seq<seq<bool>>): seq<Stratum>
    requires Columns(sample, calls)
  {
    seq(RISK_BANDS, h requires 0 <= h < RISK_BANDS =>
      Stratum(|Positions(f.bands, h)|, |sample[h]|, CountTrue(calls[h])))
  }

  predicate StarvedAt(s: Stratum) { s.population > 0 && s.sampled == 0 }

  function Summary(strata: seq<Stratum>, size: nat): Result<Estimate, Failure>
    requires size > 0
  {
    if exists h :: 0 <= h < |strata| && StarvedAt(strata[h]) then Err(Starved)
    else Ok(Estimate(
      Sum(PointTerms(strata, size)),
      Sum(VarianceTerms(strata, size)),
      strata,
      forall h :: 0 <= h < |strata| && strata[h].population > 0 && strata[h].sampled > 0 ==> strata[h].sampled >= 2,
      set h: nat | h < |strata| && DegenerateAt(strata[h])))
  }

  /** estimate_from_calls: computed from the reviewers' calls alone. */
  function Estimated(f: Frame, sample: seq<seq<nat>>, calls: seq<seq<bool>>): Result<Estimate, Failure>
    requires Valid(f) && Columns(sample, calls)
  {
    Summary(Strata(f, sample, calls), |f.bands|)
  }

  // The population the variance divides by is the frame's size.
  lemma PopulationsAddUp(f: Frame, sample: seq<seq<nat>>, calls: seq<seq<bool>>)
    requires Valid(f) && Columns(sample, calls)
    ensures Total(Populations(Strata(f, sample, calls))) == |f.bands|
  {
    SizesAddUp(f.bands);
    var sizes: seq<int> := Sizes(Frame(f.bands, []));
    assert Populations(Strata(f, sample, calls)) == sizes;
  }

  function TrueVvr(f: Frame): real
    requires Valid(f)
  {
    CountTrue(f.violative) as real / |f.violative| as real
  }

  // ------------------------------------------------------------------
  // One measurement
  // ------------------------------------------------------------------

  /** Reviewer draws for every view that will be sampled. */
  ghost predicate ReviewDraws(counts: seq<int>, panel: seq<Profile>, draws: seq<seq<seq<real>>>) {
    |counts| == |draws| == RISK_BANDS && forall h | 0 <= h < RISK_BANDS :: DrawsFor(Max(counts[h], 0), panel, draws[h])
  }

  ghost predicate Reviewable(f: Frame, sample: seq<seq<nat>>, panel: seq<Profile>, draws: seq<seq<seq<real>>>) {
    |sample| == |draws| == RISK_BANDS &&
    forall h | 0 <= h < RISK_BANDS :: Inside(sample[h], |f.violative|) && DrawsFor(|sample[h]|, panel, draws[h])
  }

  /** Every sampled view goes to the panel. */
  ghost function Reviewed(f: Frame, sample: seq<seq<nat>>, panel: seq<Profile>, draws: seq<seq<seq<real>>>): seq<seq<bool>>
    requires Reviewable(f, sample, panel, draws)
  {
    seq(RISK_BANDS, h requires 0 <= h < RISK_BANDS => Review(Pick(f.violative, sample[h]), panel, draws[h]))
  }

  lemma SampleIsReviewable(f: Frame, counts: seq<int>, rng: seq<seq<nat>>, panel: seq<Profile>, draws: seq<seq<seq<real>>>)
    requires Valid(f) && FairDraws(f, counts, rng) && ReviewDraws(counts, panel, draws) && Sampled(f, counts, rng).Ok?
    ensures Reviewable(f, Sampled(f, counts, rng).value, panel, draws)
    ensures forall h | 0 <= h < RISK_BANDS ::
              DrawnFrom(Positions(f.bands, h), Max(counts[h], 0), Sampled(f, counts, rng).value[h])
  {
    var sample := Sampled(f, counts, rng).value;
    forall h: nat | h < RISK_BANDS
      ensures DrawnFrom(Positions(f.bands, h), Max(counts[h], 0), sample[h]) && Inside(sample[h], |f.violative|)
    {
      PositionsAre(f.bands, h);
      WithinSizes(f, counts, 0, h);
    }
  }

  lemma {:induction false} WithinSizes(f: Frame, counts: seq<int>, from: nat, h: nat)
    requires |counts| == RISK_BANDS && from <= h < RISK_BANDS && Overdrawn(f, counts, from) == None
    ensures counts[h] <= |Positions(f.bands, h)|
    decreases h - from
  {
    if from < h {
      WithinSizes(f, counts, from + 1, h);
    }
  }

  /** Draw, review, estimate. */
  ghost function Measured(f: Frame, counts: seq<int>, rng: seq<seq<nat>>, panel: seq<Profile>,
                          draws: seq<seq<seq<real>>>): Result<Estimate, Failure>
    requires Valid(f) && FairDraws(f, counts, rng) && ReviewDraws(counts, panel, draws)
  {
    match Sampled(f, counts, rng)
    case Err(h) => Err(AsksForMore(h))
    case Ok(sample) =>
      SampleIsReviewable(f, counts, rng, panel, draws);
      Estimated(f, sample, Reviewed(f, sample, panel, draws))
  }

  // The strata of a measurement that was drawn.
  ghost function MeasuredStrata(f: Frame, counts: seq<int>, rng: seq<seq<nat>>, panel: seq<Profile>,
                                draws: seq<seq<seq<real>>>): seq<Stratum>
    requires Valid(f) && FairDraws(f, counts, rng) && ReviewDraws(counts, panel, draws) && Sampled(f, counts, rng).Ok?
  {
    SampleIsReviewable(f, counts, rng, panel, draws);
    var sample := Sampled(f, counts, rng).value;
    Strata(f, sample, Reviewed(f, sample, panel, draws))
  }

  lemma StratumMeasured(f: Frame, counts: seq<int>, rng: seq<seq<nat>>, panel: seq<Profile>,
                        draws: seq<seq<seq<real>>>, h: nat)
    requires Valid(f) && FairDraws(f, counts, rng) && ReviewDraws(counts, panel, draws)
    requires Sampled(f, counts, rng).Ok? && h < RISK_BANDS
    ensures var s := MeasuredStrata(f, counts, rng, panel, draws)[h];
            s.population == |Positions(f.bands, h)| && s.sampled == Max(counts[h], 0) && Plausible(s)
  {
    SampleIsReviewable(f, counts, rng, panel, draws);
    WithinSizes(f, counts, 0, h);
    CountAtMost(Reviewed(f, Sampled(f, counts, rng).value, panel, draws)[h]);
  }

  /** Any successful allocation with a minimum of at least one can be drawn and estimated: no stratum
      is asked for more than it holds and none is starved, whatever the keys, the draw and the panel. */
  lemma SamplingIsSafe(f: Frame, p: Problem, rng: seq<seq<nat>>, panel: seq<Profile>, draws: seq<seq<seq<real>>>)
    requires Valid(f) && p.sizes == Sizes(f) && |p.keys| == RISK_BANDS && p.minimum >= 1 && Allocated(p).Ok?
    requires FairDraws(f, Allocated(p).value, rng) && ReviewDraws(Allocated(p).value, panel, draws)
    ensures Measured(f, Allocated(p).value, rng, panel, draws).Ok?
  {
    var counts := Allocated(p).value;
    AllocationFits(f, p);
    hide Allocated, Positions, Sizes, Sampled, FairDraws, ReviewDraws, MeasuredStrata;
    NeverOverdrawn(f, counts, 0);
    assert Sampled(f, counts, rng).Ok? by {
      FitsAreDrawn(f, counts, rng);
    }
    forall h: nat | h < RISK_BANDS ensures !StarvedAt(MeasuredStrata(f, counts, rng, panel, draws)[h]) {
      StratumMeasured(f, counts, rng, panel, draws, h);
    }
    MeasuredIsSummary(f, counts, rng, panel, draws);
  }

  lemma AllocationFits(f: Frame, p: Problem)
    requires p.sizes == Sizes(f) && |p.keys| == RISK_BANDS && p.minimum >= 1 && Allocated(p).Ok?
    ensures |Allocated(p).value| == RISK_BANDS
    ensures forall h | 0 <= h < RISK_BANDS ::
              Allocated(p).value[h] <= |Positions(f.bands, h)| && (|Positions(f.bands, h)| > 0 ==> Allocated(p).value[h] > 0)
  {
    forall h: nat | h < RISK_BANDS
      ensures |Allocated(p).value| == RISK_BANDS
      ensures Allocated(p).value[h] <= p.sizes[h] && (p.sizes[h] > 0 ==> Allocated(p).value[h] > 0)
      ensures p.sizes[h] == |Positions(f.bands, h)|
    {
      AllocationKeepsBounds(p, h);
    }
    assert Allocated(p).value[0] <= p.sizes[0];
  }

  lemma FitsAreDrawn(f: Frame, counts: seq<int>, rng: seq<seq<nat>>)
    requires |counts| == |rng| == RISK_BANDS && Overdrawn(f, counts, 0) == None
    ensures Sampled(f, counts, rng).Ok?
  {
  }

  lemma MeasuredIsSummary(f: Frame, counts: seq<int>, rng: seq<seq<nat>>, panel: seq<Profile>,
                          draws: seq<seq<seq<real>>>)
    requires Valid(f) && FairDraws(f, counts, rng) && ReviewDraws(counts, panel, draws) && Sampled(f, counts, rng).Ok?
    ensures |MeasuredStrata(f, counts, rng, panel, draws)| == RISK_BANDS
    ensures Measured(f, counts, rng, panel, draws) == Summary(MeasuredStrata(f, counts, rng, panel, draws), |f.bands|)
  {
    SampleIsReviewable(f, counts, rng, panel, draws);
  }

  // ------------------------------------------------------------------
  // Census
  // ------------------------------------------------------------------

  // Every view of a stratum sampled, and every violative one called.
  function FullStratum(f: Frame, h: nat): Stratum
    requires Valid(f)
  {
    Stratum(|Positions(f.bands, h)|, |Positions(f.bands, h)|, Hits(f, |f.bands|, h))
  }

  // Whatever order the whole of a stratum was drawn in, perfect reviewers find its violative views.
  lemma FullReview(f: Frame, h: nat, drawn: seq<nat>, panel: seq<Profile>, draws: seq<seq<real>>)
    requires Valid(f) && DrawnFrom(Positions(f.bands, h), |Positions(f.bands, h)|, drawn)
    requires Inside(drawn, |f.violative|) && PerfectPanel(panel) && DrawsFor(|drawn|, panel, draws)
    ensures CountTrue(Review(Pick(f.violative, drawn), panel, draws)) == Hits(f, |f.bands|, h)
  {
    PositionsAre(f.bands, h);
    FullDrawIsAll(Positions(f.bands, h), drawn);
    PerfectReviewIsTruth(Pick(f.violative, drawn), panel, draws);
    CountShuffled(f.violative, drawn, Positions(f.bands, h));
    assert f.bands[..|f.bands|] == f.bands;
  }

  lemma CensusStratum(f: Frame, counts: seq<int>, rng: seq<seq<nat>>, panel: seq<Profile>, draws: seq<seq<seq<real>>>,
                      h: nat)
    requires Valid(f) && FairDraws(f, counts, rng) && ReviewDraws(counts, panel, draws) && counts == Sizes(f)
    requires PerfectPanel(panel) && h < RISK_BANDS && Sampled(f, counts, rng).Ok?
    ensures MeasuredStrata(f, counts, rng, panel, draws)[h] == FullStratum(f, h)
  {
    hide Positions, Hits, PerfectPanel, DrawsFor, DrawnFrom, Review, Sampled;
    SampleIsReviewable(f, counts, rng, panel, draws);
    var drawn := Sampled(f, counts, rng).value[h];
    assert counts[h] == |Positions(f.bands, h)|;
    StratumMeasured(f, counts, rng, panel, draws, h);
    FullReview(f, h, drawn, panel, draws[h]);
  }

  lemma CensusTerm(members: nat, hits: nat, size: nat)
    requires hits <= members && size > 0
    ensures PointTerm(Stratum(members, members, hits), size) == Times(Unit(size), hits as real)
    ensures VarianceTerm(Stratum(members, members, hits), size) == 0.0
  {
    if members > 0 {
      CancelTerm(members as real, hits as real, size as real);
      FullSampleHasNoVariance(Stratum(members, members, hits), size);
    }
  }

  lemma CancelTerm(m: real, h: real, n: real)
    requires m > 0.0 && n > 0.0
    ensures (m / n) * (h / m) == (1.0 / n) * h
  {
    var a, b := m / n, h / m;
    assert a * n == m && b * m == h;
    assert (1.0 / n) * m == a;
    assert a * b == (1.0 / n) * (m * b);
  }

  lemma FullSampleHasNoVariance(s: Stratum, size: nat)
    requires s.sampled == s.population && size > 0
    ensures VarianceTerm(s, size) == 0.0
  {
    if s.population > 0 && s.sampled >= 2 {
      assert Correction(s) == 0.0;
      hide Correction, Spread, Weight;
      ContributionSign(Weight(s, size), Correction(s), Spread(s), (s.sampled - 1) as real);
    }
  }

  /** A census read by perfect reviewers, however many and whatever they drew, gives exactly the
      population rate and no variance. */
  lemma CensusIsExact(f: Frame, counts: seq<int>, rng: seq<seq<nat>>, panel: seq<Profile>, draws: seq<seq<seq<real>>>)
    requires Valid(f) && FairDraws(f, counts, rng) && ReviewDraws(counts, panel, draws) && counts == Sizes(f)
    requires PerfectPanel(panel)
    ensures var r := Measured(f, counts, rng, panel, draws);
            r.Ok? && r.value.point == TrueVvr(f) && r.value.variance == 0.0
  {
    forall h: nat | h < RISK_BANDS ensures counts[h] <= |Positions(f.bands, h)| {
    }
    NeverOverdrawn(f, counts, 0);
    forall h: nat | h < RISK_BANDS ensures MeasuredStrata(f, counts, rng, panel, draws)[h] == FullStratum(f, h) {
      CensusStratum(f, counts, rng, panel, draws, h);
    }
    FullSummary(f, MeasuredStrata(f, counts, rng, panel, draws));
  }

  lemma FullSummary(f: Frame, strata: seq<Stratum>)
    requires Valid(f) && |strata| == RISK_BANDS && forall h | 0 <= h < RISK_BANDS :: strata[h] == FullStratum(f, h)
    ensures var r := Summary(strata, |f.bands|);
            r.Ok? && r.value.point == TrueVvr(f) && r.value.variance == 0.0
  {
    var size, hits := |f.bands|, HitsBelow(f, |f.bands|);
    var unit := Unit(size);
    forall h: nat | h < RISK_BANDS
      ensures !StarvedAt(strata[h]) && VarianceTerm(strata[h], size) == 0.0
      ensures PointTerm(strata[h], size) == Scaled(unit, Reals(hits))[h]
    {
      FullTerm(f, h);
      hide PointTerm, VarianceTerm, StarvedAt, FullStratum, Positions, Hits;
    }
    hide PointTerm, VarianceTerm, StarvedAt, FullStratum, Positions, Hits, Scaled, Times, Unit;
    ZeroSum(VarianceTerms(strata, size));
    assert PointTerms(strata, size) == Scaled(unit, Reals(hits));
    SumOfInts(hits, Reals(hits));
    HitsAddUp(f, size);
    assert f.violative[..size] == f.violative;
    hide Scaled, Sum, Total, CountTrue, Times, Unit;
    SumScaled(unit, Reals(hits));
    TimesUnit(CountTrue(f.violative), size);
  }

  lemma FullTerm(f: Frame, h: nat)
    requires Valid(f) && h < RISK_BANDS
    ensures var size, s := |f.bands|, FullStratum(f, h);
            && !StarvedAt(s) && VarianceTerm(s, size) == 0.0
            && PointTerm(s, size) == Times(Unit(size), Hits(f, size, h) as real)
  {
    HitsWithin(f, h);
    hide PointTerm, VarianceTerm, Positions, Hits;
    CensusTerm(|Positions(f.bands, h)|, Hits(f, |f.bands|, h), |f.bands|);
  }

  lemma HitsWithin(f: Frame, h: nat)
    requires Valid(f)
    ensures Hits(f, |f.bands|, h) <= |Positions(f.bands, h)|
  {
    PositionsAre(f.bands, h);
    assert f.bands[..|f.bands|] == f.bands;
    CountAtMost(Pick(f.violative, Positions(f.bands, h)));
  }

  /** Asked for the whole frame with no pilot, the measurement is that census and nothing on the way
      can refuse it. */
  lemma FullMeasurementIsExact(f: Frame, p: Problem, rng: seq<seq<nat>>, panel: seq<Profile>, draws: seq<seq<seq<real>>>)
    requires Valid(f) && p.sizes == Sizes(f) && Proportional(p) && p.total == |f.bands| && PerfectPanel(panel)
    requires Allocated(p).Ok? ==>
               FairDraws(f, Allocated(p).value, rng) && ReviewDraws(Allocated(p).value, panel, draws)
    ensures Allocated(p).Ok?
    ensures var r := Measured(f, Allocated(p).value, rng, panel, draws);
            r.Ok? && r.value.point == TrueVvr(f) && r.value.variance == 0.0
  {
    var sizes: seq<int> := Sizes(Frame(f.bands, []));
    SizesAddUp(f.bands);
    assert Caps(p) == sizes;
    TotalLe(Lows(p), Caps(p));
    PositionsAre(f.bands, f.bands[0]);
    assert p.sizes[f.bands[0]] > 0;
    CensusIsEverything(p);
    CensusIsExact(f, Allocated(p).value, rng, panel, draws);
  }

  // ------------------------------------------------------------------
  // What the numbers can be
  // ------------------------------------------------------------------

  lemma RateInUnit(s: Stratum)
    requires Plausible(s)
    ensures 0.0 <= Rate(s) <= 1.0
  {
    if s.sampled > 0 {
      QuotientBound(s.calls as real, s.sampled as real, 1.0);
      QuotientBound(s.calls as real, s.sampled as real, 0.0);
    }
  }

  // A variance term is never negative, and vanishes only for a full sample or an all-or-nothing rate.
  lemma VarianceTermSign(s: Stratum, size: nat)
    requires Plausible(s) && size > 0
    ensures VarianceTerm(s, size) >= 0.0
    ensures 2 <= s.sampled < s.population && VarianceTerm(s, size) == 0.0 ==> Rate(s) == 0.0 || Rate(s) == 1.0
  {
    RateInUnit(s);
    if s.sampled >= 2 {
      if s.sampled == s.population {
        FullSampleHasNoVariance(s, size);
      } else {
        PartIsLess(s.sampled as real, s.population as real);
        SpreadSign(Rate(s));
        assert Weight(s, size) > 0.0 && Correction(s) > 0.0;
        hide Weight, Correction, Rate, Contribution;
        ContributionSign(Weight(s, size), Correction(s), Spread(s), (s.sampled - 1) as real);
      }
    }
  }

  lemma SpreadSign(r: real)
    requires 0.0 <= r <= 1.0
    ensures Times(r, 1.0 - r) >= 0.0
    ensures Times(r, 1.0 - r) == 0.0 ==> r == 0.0 || r == 1.0
  {
    if 0.0 < r < 1.0 {
      PositiveProduct(r, 1.0 - r);
    }
  }

  lemma PositiveProduct(a: real, b: real)
    requires a > 0.0 && b > 0.0
    ensures Times(a, b) > 0.0
  {
  }

  lemma PartIsLess(a: real, b: real)
    requires 0.0 < a < b
    ensures 1.0 - a / b > 0.0
  {
    var rest := 1.0 - a / b;
    assert a / b * b == a;
    assert rest * b == b - a;
    StrictSign(rest, b);
  }

  lemma StrictSign(x: real, y: real)
    requires y > 0.0 && x * y > 0.0
    ensures x > 0.0
  {
  }

  lemma ContributionSign(weight: real, correction: real, spread: real, divisor: real)
    requires divisor > 0.0
    ensures correction == 0.0 || spread == 0.0 ==> Contribution(weight, correction, spread, divisor) == 0.0
    ensures weight > 0.0 && correction > 0.0 && spread > 0.0 ==> Contribution(weight, correction, spread, divisor) > 0.0
  {
    var a := spread / divisor;
    var b := Times(correction, a);
    var c := Times(weight, b);
    if spread == 0.0 || correction == 0.0 {
      assert b == 0.0 && c == 0.0;
    } else if weight > 0.0 && correction > 0.0 && spread > 0.0 {
      PositiveQuotient(spread, divisor);
      PositiveProduct(correction, a);
      PositiveProduct(weight, b);
      PositiveProduct(weight, c);
    }
  }

  lemma PositiveQuotient(a: real, d: real)
    requires a > 0.0 && d > 0.0
    ensures a / d > 0.0
  {
  }

  lemma {:induction false} NonNegativeSum(xs: seq<real>)
    requires forall i | 0 <= i < |xs| :: xs[i] >= 0.0
    ensures Sum(xs) >= 0.0
    ensures Sum(xs) == 0.0 ==> forall i | 0 <= i < |xs| :: xs[i] == 0.0
  {
    if xs != [] {
      NonNegativeSum(xs[1..]);
      assert forall i | 0 < i < |xs| :: xs[i] == xs[1..][i - 1];
    }
  }

  /** The variance is never negative, so its square root exists. A zero-width interval that passes the
      two-per-stratum and no-degenerate-strata checks was earned: the sample was a census. */
  lemma ZeroWidthIsEarned(f: Frame, counts: seq<int>, rng: seq<seq<nat>>, panel: seq<Profile>,
                          draws: seq<seq<seq<real>>>)
    requires Valid(f) && FairDraws(f, counts, rng) && ReviewDraws(counts, panel, draws)
    requires Measured(f, counts, rng, panel, draws).Ok?
    ensures var e := Measured(f, counts, rng, panel, draws).value;
            && e.variance >= 0.0
            && (e.variance == 0.0 && e.everyStratumHasTwo && e.degenerate == {} ==>
                  forall h | 0 <= h < RISK_BANDS :: |Positions(f.bands, h)| > 0 ==> counts[h] == |Positions(f.bands, h)|)
  {
    forall h: nat | h < RISK_BANDS ensures var s := MeasuredStrata(f, counts, rng, panel, draws)[h];
      s.population == |Positions(f.bands, h)| && s.sampled == Max(counts[h], 0) && Plausible(s)
    {
      StratumMeasured(f, counts, rng, panel, draws, h);
    }
    ZeroWidthStrata(MeasuredStrata(f, counts, rng, panel, draws), |f.bands|);
    hide MeasuredStrata, Positions, Summary;
  }

  lemma ZeroWidthStrata(strata: seq<Stratum>, size: nat)
    requires size > 0 && (forall h | 0 <= h < |strata| :: Plausible(strata[h])) && Summary(strata, size).Ok?
    ensures var e := Summary(strata, size).value;
            && e.variance >= 0.0
            && (e.variance == 0.0 && e.everyStratumHasTwo && e.degenerate == {} ==>
                  forall h | 0 <= h < |strata| :: strata[h].population > 0 ==>
                    0 < strata[h].sampled == strata[h].population)
  {
    var e, terms := Summary(strata, size).value, VarianceTerms(strata, size);
    forall h: nat | h < |strata|
      ensures terms[h] >= 0.0
      ensures terms[h] == 0.0 && !DegenerateAt(strata[h]) ==>
                strata[h].sampled < 2 || strata[h].sampled == strata[h].population
    {
      VarianceTermSign(strata[h], size);
    }
    NonNegativeSum(terms);
    if e.variance == 0.0 && e.everyStratumHasTwo && e.degenerate == {} {
      forall h: nat | h < |strata| && strata[h].population > 0
        ensures 0 < strata[h].sampled == strata[h].population
      {
        assert !StarvedAt(strata[h]);
        assert DegenerateAt(strata[h]) ==> h in e.degenerate;
        assert terms[h] == 0.0;
      }
    }
  }

  /** The point estimate is a share of views. */
  lemma PointIsAShare(f: Frame, counts: seq<int>, rng: seq<seq<nat>>, panel: seq<Profile>, draws: seq<seq<seq<real>>>)
    requires Valid(f) && FairDraws(f, counts, rng) && ReviewDraws(counts, panel, draws)
    requires Measured(f, counts, rng, panel, draws).Ok?
    ensures 0.0 <= Measured(f, counts, rng, panel, draws).value.point <= 1.0
  {
    var strata := MeasuredStrata(f, counts, rng, panel, draws);
    forall h: nat | h < RISK_BANDS ensures Plausible(strata[h]) {
      StratumMeasured(f, counts, rng, panel, draws, h);
    }
    var sample := Sampled(f, counts, rng).value;
    SampleIsReviewable(f, counts, rng, panel, draws);
    PopulationsAddUp(f, sample, Reviewed(f, sample, panel, draws));
    hide MeasuredStrata, Sampled, PointTerm;
    PointWithin(strata, |f.bands|);
  }

  lemma PointWithin(strata: seq<Stratum>, size: nat)
    requires size > 0 && (forall h | 0 <= h < |strata| :: Plausible(strata[h])) && Total(Populations(strata)) == size
    ensures 0.0 <= Sum(PointTerms(strata, size)) <= 1.0
  {
    var sizes, terms, unit := Populations(strata), PointTerms(strata, size), Unit(size);
    var weights := Scaled(unit, Reals(sizes));
    forall h: nat | h < |strata| ensures 0.0 <= terms[h] <= weights[h] {
      PointTermWithin(strata[h], size);
    }
    hide PointTerm, Scaled, Weight, Rate, Sum, Total, Times, Unit;
    NonNegativeSum(terms);
    SumLe(terms, weights);
    SumScaled(unit, Reals(sizes));
    SumOfInts(sizes, Reals(sizes));
    TimesUnit(size, size);
  }

  lemma PointTermWithin(s: Stratum, size: nat)
    requires Plausible(s) && size > 0
    ensures 0.0 <= PointTerm(s, size) <= Times(Unit(size), s.population as real)
  {
    RateInUnit(s);
    TimesUnit(s.population, size);
    assert Weight(s, size) == Times(Unit(size), s.population as real);
    hide Rate, Weight;
    ShareOfWeight(Weight(s, size), Rate(s));
  }

  // One view's share of the frame.
  function Unit(size: nat): real
    requires size > 0
  {
    1.0 / size as real
  }

  lemma TimesUnit(m: nat, size: nat)
    requires size > 0
    ensures Times(Unit(size), m as real) == m as real / size as real >= 0.0
    ensures m == size ==> Times(Unit(size), m as real) == 1.0
  {
    QuotientBound(m as real, size as real, 0.0);
  }

  lemma ShareOfWeight(weight: real, rate: real)
    requires weight >= 0.0 && 0.0 <= rate <= 1.0
    ensures 0.0 <= weight * rate <= weight
  {
    assert weight * (1.0 - rate) >= 0.0;
  }

  // ------------------------------------------------------------------
  // The interval
  // ------------------------------------------------------------------

  const Z_95: real := 1.959963984540054

  ghost predicate RootOf(sqrt: real -> real, v: real) {
    sqrt(v) >= 0.0 && Times(sqrt(v), sqrt(v)) == v
  }

  function HalfWidth(e: Estimate, sqrt: real -> real): real { Z_95 * sqrt(e.variance) }

  // Clipped to what a share of views can be.
  function Lower(e: Estimate, sqrt: real -> real): real {
    var bound := e.point - HalfWidth(e, sqrt);
    if bound < 0.0 then 0.0 else bound
  }

  function Upper(e: Estimate, sqrt: real -> real): real {
    var bound := e.point + HalfWidth(e, sqrt);
    if bound > 1.0 then 1.0 else bound
  }

  /** The interval is made of shares, holds the estimate, and has no width exactly when the variance is
      zero: clipping hides no certainty and adds none. So an interval without width, with two views from each
      stratum and no degenerate one, is a census. */
  lemma IntervalHolds(f: Frame, counts: seq<int>, rng: seq<seq<nat>>, panel: seq<Profile>, draws: seq<seq<seq<real>>>,
                      sqrt: real -> real)
    requires Valid(f) && FairDraws(f, counts, rng) && ReviewDraws(counts, panel, draws)
    requires Measured(f, counts, rng, panel, draws).Ok?
    requires RootOf(sqrt, Measured(f, counts, rng, panel, draws).value.variance)
    ensures var e := Measured(f, counts, rng, panel, draws).value;
            && 0.0 <= Lower(e, sqrt) <= e.point <= Upper(e, sqrt) <= 1.0
            && (Lower(e, sqrt) == Upper(e, sqrt) <==> e.variance == 0.0)
            && (Lower(e, sqrt) == Upper(e, sqrt) && e.everyStratumHasTwo && e.degenerate == {} ==>
                  forall h | 0 <= h < RISK_BANDS :: |Positions(f.bands, h)| > 0 ==> counts[h] == |Positions(f.bands, h)|)
  {
    PointIsAShare(f, counts, rng, panel, draws);
    ZeroWidthIsEarned(f, counts, rng, panel, draws);
    var e := Measured(f, counts, rng, panel, draws).value;
    hide Measured, FairDraws, ReviewDraws, Positions;
    RootOfZero(sqrt(e.variance));
  }

  lemma RootOfZero(root: real)
    ensures Times(root, root) == 0.0 <==> root == 0.0
  {
    if root > 0.0 {
      PositiveProduct(root, root);
    } else if root < 0.0 {
      PositiveProduct(-root, -root);
      assert Times(root, root) == Times(-root, -root);
    }
  }

  /** An interval that needed no clipping is the normal one: its width squared is 4 Z^2 times the variance, and it is
      centred on the estimate. */
  lemma UnclippedWidth(e: Estimate, sqrt: real -> real)
    requires RootOf(sqrt, e.variance)
    requires 0.0 < Lower(e, sqrt) && Upper(e, sqrt) < 1.0
    ensures var width := Upper(e, sqrt) - Lower(e, sqrt);
            && Times(width, width) == 4.0 * 1.959963984540054 * 1.959963984540054 * e.variance
            && Lower(e, sqrt) + Upper(e, sqrt) == 2.0 * e.point
  {
    var s := sqrt(e.variance);
    SquareOfDouble(1.959963984540054, s);
  }

  lemma SquareOfDouble(z: real, s: real)
    ensures Times(2.0 * (z * s), 2.0 * (z * s)) == 4.0 * z * z * Times(s, s)
  {
  }

  // ------------------------------------------------------------------
  // The two checks
  // ------------------------------------------------------------------

  lemma {:induction false} CountExtremes(bs: seq<bool>)
    ensures CountTrue(bs) == 0 <==> forall i | 0 <= i < |bs| :: !bs[i]
    ensures CountTrue(bs) == |bs| <==> forall i | 0 <= i < |bs| :: bs[i]
  {
    if bs != [] {
      CountExtremes(bs[1..]);
      CountAtMost(bs[1..]);
      assert forall i | 0 < i < |bs| :: bs[i] == bs[1..][i - 1];
    }
  }

  /** What the two validity checks report, exactly: whether every stratum with views had at least two drawn, and the
      strata of which two or more were drawn, but not all, and either no view or every view drawn was called. */
  lemma ChecksAreExact(f: Frame, counts: seq<int>, rng: seq<seq<nat>>, panel: seq<Profile>, draws: seq<seq<seq<real>>>)
    requires Valid(f) && FairDraws(f, counts, rng) && ReviewDraws(counts, panel, draws)
    requires Measured(f, counts, rng, panel, draws).Ok?
    ensures Sampled(f, counts, rng).Ok? && Reviewable(f, Sampled(f, counts, rng).value, panel, draws)
    ensures var e := Measured(f, counts, rng, panel, draws).value;
            var calls := Reviewed(f, Sampled(f, counts, rng).value, panel, draws);
            && (e.everyStratumHasTwo <==> forall h | 0 <= h < RISK_BANDS :: |Positions(f.bands, h)| > 0 ==> counts[h] >= 2)
            && (forall h: nat :: h in e.degenerate <==>
                  && h < RISK_BANDS && 2 <= counts[h] < |Positions(f.bands, h)|
                  && ((forall i | 0 <= i < |calls[h]| :: !calls[h][i]) || (forall i | 0 <= i < |calls[h]| :: calls[h][i])))
  {
    SampleIsReviewable(f, counts, rng, panel, draws);
    MeasuredIsSummary(f, counts, rng, panel, draws);
    var strata, calls := MeasuredStrata(f, counts, rng, panel, draws), Reviewed(f, Sampled(f, counts, rng).value, panel, draws);
    forall h: nat | h < RISK_BANDS
      ensures strata[h].population == |Positions(f.bands, h)| && strata[h].sampled == Max(counts[h], 0)
      ensures strata[h].calls == CountTrue(calls[h]) && |calls[h]| == strata[h].sampled
      ensures DegenerateAt(strata[h]) <==>
                && 2 <= counts[h] < |Positions(f.bands, h)|
                && ((forall i | 0 <= i < |calls[h]| :: !calls[h][i]) || (forall i | 0 <= i < |calls[h]| :: calls[h][i]))
    {
      StratumMeasured(f, counts, rng, panel, draws, h);
      CountExtremes(calls[h]);
      hide Measured, Positions, Sampled, Reviewed;
      if strata[h].sampled > 0 {
        RateExtremes(strata[h]);
      }
    }
    hide MeasuredStrata, Positions, Reviewed, DegenerateAt, Rate;
  }

  lemma RateExtremes(s: Stratum)
    requires s.sampled > 0
    ensures Rate(s) == 0.0 <==> s.calls == 0
    ensures Rate(s) == 1.0 <==> s.calls == s.sampled
  {
    var r, n := Rate(s), s.sampled as real;
    assert r * n == s.calls as real;
  }
}
