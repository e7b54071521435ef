/** The view frame (measurement/frame.py), the reviewers (measurement/raters.py) and the draw
    (measurement/vvr.py). */
module Sampling {
  import opened Prelude
  import opened Sums

  const RISK_BANDS: nat := 5

  /** Every view with its stratum and its sealed truth, as parallel columns. */
  datatype Frame = Frame(bands: seq<nat>, violative: seq<bool>)

  // What the frame's constructor demands.
  predicate Valid(f: Frame) {
    |f.bands| == |f.violative| > 0 && forall i | 0 <= i < |f.bands| :: f.bands[i] < RISK_BANDS
  }

  // ------------------------------------------------------------------
  // Strata
  // ------------------------------------------------------------------

  /** The positions of one stratum, in frame order. */
  function Positions(bands: seq<nat>, h: nat): seq<nat> {
    if bands == [] then []
    else
      var last := |bands| - 1;
      Positions(bands[..last], h) + if bands[last] == h then [last] else []
  }

  lemma {:induction false} PositionsAre(bands: seq<nat>, h: nat)
    ensures Distinct(Positions(bands, h))
    ensures forall i: nat :: i in Positions(bands, h) <==> i < |bands| && bands[i] == h
    ensures forall a, b | 0 <= a < b < |Positions(bands, h)| :: Positions(bands, h)[a] < Positions(bands, h)[b]
    ensures forall a | 0 <= a < |Positions(bands, h)| :: Positions(bands, h)[a] < |bands|
  {
    if bands != [] {
      var last := |bands| - 1;
      PositionsAre(bands[..last], h);
      var before := Positions(bands[..last], h);
      forall i: nat ensures i in Positions(bands, h) <==> i < |bands| && bands[i] == h {
        assert i in before <==> i < last && bands[i] == h;
      }
    }
  }

  function Grouped(f: Frame): (r: seq<seq<nat>>) {
    seq(RISK_BANDS, h requires 0 <= h < RISK_BANDS => Positions(f.bands, h))
  }

  function Sizes(f: Frame): seq<nat> {
    seq(RISK_BANDS, h requires 0 <= h < RISK_BANDS => |Positions(f.bands, h)|)
  }

  /** The counting loop: every band is reported, empty ones as zero. */
  method StratumSizes(f: Frame) returns (counts: seq<nat>)
    requires Valid(f)
    ensures counts == Sizes(f)
  {
    counts := seq(RISK_BANDS, _ => 0);
    for i := 0 to |f.bands|
      invariant counts == Sizes(Frame(f.bands[..i], []))
    {
      assert f.bands[..i + 1][..i] == f.bands[..i];
      counts := counts[f.bands[i] := counts[f.bands[i]] + 1];
    }
    assert f.bands[..|f.bands|] == f.bands;
  }

  method IndicesByStratum(f: Frame) returns (grouped: seq<seq<nat>>)
    requires Valid(f)
    ensures grouped == Grouped(f)
  {
    grouped := seq(RISK_BANDS, _ => []);
    for i := 0 to |f.bands|
      invariant grouped == Grouped(Frame(f.bands[..i], []))
    {
      assert f.bands[..i + 1][..i] == f.bands[..i];
      grouped := grouped[f.bands[i] := grouped[f.bands[i]] + [i]];
      forall g | 0 <= g < RISK_BANDS ensures grouped[g] == Positions(f.bands[..i + 1], g) {
        assert g != f.bands[i] ==> Positions(f.bands[..i + 1], g) == Positions(f.bands[..i], g) + [];
      }
    }
    assert f.bands[..|f.bands|] == f.bands;
  }

  // ------------------------------------------------------------------
  // Counting calls
  // ------------------------------------------------------------------

  function CountTrue(bs: seq<bool>): nat {
    if bs == [] then 0 else (if bs[0] then 1 else 0) + CountTrue(bs[1..])
  }

  predicate Inside(indices: seq<nat>, n: nat) {
    forall i | 0 <= i < |indices| :: indices[i] < n
  }

  function Pick(truth: seq<bool>, indices: seq<nat>): seq<bool>
    requires Inside(indices, |truth|)
  {
    seq(|indices|, i requires 0 <= i < |indices| => truth[indices[i]])
  }

  lemma {:induction false} CountAppend(a: seq<bool>, b: seq<bool>)
    ensures CountTrue(a + b) == CountTrue(a) + CountTrue(b)
  {
    if a == [] {
      assert a + b == b;
    } else {
      assert (a + b)[1..] == a[1..] + b;
      CountAppend(a[1..], b);
    }
  }

  lemma {:induction false} CountAtMost(bs: seq<bool>)
    ensures CountTrue(bs) <= |bs|
  {
    if bs != [] {
      CountAtMost(bs[1..]);
    }
  }

  lemma CountWithout(truth: seq<bool>, b: seq<nat>, j: nat)
    requires Inside(b, |truth|) && j < |b|
    ensures var rest := b[..j] + b[j + 1..];
            && Inside(rest, |truth|)
            && multiset(rest) == multiset(b) - multiset{b[j]}
            && CountTrue(Pick(truth, b)) == CountTrue(Pick(truth, rest)) + if truth[b[j]] then 1 else 0
  {
    var front, back := b[..j], b[j + 1..];
    assert b == front + [b[j]] + back;
    assert Pick(truth, front + back) == Pick(truth, front) + Pick(truth, back);
    assert Pick(truth, b) == Pick(truth, front) + ([truth[b[j]]] + Pick(truth, back));
    CountAppend(Pick(truth, front), Pick(truth, back));
    CountAppend(Pick(truth, front), [truth[b[j]]] + Pick(truth, back));
    CountAppend([truth[b[j]]], Pick(truth, back));
  }

  /** Drawing the same positions in another order counts the same. */
  lemma {:induction false} CountShuffled(truth: seq<bool>, a: seq<nat>, b: seq<nat>)
    requires Inside(a, |truth|) && Inside(b, |truth|) && multiset(a) == multiset(b)
    ensures CountTrue(Pick(truth, a)) == CountTrue(Pick(truth, b))
    decreases |a|
  {
    if a == [] {
      assert |b| == |multiset(b)|;
    } else {
      assert a[0] in multiset(a);
      var j :| 0 <= j < |b| && b[j] == a[0];
      CountWithout(truth, b, j);
      CountWithout(truth, a, 0);
      assert a[..0] + a[1..] == a[1..];
      CountShuffled(truth, a[1..], b[..j] + b[j + 1..]);
    }
  }

  // ------------------------------------------------------------------
  // Strata partition the frame
  // ------------------------------------------------------------------

  lemma {:induction false} SizesAddUp(bands: seq<nat>)
    requires forall i | 0 <= i < |bands| :: bands[i] < RISK_BANDS
    ensures Total(Sizes(Frame(bands, []))) == |bands|
  {
    var sizes: seq<int> := Sizes(Frame(bands, []));
    if bands == [] {
      ZeroTotal(sizes);
    } else {
      var last := |bands| - 1;
      SizesAddUp(bands[..last]);
      var before: seq<int> := Sizes(Frame(bands[..last], []));
      var h := bands[last];
      assert sizes == before[h := before[h] + 1];
      TotalUpdate(before, h, before[h] + 1);
    }
  }

  // Violative views of one stratum, among the first n views.
  function Hits(f: Frame, n: nat, h: nat): nat
    requires Valid(f) && n <= |f.bands|
  {
    PositionsAre(f.bands[..n], h);
    CountTrue(Pick(f.violative, Positions(f.bands[..n], h)))
  }

  function HitsBelow(f: Frame, n: nat): seq<int>
    requires Valid(f) && n <= |f.bands|
  {
    seq(RISK_BANDS, h requires 0 <= h < RISK_BANDS => Hits(f, n, h))
  }

  lemma HitsStep(f: Frame, m: nat, h: nat)
    requires Valid(f) && m < |f.bands|
    ensures Hits(f, m + 1, h) == Hits(f, m, h) + if h == f.bands[m] && f.violative[m] then 1 else 0
  {
    assert f.bands[..m + 1][..m] == f.bands[..m];
    PositionsAre(f.bands[..m], h);
    PositionsAre(f.bands[..m + 1], h);
    var before := Positions(f.bands[..m], h);
    if h == f.bands[m] {
      assert Positions(f.bands[..m + 1], h) == before + [m];
      assert Pick(f.violative, before + [m]) == Pick(f.violative, before) + [f.violative[m]];
      CountAppend(Pick(f.violative, before), [f.violative[m]]);
    } else {
      assert Positions(f.bands[..m + 1], h) == before + [] == before;
    }
  }

  lemma {:induction false} HitsAddUp(f: Frame, n: nat)
    requires Valid(f) && n <= |f.bands|
    ensures Total(HitsBelow(f, n)) == CountTrue(f.violative[..n])
  {
    if n == 0 {
      ZeroTotal(HitsBelow(f, 0));
    } else {
      hide Hits;
      var m, h := n - 1, f.bands[n - 1];
      HitsAddUp(f, m);
      var before, hit := HitsBelow(f, m), if f.violative[m] then 1 else 0;
      assert f.violative[..n] == f.violative[..m] + [f.violative[m]];
      CountAppend(f.violative[..m], [f.violative[m]]);
      forall g: nat | g < RISK_BANDS
        ensures HitsBelow(f, n)[g] == HitsBelow(f, m)[g] + if g == h && f.violative[m] then 1 else 0
      {
        HitsStep(f, m, g);
      }
      assert HitsBelow(f, n) == before[h := before[h] + hit];
      TotalUpdate(before, h, before[h] + hit);
    }
  }

  // ------------------------------------------------------------------
  // The draw
  // ------------------------------------------------------------------

  /** What a draw without replacement may return. */
  ghost predicate DrawnFrom(available: seq<nat>, wanted: nat, drawn: seq<nat>) {
    |drawn| == wanted && Distinct(drawn) && forall i | 0 <= i < |drawn| :: drawn[i] in available
  }

  /** The generator's answers, one per band: any draw at all, where one is asked for. */
  ghost predicate FairDraws(f: Frame, counts: seq<int>, rng: seq<seq<nat>>) {
    |counts| == |rng| == RISK_BANDS &&
    forall h | 0 <= h < RISK_BANDS && 0 < counts[h] <= |Positions(f.bands, h)| ::
      DrawnFrom(Positions(f.bands, h), counts[h], rng[h])
  }

  // The first band asked for more than it holds.
  function Overdrawn(f: Frame, counts: seq<int>, h: nat): Option<nat>
    requires |counts| == RISK_BANDS && h <= RISK_BANDS
    decreases RISK_BANDS - h
  {
    if h == RISK_BANDS then None
    else if counts[h] > |Positions(f.bands, h)| then Some(h)
    else Overdrawn(f, counts, h + 1)
  }

  /** draw_stratified_sample: nothing for a count of zero or less, otherwise what the generator drew. */
  function Sampled(f: Frame, counts: seq<int>, rng: seq<seq<nat>>): Result<seq<seq<nat>>, nat>
    requires |counts| == |rng| == RISK_BANDS
  {
    match Overdrawn(f, counts, 0)
    case Some(h) => Err(h)
    case None => Ok(seq(RISK_BANDS, h requires 0 <= h < RISK_BANDS => if counts[h] <= 0 then [] else rng[h]))
  }

  method DrawStratifiedSample(f: Frame, counts: seq<int>, rng: seq<seq<nat>>)
    returns (r: Result<seq<seq<nat>>, nat>)
    requires Valid(f) && |counts| == |rng| == RISK_BANDS
    ensures r == Sampled(f, counts, rng)
  {
    var grouped := IndicesByStratum(f);
    var drawn: seq<seq<nat>> := [];
    for h := 0 to RISK_BANDS
      invariant |drawn| == h && Overdrawn(f, counts, 0) == Overdrawn(f, counts, h)
      invariant forall g | 0 <= g < h :: drawn[g] == if counts[g] <= 0 then [] else rng[g]
    {
      if counts[h] <= 0 {
        drawn := drawn + [[]];
      } else {
        if counts[h] > |grouped[h]| {
          return Err(h);
        }
        drawn := drawn + [rng[h]];
      }
    }
    r := Ok(drawn);
    assert drawn == Sampled(f, counts, rng).value;
  }

  lemma {:induction false} NeverOverdrawn(f: Frame, counts: seq<int>, h: nat)
    requires |counts| == RISK_BANDS && h <= RISK_BANDS
    requires forall g | h <= g < RISK_BANDS :: counts[g] <= |Positions(f.bands, g)|
    ensures Overdrawn(f, counts, h) == None
    decreases RISK_BANDS - h
  {
    if h < RISK_BANDS {
      NeverOverdrawn(f, counts, h + 1);
    }
  }

  /** Drawing as many as there are, without replacement, is drawing all of them. */
  lemma FullDrawIsAll(available: seq<nat>, drawn: seq<nat>)
    requires Distinct(available) && DrawnFrom(available, |available|, drawn)
    ensures multiset(drawn) == multiset(available)
  {
    DistinctCounts(available);
    DistinctCounts(drawn);
    forall x ensures multiset(drawn)[x] <= multiset(available)[x] {
      assert x in drawn <==> x in multiset(drawn);
      if x in drawn {
        var i :| 0 <= i < |drawn| && drawn[i] == x;
        assert x in available;
      }
    }
    SameSizeSubset(multiset(drawn), multiset(available));
  }

  lemma SameSizeSubset(a: multiset<nat>, b: multiset<nat>)
    requires a <= b && |a| == |b|
    ensures a == b
  {
    assert b == a + (b - a);
    assert |b - a| == 0;
  }

  // ------------------------------------------------------------------
  // The panel
  // ------------------------------------------------------------------

  datatype Profile = Profile(sensitivity: real, specificity: real)

  // A view is called violative when the draw falls below this.
  function Threshold(rater: Profile, truth: bool): real {
    if truth then rater.sensitivity else 1.0 - rater.specificity
  }

  function Votes(truth: bool, panel: seq<Profile>, draws: seq<real>): nat
    requires |panel| == |draws|
  {
    if panel == [] then 0
    else (if draws[0] < Threshold(panel[0], truth) then 1 else 0) + Votes(truth, panel[1..], draws[1..])
  }

  /** Uniform draws, one per view and rater. */
  ghost predicate DrawsFor(views: nat, panel: seq<Profile>, draws: seq<seq<real>>) {
    |draws| == views &&
    forall i | 0 <= i < views ::
      |draws[i]| == |panel| && forall j | 0 <= j < |panel| :: 0.0 <= draws[i][j] < 1.0
  }

  // A tie is not a majority.
  function Review(truth: seq<bool>, panel: seq<Profile>, draws: seq<seq<real>>): seq<bool>
    requires |draws| == |truth| && forall i | 0 <= i < |draws| :: |draws[i]| == |panel|
  {
    seq(|truth|, i requires 0 <= i < |truth| => 2 * Votes(truth[i], panel, draws[i]) > |panel|)
  }

  method CountVotes(thresholds: array2<real>, i: nat, draws: seq<real>, truth: bool, panel: seq<Profile>)
    returns (votes: nat)
    requires i < thresholds.Length0 && thresholds.Length1 == |panel| == |draws|
    requires forall j | 0 <= j < |panel| :: thresholds[i, j] == Threshold(panel[j], truth)
    ensures votes == Votes(truth, panel, draws)
  {
    votes := 0;
    var j := |panel|;
    while j > 0
      invariant 0 <= j <= |panel|
      invariant votes == Votes(truth, panel[j..], draws[j..])
    {
      j := j - 1;
      assert panel[j..][1..] == panel[j + 1..] && draws[j..][1..] == draws[j + 1..];
      if draws[j] < thresholds[i, j] {
        votes := votes + 1;
      }
    }
    assert panel[0..] == panel && draws[0..] == draws;
  }

  /** The review itself: thresholds filled rater by rater, then a majority per view. */
  method ReviewPanel(truth: seq<bool>, panel: seq<Profile>, draws: seq<seq<real>>) returns (calls: seq<bool>)
    requires |draws| == |truth| && forall i | 0 <= i < |draws| :: |draws[i]| == |panel|
    ensures calls == Review(truth, panel, draws)
  {
    var thresholds := new real[|truth|, |panel|];
    for j := 0 to |panel|
      invariant forall i, k | 0 <= i < |truth| && 0 <= k < j :: thresholds[i, k] == Threshold(panel[k], truth[i])
    {
      forall i | 0 <= i < |truth| {
        thresholds[i, j] := Threshold(panel[j], truth[i]);
      }
    }
    calls := [];
    for i := 0 to |truth|
      invariant |calls| == i
      invariant forall i, k | 0 <= i < |truth| && 0 <= k < |panel| :: thresholds[i, k] == Threshold(panel[k], truth[i])
      invariant forall g | 0 <= g < i :: calls[g] == Review(truth, panel, draws)[g]
    {
      var votes := CountVotes(thresholds, i, draws[i], truth[i], panel);
      calls := calls + [2 * votes > |panel|];
    }
  }

  const PERFECT: Profile := Profile(1.0, 1.0)

  ghost predicate PerfectPanel(panel: seq<Profile>) {
    |panel| > 0 && forall j | 0 <= j < |panel| :: panel[j] == PERFECT
  }

  lemma {:induction false} PerfectVotes(truth: bool, panel: seq<Profile>, draws: seq<real>)
    requires |panel| == |draws| && forall j | 0 <= j < |panel| :: panel[j] == PERFECT && 0.0 <= draws[j] < 1.0
    ensures Votes(truth, panel, draws) == if truth then |panel| else 0
  {
    if panel != [] {
      PerfectVotes(truth, panel[1..], draws[1..]);
    }
  }

  /** A panel of perfect raters, of any size, odd or even, returns the truth whatever it drew. */
  lemma PerfectReviewIsTruth(truth: seq<bool>, panel: seq<Profile>, draws: seq<seq<real>>)
    requires PerfectPanel(panel) && DrawsFor(|truth|, panel, draws)
    ensures Review(truth, panel, draws) == truth
  {
    forall i | 0 <= i < |truth| ensures Review(truth, panel, draws)[i] == truth[i] {
      PerfectVotes(truth[i], panel, draws[i]);
    }
  }

  // ------------------------------------------------------------------
  // Panels that err
  // ------------------------------------------------------------------

  /** Whether a rater finds a view violative: a violative one unless the draw reaches the rater's
      sensitivity, a clean one only if the draw is below its false-positive rate. */
  predicate Accuses(rater: Profile, truth: bool, draw: real) {
    if truth then draw < rater.sensitivity else draw + rater.specificity < 1.0
  }

  /** The raters, by position from k on, that find a view violative, or the ones that do not. */
  function Side(truth: bool, panel: seq<Profile>, draws: seq<real>, k: nat, accusing: bool): set<nat>
    requires |panel| == |draws|
  {
    set j: nat | k <= j < |panel| && Accuses(panel[j], truth, draws[j]) == accusing
  }

  // The rater at k joins one of the two sides.
  lemma TakesASide(truth: bool, panel: seq<Profile>, draws: seq<real>, k: nat, accusing: bool)
    requires |panel| == |draws| && k < |panel|
    ensures |Side(truth, panel, draws, k, accusing)|
         == |Side(truth, panel, draws, k + 1, accusing)| + if Accuses(panel[k], truth, draws[k]) == accusing then 1 else 0
  {
    var later := Side(truth, panel, draws, k + 1, accusing);
    assert Side(truth, panel, draws, k, accusing)
        == later + if Accuses(panel[k], truth, draws[k]) == accusing then {k} else {};
  }

  lemma {:induction false} VotesTakeSides(truth: bool, panel: seq<Profile>, draws: seq<real>, k: nat)
    requires |panel| == |draws| && k <= |panel|
    ensures Votes(truth, panel[k..], draws[k..]) == |Side(truth, panel, draws, k, true)|
    ensures |Side(truth, panel, draws, k, true)| + |Side(truth, panel, draws, k, false)| == |panel| - k
    decreases |panel| - k
  {
    if k < |panel| {
      VotesTakeSides(truth, panel, draws, k + 1);
      TakesASide(truth, panel, draws, k, true);
      TakesASide(truth, panel, draws, k, false);
      hide Side;
      assert panel[k..][1..] == panel[k + 1..] && draws[k..][1..] == draws[k + 1..];
    } else {
      assert Side(truth, panel, draws, k, true) == {} && Side(truth, panel, draws, k, false) == {};
    }
  }

  /** A view is called exactly when the raters that find it violative outnumber the others, whatever the
      panel's profiles: on a tie it stays up. */
  lemma CalledIff(truth: seq<bool>, panel: seq<Profile>, draws: seq<seq<real>>, i: nat)
    requires i < |truth| == |draws| && forall h | 0 <= h < |draws| :: |draws[h]| == |panel|
    ensures Review(truth, panel, draws)[i] <==>
              |Side(truth[i], panel, draws[i], 0, true)| > |Side(truth[i], panel, draws[i], 0, false)|
  {
    VotesTakeSides(truth[i], panel, draws[i], 0);
    assert panel[0..] == panel && draws[i][0..] == draws[i];
  }

  /** Raters that never accuse falsely call no clean view, however blind they are; raters that never miss
      call every violative one, however trigger-happy. */
  lemma OneSidedPanels(truth: seq<bool>, panel: seq<Profile>, draws: seq<seq<real>>)
    requires DrawsFor(|truth|, panel, draws)
    ensures (forall j | 0 <= j < |panel| :: panel[j].specificity == 1.0) ==>
              forall i | 0 <= i < |truth| && !truth[i] :: !Review(truth, panel, draws)[i]
    ensures |panel| > 0 && (forall j | 0 <= j < |panel| :: panel[j].sensitivity == 1.0) ==>
              forall i | 0 <= i < |truth| && truth[i] :: Review(truth, panel, draws)[i]
  {
    forall i: nat | i < |truth|
      ensures !truth[i] && (forall j | 0 <= j < |panel| :: panel[j].specificity == 1.0) ==>
                !Review(truth, panel, draws)[i]
      ensures truth[i] && |panel| > 0 && (forall j | 0 <= j < |panel| :: panel[j].sensitivity == 1.0) ==>
                Review(truth, panel, draws)[i]
    {
      CalledIff(truth, panel, draws, i);
      var yes, no := Side(truth[i], panel, draws[i], 0, true), Side(truth[i], panel, draws[i], 0, false);
      hide Review;
      if !truth[i] && forall j | 0 <= j < |panel| :: panel[j].specificity == 1.0 {
        assert yes == {};
      }
      if truth[i] && |panel| > 0 && forall j | 0 <= j < |panel| :: panel[j].sensitivity == 1.0 {
        assert no == {} && 0 in yes;
      }
    }
  }

  /** A panel that is nowhere less sensitive and nowhere less specific gets every view right that the
      other one does on the same draws. */
  lemma BetterPanelsStayRight(truth: seq<bool>, panel: seq<Profile>, better: seq<Profile>, draws: seq<seq<real>>, i: nat)
    requires |panel| == |better| && DrawsFor(|truth|, panel, draws) && i < |truth|
    requires forall j | 0 <= j < |panel| ::
               panel[j].sensitivity <= better[j].sensitivity && panel[j].specificity <= better[j].specificity
    ensures Review(truth, panel, draws)[i] == truth[i] ==> Review(truth, better, draws)[i] == truth[i]
  {
    CalledIff(truth, panel, draws, i);
    CalledIff(truth, better, draws, i);
    hide Review;
    var yes, no := Side(truth[i], panel, draws[i], 0, true), Side(truth[i], panel, draws[i], 0, false);
    var more, fewer := Side(truth[i], better, draws[i], 0, true), Side(truth[i], better, draws[i], 0, false);
    if truth[i] {
      Smaller(yes, more);
      Smaller(fewer, no);
    } else {
      Smaller(more, yes);
      Smaller(no, fewer);
    }
  }

  lemma Smaller(a: set<nat>, b: set<nat>)
    requires a <= b
    ensures |a| <= |b|
  {
    assert b == a + (b - a);
  }
}
