/** Grading two prompt versions on one label set (orchestrator/eval_labels.py) and the paired bootstrap
    on their recall difference (orchestrator/prompt_eval.py). */
module EvalMetrics {
  import opened Prelude
  import opened Sorting
  import opened Sums

  datatype ThreatClass = Benign | T01 | T02 | T03 | T04 | T05 | T06 | T07

  /** What a prompt version said about one item; None when its answer could not be parsed. */
  datatype Prediction = Prediction(itemId: string, predicted: Option<ThreatClass>)

  datatype Counts = Counts(support: nat, predicted: nat, truePositives: nat)

  datatype EvalError = UnknownItems | DifferentLengths | Misaligned(at: nat)

  type Labels = map<string, ThreatClass>

  predicate Covers(labels: Labels, predictions: seq<Prediction>) {
    forall i | 0 <= i < |predictions| :: predictions[i].itemId in labels
  }

  // ------------------------------------------------------------------
  // Per-class counts
  // ------------------------------------------------------------------

  function Support(labels: Labels, c: ThreatClass): nat { |set id | id in labels && labels[id] == c| }

  function PredictedCount(predictions: seq<Prediction>, c: ThreatClass): nat {
    if predictions == [] then 0
    else
      var last := |predictions| - 1;
      PredictedCount(predictions[..last], c) + if predictions[last].predicted == Some(c) then 1 else 0
  }

  function HitCount(labels: Labels, predictions: seq<Prediction>, c: ThreatClass): nat
    requires Covers(labels, predictions)
  {
    if predictions == [] then 0
    else
      var last := |predictions| - 1;
      HitCount(labels, predictions[..last], c)
        + if predictions[last].predicted == Some(c) && labels[predictions[last].itemId] == c then 1 else 0
  }

  /** score, for one class. */
  function Score(labels: Labels, predictions: seq<Prediction>, c: ThreatClass): Result<Counts, EvalError> {
    if !Covers(labels, predictions) then Err(UnknownItems)
    else Ok(Counts(Support(labels, c), PredictedCount(predictions, c), HitCount(labels, predictions, c)))
  }

  const THREAT_CLASSES: set<ThreatClass> := {Benign, T01, T02, T03, T04, T05, T06, T07}

  lemma EveryClassListed()
    ensures forall c: ThreatClass :: c in THREAT_CLASSES
  {
    forall c: ThreatClass ensures c in THREAT_CLASSES {
      match c {
        case Benign =>
        case T01 =>
        case T02 =>
        case T03 =>
        case T04 =>
        case T05 =>
        case T06 =>
        case T07 =>
      }
    }
  }

  function ForEveryClass<V>(v: V): (m: map<ThreatClass, V>)
    ensures forall c :: c in m && m[c] == v
  {
    EveryClassListed();
    map c | c in THREAT_CLASSES :: v
  }

  /** The grading loop: one pass over the predictions, dictionaries of counters for every class. */
  method ScoreAll(labels: Labels, predictions: seq<Prediction>)
    returns (r: Result<map<ThreatClass, Counts>, EvalError>)
    ensures r.Ok? <==> Covers(labels, predictions)
    ensures r.Ok? ==> forall c :: c in r.value && Score(labels, predictions, c) == Ok(r.value[c])
    ensures r.Err? ==> r.error == UnknownItems && forall c :: Score(labels, predictions, c) == Err(UnknownItems)
  {
    if !Covers(labels, predictions) {
      return Err(UnknownItems);
    }
    var predicted: map<ThreatClass, nat> := ForEveryClass(0);
    var hits: map<ThreatClass, nat> := ForEveryClass(0);
    for i := 0 to |predictions|
      invariant forall c :: c in predicted && predicted[c] == PredictedCount(predictions[..i], c)
      invariant forall c :: c in hits && hits[c] == HitCount(labels, predictions[..i], c)
    {
      assert predictions[..i + 1][..i] == predictions[..i];
      match predictions[i].predicted
      case None =>
      case Some(said) =>
        predicted := predicted[said := predicted[said] + 1];
        if labels[predictions[i].itemId] == said {
          hits := hits[said := hits[said] + 1];
        }
    }
    assert predictions[..|predictions|] == predictions;
    r := Ok(map c: ThreatClass | true :: Counts(Support(labels, c), predicted[c], hits[c]));
  }

  // ------------------------------------------------------------------
  // Paired correctness
  // ------------------------------------------------------------------

  type Pairs = seq<(bool, bool)>

  function Correct(labels: Labels, p: Prediction): bool
    requires p.itemId in labels
  {
    p.predicted == Some(labels[p.itemId])
  }

  /** The outcome pairs of the items that truly carry c, in prediction order. */
  function PairsFor(labels: Labels, a: seq<Prediction>, b: seq<Prediction>, c: ThreatClass): Pairs
    requires |a| == |b| && Covers(labels, a) && Covers(labels, b)
  {
    if a == [] then []
    else
      var last := |a| - 1;
      PairsFor(labels, a[..last], b[..last], c)
        + if labels[a[last].itemId] == c then [(Correct(labels, a[last]), Correct(labels, b[last]))] else []
  }

  predicate Aligned(a: seq<Prediction>, b: seq<Prediction>) {
    |a| == |b| && forall i | 0 <= i < |a| :: a[i].itemId == b[i].itemId
  }

  lemma OneMorePair(labels: Labels, a: seq<Prediction>, b: seq<Prediction>, i: nat, c: ThreatClass)
    requires i < |a| == |b| && Covers(labels, a) && Covers(labels, b)
    ensures PairsFor(labels, a[..i + 1], b[..i + 1], c)
         == PairsFor(labels, a[..i], b[..i], c)
            + if labels[a[i].itemId] == c then [(Correct(labels, a[i]), Correct(labels, b[i]))] else []
  {
    assert a[..i + 1][..i] == a[..i] && b[..i + 1][..i] == b[..i];
  }

  /** paired_class_correctness: refusals in the program's order, then the grouping loop. */
  method PairedClassCorrectness(labels: Labels, incumbent: seq<Prediction>, candidate: seq<Prediction>)
    returns (r: Result<map<ThreatClass, Pairs>, EvalError>)
    ensures r.Ok? <==> Aligned(incumbent, candidate) && Covers(labels, incumbent)
    ensures r.Ok? ==> Covers(labels, candidate) &&
                      forall c :: c in r.value && r.value[c] == PairsFor(labels, incumbent, candidate, c)
    ensures r == Err(DifferentLengths) <==> |incumbent| != |candidate|
    ensures forall k: nat :: r == Err(Misaligned(k)) ==>
              |incumbent| == |candidate| && k < |incumbent| && incumbent[k].itemId != candidate[k].itemId &&
              forall i | 0 <= i < k :: incumbent[i].itemId == candidate[i].itemId
  {
    if |incumbent| != |candidate| {
      return Err(DifferentLengths);
    }
    for i := 0 to |incumbent|
      invariant forall j | 0 <= j < i :: incumbent[j].itemId == candidate[j].itemId
    {
      if incumbent[i].itemId != candidate[i].itemId {
        return Err(Misaligned(i));
      }
    }
    if !Covers(labels, incumbent) {
      return Err(UnknownItems);
    }
    assert forall i | 0 <= i < |candidate| :: candidate[i].itemId == incumbent[i].itemId;
    var grouped: map<ThreatClass, Pairs> := ForEveryClass([]);
    for i := 0 to |incumbent|
      invariant Covers(labels, incumbent[..i]) && Covers(labels, candidate[..i])
      invariant forall c :: c in grouped && grouped[c] == PairsFor(labels, incumbent[..i], candidate[..i], c)
    {
      hide PairsFor;
      var truth := labels[incumbent[i].itemId];
      grouped := grouped[truth := grouped[truth]
        + [(incumbent[i].predicted == Some(truth), candidate[i].predicted == Some(truth))]];
      forall c ensures c in grouped && grouped[c] == PairsFor(labels, incumbent[..i + 1], candidate[..i + 1], c) {
        OneMorePair(labels, incumbent, candidate, i, c);
      }
    }
    assert incumbent[..|incumbent|] == incumbent && candidate[..|candidate|] == candidate;
    r := Ok(grouped);
  }

  // ------------------------------------------------------------------
  // Two roads to recall
  // ------------------------------------------------------------------

  /** Every labelled item answered exactly once. */
  ghost predicate CoversOnce(labels: Labels, predictions: seq<Prediction>) {
    && Covers(labels, predictions) && AnswersOnce(predictions)
    && (forall id | id in labels :: exists i :: 0 <= i < |predictions| && predictions[i].itemId == id)
  }

  function Firsts(pairs: Pairs): nat {
    if pairs == [] then 0 else Firsts(pairs[..|pairs| - 1]) + if pairs[|pairs| - 1].0 then 1 else 0
  }

  function Seconds(pairs: Pairs): nat {
    if pairs == [] then 0 else Seconds(pairs[..|pairs| - 1]) + if pairs[|pairs| - 1].1 then 1 else 0
  }

  lemma {:induction false} HitsAreColumns(labels: Labels, a: seq<Prediction>, b: seq<Prediction>, c: ThreatClass)
    requires Aligned(a, b) && Covers(labels, a) && Covers(labels, b)
    ensures Firsts(PairsFor(labels, a, b, c)) == HitCount(labels, a, c)
    ensures Seconds(PairsFor(labels, a, b, c)) == HitCount(labels, b, c)
    decreases |a|
  {
    if a != [] {
      var last := |a| - 1;
      HitsAreColumns(labels, a[..last], b[..last], c);
      var before, pairs := PairsFor(labels, a[..last], b[..last], c), PairsFor(labels, a, b, c);
      if labels[a[last].itemId] == c {
        assert pairs[..|pairs| - 1] == before;
      } else {
        assert pairs == before;
      }
    }
  }

  // The items of class c among the predictions.
  ghost function ItemsOf(labels: Labels, a: seq<Prediction>, c: ThreatClass): set<string>
    requires Covers(labels, a)
  {
    if a == [] then {}
    else
      var last := |a| - 1;
      ItemsOf(labels, a[..last], c) + if labels[a[last].itemId] == c then {a[last].itemId} else {}
  }

  lemma {:induction false} ItemsAre(labels: Labels, a: seq<Prediction>, c: ThreatClass)
    requires Covers(labels, a)
    ensures forall i | 0 <= i < |a| && labels[a[i].itemId] == c :: a[i].itemId in ItemsOf(labels, a, c)
    ensures forall x | x in ItemsOf(labels, a, c) ::
              x in labels && labels[x] == c && exists i :: 0 <= i < |a| && a[i].itemId == x
    decreases |a|
  {
    if a != [] {
      var last := |a| - 1;
      ItemsAre(labels, a[..last], c);
      forall i | 0 <= i < |a| && labels[a[i].itemId] == c ensures a[i].itemId in ItemsOf(labels, a, c) {
        assert i < last ==> a[..last][i] == a[i];
      }
    }
  }

  ghost predicate AnswersOnce(a: seq<Prediction>) {
    forall i, j | 0 <= i < j < |a| :: a[i].itemId != a[j].itemId
  }

  lemma ItemsStep(labels: Labels, a: seq<Prediction>, c: ThreatClass)
    requires Covers(labels, a) && AnswersOnce(a) && a != []
    ensures var last := |a| - 1;
            && Covers(labels, a[..last]) && AnswersOnce(a[..last])
            && |ItemsOf(labels, a, c)|
                 == |ItemsOf(labels, a[..last], c)| + if labels[a[last].itemId] == c then 1 else 0
  {
    var last := |a| - 1;
    ItemsAre(labels, a[..last], c);
    assert a[last].itemId !in ItemsOf(labels, a[..last], c);
  }

  lemma {:induction false} PairsAreItems(labels: Labels, a: seq<Prediction>, b: seq<Prediction>, c: ThreatClass)
    requires |a| == |b| && Covers(labels, a) && Covers(labels, b) && AnswersOnce(a)
    ensures |PairsFor(labels, a, b, c)| == |ItemsOf(labels, a, c)|
    decreases |a|
  {
    if a == [] {
      assert ItemsOf(labels, a, c) == {};
    } else {
      ItemsStep(labels, a, c);
      hide ItemsOf, AnswersOnce;
      PairsAreItems(labels, a[..|a| - 1], b[..|a| - 1], c);
    }
  }

  /** The two roads to recall agree: for aligned versions that answered every item once, a class's true
      positives are the column sums of its pairs, and its support is their number. */
  lemma RoadsAgree(labels: Labels, incumbent: seq<Prediction>, candidate: seq<Prediction>, c: ThreatClass)
    requires Aligned(incumbent, candidate) && CoversOnce(labels, incumbent)
    ensures Covers(labels, candidate)
    ensures var pairs := PairsFor(labels, incumbent, candidate, c);
            && Score(labels, incumbent, c).Ok? && Score(labels, candidate, c).Ok?
            && Score(labels, incumbent, c).value.truePositives == Firsts(pairs)
            && Score(labels, candidate, c).value.truePositives == Seconds(pairs)
            && Score(labels, incumbent, c).value.support == Score(labels, candidate, c).value.support == |pairs|
  {
    assert forall i | 0 <= i < |candidate| :: candidate[i].itemId == incumbent[i].itemId;
    HitsAreColumns(labels, incumbent, candidate, c);
    hide Support, ItemsOf, PairsFor, HitCount, Firsts, Seconds;
    PairsAreItems(labels, incumbent, candidate, c);
    AllItems(labels, incumbent, c);
  }

  lemma AllItems(labels: Labels, a: seq<Prediction>, c: ThreatClass)
    requires CoversOnce(labels, a)
    ensures |ItemsOf(labels, a, c)| == Support(labels, c)
  {
    ItemsAre(labels, a, c);
    var all := set id | id in labels && labels[id] == c;
    forall id | id in all ensures id in ItemsOf(labels, a, c) {
      var i :| 0 <= i < |a| && a[i].itemId == id;
    }
    assert ItemsOf(labels, a, c) == all;
  }

  lemma {:induction false} HitsWithinPredicted(labels: Labels, predictions: seq<Prediction>, c: ThreatClass)
    requires Covers(labels, predictions)
    ensures HitCount(labels, predictions, c) <= PredictedCount(predictions, c)
  {
    if predictions != [] {
      HitsWithinPredicted(labels, predictions[..|predictions| - 1], c);
    }
  }

  // Distinct hit items are items of the class.
  lemma {:induction false} HitsAreItems(labels: Labels, a: seq<Prediction>, c: ThreatClass)
    requires Covers(labels, a) && AnswersOnce(a)
    ensures HitCount(labels, a, c) <= |ItemsOf(labels, a, c)|
    decreases |a|
  {
    if a == [] {
      assert ItemsOf(labels, a, c) == {};
    } else {
      ItemsStep(labels, a, c);
      hide ItemsOf, AnswersOnce;
      HitsAreItems(labels, a[..|a| - 1], c);
    }
  }

  /** ClassCounts' own check never fires on what `score` computes when no item is answered twice: true
      positives exceed neither the predictions nor the support. */
  lemma CountsAreConsistent(labels: Labels, predictions: seq<Prediction>, c: ThreatClass)
    requires Covers(labels, predictions) && AnswersOnce(predictions)
    ensures var counts := Score(labels, predictions, c).value;
            counts.truePositives <= counts.predicted && counts.truePositives <= counts.support
  {
    HitsWithinPredicted(labels, predictions, c);
    HitsAreItems(labels, predictions, c);
    ItemsAre(labels, predictions, c);
    var mine, all := ItemsOf(labels, predictions, c), set id | id in labels && labels[id] == c;
    assert mine <= all;
    assert all == mine + (all - mine);
  }

  // ------------------------------------------------------------------
  // The paired bootstrap
  // ------------------------------------------------------------------

  function Difference(pair: (bool, bool)): int { (if pair.1 then 1 else 0) - (if pair.0 then 1 else 0) }

  function Differences(pairs: Pairs): seq<int> {
    seq(|pairs|, i requires 0 <= i < |pairs| => Difference(pairs[i]))
  }

  function Discordant(pairs: Pairs): nat {
    if pairs == [] then 0 else Discordant(pairs[..|pairs| - 1]) + if Difference(pairs[|pairs| - 1]) != 0 then 1 else 0
  }

  function Share(count: int, n: nat): real
    requires n > 0
  {
    count as real / n as real
  }

  function Mean(xs: seq<int>): real
    requires |xs| > 0
  {
    Share(Total(xs), |xs|)
  }

  lemma {:induction false} DifferencesTotal(pairs: Pairs)
    ensures Total(Differences(pairs)) == Seconds(pairs) - Firsts(pairs)
    ensures -(Discordant(pairs) as int) <= Total(Differences(pairs)) <= Discordant(pairs) <= |pairs|
  {
    if pairs == [] {
      assert Differences(pairs) == [];
    } else {
      var last := |pairs| - 1;
      DifferencesTotal(pairs[..last]);
      assert Differences(pairs) == Differences(pairs[..last]) + [Difference(pairs[last])];
      TotalAppend(Differences(pairs[..last]), [Difference(pairs[last])]);
      assert Total([Difference(pairs[last])]) == Difference(pairs[last]);
    }
  }

  /** The recall difference times the support is the difference in true positives, and no more items
      moved it than the two versions disagree on. */
  lemma DeltaIsTruePositives(pairs: Pairs)
    requires |pairs| > 0
    ensures var n, delta := |pairs|, Mean(Differences(pairs));
            && delta == Share(Seconds(pairs), n) - Share(Firsts(pairs), n)
            && Times(delta, n as real) == (Seconds(pairs) - Firsts(pairs)) as real
            && -(Discordant(pairs) as real) <= Times(delta, n as real) <= Discordant(pairs) as real
  {
    DifferencesTotal(pairs);
    hide Share, Total, Times;
    ShareDifference(Seconds(pairs), Firsts(pairs), |pairs|);
  }

  lemma ShareDifference(a: int, b: int, n: nat)
    requires n > 0
    ensures Share(a - b, n) == Share(a, n) - Share(b, n)
    ensures Times(Share(a - b, n), n as real) == (a - b) as real
  {
    var x, y, z := Share(a, n), Share(b, n), Share(a - b, n);
    assert x * n as real == a as real && y * n as real == b as real && z * n as real == (a - b) as real;
    assert (x - y - z) * n as real == 0.0;
  }

  /** What one resample of the items gives: their mean difference. */
  function Resampled(pairs: Pairs, draw: seq<nat>): real
    requires |draw| == |pairs| > 0 && forall i | 0 <= i < |draw| :: draw[i] < |pairs|
  {
    Mean(seq(|draw|, i requires 0 <= i < |draw| => Difference(pairs[draw[i]])))
  }

  /** Arbitrary draws with replacement, one row per resample. */
  ghost predicate Draws(draws: seq<seq<nat>>, support: nat) {
    |draws| > 0 &&
    forall k | 0 <= k < |draws| :: |draws[k]| == support && forall i | 0 <= i < |draws[k]| :: draws[k][i] < support
  }

  /** Linear interpolation between order statistics, at a share q of the way up. */
  function Quantile(sorted: seq<real>, q: real): real
    requires |sorted| > 0 && 0.0 <= q <= 1.0
  {
    TimesShare(q, (|sorted| - 1) as real);
    At(sorted, Times(q, (|sorted| - 1) as real))
  }

  function At(sorted: seq<real>, position: real): real
    requires |sorted| > 0 && 0.0 <= position <= (|sorted| - 1) as real
  {
    var low := position.Floor;
    if low == |sorted| - 1 then sorted[low]
    else sorted[low] + Times(position - low as real, sorted[low + 1] - sorted[low])
  }

  ghost predicate Rising(sorted: seq<real>) { forall i, j | 0 <= i < j < |sorted| :: sorted[i] <= sorted[j] }

  lemma TimesShare(share: real, width: real)
    requires width >= 0.0 && 0.0 <= share <= 1.0
    ensures 0.0 <= Times(share, width) <= width
  {
    TimesRising(0.0, share, width);
    TimesRising(share, 1.0, width);
  }

  lemma TimesRising(s: real, t: real, width: real)
    requires width >= 0.0 && s <= t
    ensures Times(s, width) <= Times(t, width)
  {
    var step := t - s;
    assert step * width >= 0.0;
    assert t * width == s * width + step * width;
  }

  lemma AtBetween(sorted: seq<real>, position: real)
    requires Rising(sorted) && |sorted| > 0 && 0.0 <= position <= (|sorted| - 1) as real
    ensures var low := position.Floor;
            && sorted[low] <= At(sorted, position)
            && At(sorted, position) <= (if low == |sorted| - 1 then sorted[low] else sorted[low + 1])
  {
    var low := position.Floor;
    if low < |sorted| - 1 {
      TimesShare(position - low as real, sorted[low + 1] - sorted[low]);
    }
  }

  lemma AtMonotone(sorted: seq<real>, p: real, q: real)
    requires Rising(sorted) && |sorted| > 0 && 0.0 <= p <= q <= (|sorted| - 1) as real
    ensures At(sorted, p) <= At(sorted, q)
  {
    AtBetween(sorted, p);
    AtBetween(sorted, q);
    var low, high := p.Floor, q.Floor;
    if low < high {
      assert low + 1 == high || sorted[low + 1] <= sorted[high];
    } else if low < |sorted| - 1 {
      TimesRising(p - low as real, q - low as real, sorted[low + 1] - sorted[low]);
    }
  }

  function Means(pairs: Pairs, draws: seq<seq<nat>>): seq<real>
    requires |pairs| > 0 && Draws(draws, |pairs|)
  {
    seq(|draws|, k requires 0 <= k < |draws| => Resampled(pairs, draws[k]))
  }

  function Ascending(xs: seq<real>): seq<real> { Sort((x: real, y: real) => x <= y, xs) }

  lemma AscendingIs(xs: seq<real>)
    ensures Rising(Ascending(xs)) && |Ascending(xs)| == |xs| && forall x :: x in Ascending(xs) <==> x in xs
    ensures multiset(Ascending(xs)) == multiset(xs)
  {
    SortKeeps((x: real, y: real) => x <= y, xs);
    forall x ensures x in Ascending(xs) <==> x in xs {
      assert x in Ascending(xs) <==> x in multiset(Ascending(xs));
      assert x in xs <==> x in multiset(xs);
    }
  }

  datatype ClassDelta = ClassDelta(support: nat, incumbentRecall: real, candidateRecall: real, delta: real,
                                   lower: real, upper: real, discordant: nat)

  /** bootstrap_delta; a class without items gets zeros and a zero-width interval. */
  function BootstrapDelta(pairs: Pairs, draws: seq<seq<nat>>, confidence: real): ClassDelta
    requires 0.0 < confidence < 1.0 && (|pairs| > 0 ==> Draws(draws, |pairs|))
  {
    if pairs == [] then ClassDelta(0, 0.0, 0.0, 0.0, 0.0, 0.0, 0)
    else
      var sorted, alpha := Ascending(Means(pairs, draws)), 1.0 - confidence;
      AscendingIs(Means(pairs, draws));
      ClassDelta(|pairs|,
        Share(Firsts(pairs), |pairs|),
        Share(Seconds(pairs), |pairs|),
        Mean(Differences(pairs)),
        Quantile(sorted, alpha / 2.0),
        Quantile(sorted, 1.0 - alpha / 2.0),
        Discordant(pairs))
  }

  lemma {:induction false} TotalBounds(xs: seq<int>, low: int, high: int)
    requires forall i | 0 <= i < |xs| :: low <= xs[i] <= high
    ensures low * |xs| <= Total(xs) <= high * |xs|
  {
    if xs != [] {
      TotalBounds(xs[1..], low, high);
    }
  }

  lemma MeanBounds(xs: seq<int>, low: int, high: int)
    requires |xs| > 0 && -1 <= low <= high <= 1 && forall i | 0 <= i < |xs| :: low <= xs[i] <= high
    ensures low as real <= Mean(xs) <= high as real
  {
    TotalBounds(xs, low, high);
    hide Total, Share;
    QuotientWithin(Total(xs), |xs|, low, high);
  }

  lemma QuotientWithin(t: int, n: nat, low: int, high: int)
    requires n > 0 && -1 <= low <= high <= 1 && low * n <= t <= high * n
    ensures low as real <= Share(t, n) <= high as real
  {
    QuotientBound(t as real, n as real, low as real);
    QuotientBound(t as real, n as real, high as real);
  }

  // Every resampled mean lies between the least and the greatest item difference.
  lemma ResampledBounds(pairs: Pairs, draws: seq<seq<nat>>, low: int, high: int)
    requires |pairs| > 0 && Draws(draws, |pairs|) && -1 <= low <= high <= 1
    requires forall i | 0 <= i < |pairs| :: low <= Difference(pairs[i]) <= high
    ensures forall k | 0 <= k < |draws| :: low as real <= Means(pairs, draws)[k] <= high as real
  {
    forall k | 0 <= k < |draws| ensures low as real <= Means(pairs, draws)[k] <= high as real {
      var draw := draws[k];
      var picked := seq(|draw|, i requires 0 <= i < |draw| => Difference(pairs[draw[i]]));
      MeanBounds(picked, low, high);
      assert Means(pairs, draws)[k] == Mean(picked);
    }
  }

  lemma QuantileBounds(sorted: seq<real>, q: real, low: real, high: real)
    requires |sorted| > 0 && Rising(sorted) && 0.0 <= q <= 1.0
    requires forall i | 0 <= i < |sorted| :: low <= sorted[i] <= high
    ensures low <= Quantile(sorted, q) <= high
  {
    TimesShare(q, (|sorted| - 1) as real);
    hide Times;
    AtBetween(sorted, Times(q, (|sorted| - 1) as real));
  }

  lemma QuantileMonotone(sorted: seq<real>, p: real, q: real)
    requires |sorted| > 0 && Rising(sorted) && 0.0 <= p <= q <= 1.0
    ensures Quantile(sorted, p) <= Quantile(sorted, q)
  {
    TimesShare(p, (|sorted| - 1) as real);
    TimesShare(q, (|sorted| - 1) as real);
    TimesRising(p, q, (|sorted| - 1) as real);
    hide Times;
    AtMonotone(sorted, Times(p, (|sorted| - 1) as real), Times(q, (|sorted| - 1) as real));
  }

  /** For every draw of the resamples the interval is ordered and lies within [low, high], when every
      item's difference does. With low -1 and high 1 that is every input; with low and high equal, all
      items moving alike, the interval collapses to that point. */
  lemma IntervalBounds(pairs: Pairs, draws: seq<seq<nat>>, confidence: real, low: int, high: int)
    requires 0.0 < confidence < 1.0 && |pairs| > 0 && Draws(draws, |pairs|) && -1 <= low <= high <= 1
    requires forall i | 0 <= i < |pairs| :: low <= Difference(pairs[i]) <= high
    ensures var d := BootstrapDelta(pairs, draws, confidence);
            low as real <= d.lower <= d.upper <= high as real && low as real <= d.delta <= high as real
  {
    var means, alpha := Means(pairs, draws), 1.0 - confidence;
    var sorted := Ascending(means);
    AscendingIs(means);
    ResampledBounds(pairs, draws, low, high);
    forall i | 0 <= i < |sorted| ensures low as real <= sorted[i] <= high as real {
      assert sorted[i] in sorted;
      var k :| 0 <= k < |means| && means[k] == sorted[i];
    }
    hide Means, Ascending, Quantile;
    QuantileBounds(sorted, alpha / 2.0, low as real, high as real);
    QuantileBounds(sorted, 1.0 - alpha / 2.0, low as real, high as real);
    QuantileMonotone(sorted, alpha / 2.0, 1.0 - alpha / 2.0);
    MeanBounds(Differences(pairs), low, high);
  }

  /** The interval always lies in [-1, 1], and is a point at the delta when all differences are equal. */
  lemma IntervalIsSound(pairs: Pairs, draws: seq<seq<nat>>, confidence: real)
    requires 0.0 < confidence < 1.0 && (|pairs| > 0 ==> Draws(draws, |pairs|))
    ensures var d := BootstrapDelta(pairs, draws, confidence);
            && -1.0 <= d.lower <= d.upper <= 1.0
            && ((forall i, j | 0 <= i < |pairs| && 0 <= j < |pairs| :: Difference(pairs[i]) == Difference(pairs[j])) ==>
                  d.lower == d.upper == d.delta)
  {
    if pairs != [] {
      IntervalBounds(pairs, draws, confidence, -1, 1);
      var d := Difference(pairs[0]);
      if forall i, j | 0 <= i < |pairs| && 0 <= j < |pairs| :: Difference(pairs[i]) == Difference(pairs[j]) {
        IntervalBounds(pairs, draws, confidence, d, d);
      }
    }
  }

  // ------------------------------------------------------------------
  // What the counts and the pairs count
  // ------------------------------------------------------------------

  /** The positions that are marked. */
  function Marked(marks: seq<bool>): set<nat> { set i: nat | i < |marks| && marks[i] }

  lemma OneMoreMark(marks: seq<bool>, b: bool)
    ensures |Marked(marks + [b])| == |Marked(marks)| + if b then 1 else 0
  {
    assert Marked(marks + [b]) == Marked(marks) + if b then {|marks|} else {};
  }

  function SaidMarks(a: seq<Prediction>, c: ThreatClass): seq<bool> {
    seq(|a|, i requires 0 <= i < |a| => a[i].predicted == Some(c))
  }

  function HitMarks(labels: Labels, a: seq<Prediction>, c: ThreatClass): seq<bool>
    requires Covers(labels, a)
  {
    seq(|a|, i requires 0 <= i < |a| => a[i].predicted == Some(c) && labels[a[i].itemId] == c)
  }

  function SplitMarks(pairs: Pairs): seq<bool> {
    seq(|pairs|, k requires 0 <= k < |pairs| => pairs[k].0 != pairs[k].1)
  }

  /** Predictions are counted by position, ... */
  lemma {:induction false} PredictedAre(a: seq<Prediction>, c: ThreatClass)
    ensures PredictedCount(a, c) == |Marked(SaidMarks(a, c))|
    decreases |a|
  {
    if a == [] {
      assert Marked([]) == {};
    } else {
      var last := |a| - 1;
      PredictedAre(a[..last], c);
      hide Marked;
      assert SaidMarks(a, c) == SaidMarks(a[..last], c) + [a[last].predicted == Some(c)];
      OneMoreMark(SaidMarks(a[..last], c), a[last].predicted == Some(c));
    }
  }

  /** ... and so are true positives. */
  lemma {:induction false} HitsAre(labels: Labels, a: seq<Prediction>, c: ThreatClass)
    requires Covers(labels, a)
    ensures HitCount(labels, a, c) == |Marked(HitMarks(labels, a, c))|
    decreases |a|
  {
    if a == [] {
      assert Marked([]) == {};
    } else {
      var last := |a| - 1;
      HitsAre(labels, a[..last], c);
      hide Marked;
      var hit := a[last].predicted == Some(c) && labels[a[last].itemId] == c;
      assert HitMarks(labels, a, c) == HitMarks(labels, a[..last], c) + [hit];
      OneMoreMark(HitMarks(labels, a[..last], c), hit);
    }
  }

  /** The positions of the items that truly carry a class, in order. */
  function PlacesOf(labels: Labels, a: seq<Prediction>, c: ThreatClass): (r: seq<nat>)
    requires Covers(labels, a)
    ensures forall k | 0 <= k < |r| :: r[k] < |a| && labels[a[r[k]].itemId] == c
    ensures forall k, m | 0 <= k < m < |r| :: r[k] < r[m]
    ensures forall i: nat | i < |a| && labels[a[i].itemId] == c :: i in r
  {
    if a == [] then []
    else
      var last := |a| - 1;
      PlacesOf(labels, a[..last], c) + if labels[a[last].itemId] == c then [last] else []
  }

  /** One pair for each of those items, in their order: whether each version named the item's own class. */
  lemma {:induction false} PairsAreOutcomes(labels: Labels, a: seq<Prediction>, b: seq<Prediction>, c: ThreatClass)
    requires |a| == |b| && Covers(labels, a) && Covers(labels, b)
    ensures var pairs, places := PairsFor(labels, a, b, c), PlacesOf(labels, a, c);
            && |pairs| == |places|
            && forall k | 0 <= k < |pairs| ::
                 var i := places[k];
                 pairs[k] == (a[i].predicted == Some(labels[a[i].itemId]), b[i].predicted == Some(labels[b[i].itemId]))
    decreases |a|
  {
    if a != [] {
      var last := |a| - 1;
      PairsAreOutcomes(labels, a[..last], b[..last], c);
      var pairs, places := PairsFor(labels, a, b, c), PlacesOf(labels, a, c);
      forall k | 0 <= k < |pairs|
        ensures var i := places[k];
                pairs[k] == (a[i].predicted == Some(labels[a[i].itemId]), b[i].predicted == Some(labels[b[i].itemId]))
      {
        if k < |PlacesOf(labels, a[..last], c)| {
          assert a[..last][places[k]] == a[places[k]] && b[..last][places[k]] == b[places[k]];
        }
      }
    }
  }

  lemma {:induction false} DiscordantAre(pairs: Pairs)
    ensures Discordant(pairs) == |Marked(SplitMarks(pairs))|
  {
    if pairs == [] {
      assert Marked([]) == {};
    } else {
      var last := |pairs| - 1;
      DiscordantAre(pairs[..last]);
      assert SplitMarks(pairs) == SplitMarks(pairs[..last]) + [pairs[last].0 != pairs[last].1];
      OneMoreMark(SplitMarks(pairs[..last]), pairs[last].0 != pairs[last].1);
    }
  }

  /** What the report says of a class is what grading says: for aligned versions that answered every item once,
      the two recalls are true positives over support, the delta their difference, and the discordant items
      are counted where exactly one version was right. */
  lemma ReportIsGrading(labels: Labels, incumbent: seq<Prediction>, candidate: seq<Prediction>, c: ThreatClass,
                        draws: seq<seq<nat>>, confidence: real)
    requires Aligned(incumbent, candidate) && CoversOnce(labels, incumbent) && 0.0 < confidence < 1.0
    requires Covers(labels, candidate)
    requires var pairs := PairsFor(labels, incumbent, candidate, c); |pairs| > 0 ==> Draws(draws, |pairs|)
    ensures var pairs := PairsFor(labels, incumbent, candidate, c);
            var d := BootstrapDelta(pairs, draws, confidence);
            var (x, y) := (Score(labels, incumbent, c).value, Score(labels, candidate, c).value);
            && d.support == x.support == y.support
            && (d.support > 0 ==>
                  && d.incumbentRecall == Share(x.truePositives, x.support)
                  && d.candidateRecall == Share(y.truePositives, y.support)
                  && d.delta == d.candidateRecall - d.incumbentRecall)
            && (d.support == 0 ==> d == ClassDelta(0, 0.0, 0.0, 0.0, 0.0, 0.0, 0))
            && d.discordant == |Marked(SplitMarks(pairs))|
  {
    var pairs := PairsFor(labels, incumbent, candidate, c);
    RoadsAgree(labels, incumbent, candidate, c);
    DiscordantAre(pairs);
    hide PairsFor, Score, Quantile, Means, Firsts, Seconds, Share, CoversOnce, Draws, Marked;
    if pairs != [] {
      DeltaIsTruePositives(pairs);
    }
  }

  // ------------------------------------------------------------------
  // What a resample and a percentile are
  // ------------------------------------------------------------------

  function Drawn(pairs: Pairs, draw: seq<nat>): Pairs
    requires forall i | 0 <= i < |draw| :: draw[i] < |pairs|
  {
    seq(|draw|, i requires 0 <= i < |draw| => pairs[draw[i]])
  }

  /** A resample's number is the difference of the two recalls on the items drawn; drawing every item once gives
      the delta itself. */
  lemma ResampleIsRecallDifference(pairs: Pairs, draw: seq<nat>)
    requires |draw| == |pairs| > 0 && forall i | 0 <= i < |draw| :: draw[i] < |pairs|
    ensures var items, n := Drawn(pairs, draw), |pairs|;
            Resampled(pairs, draw) == Share(Seconds(items), n) - Share(Firsts(items), n)
    ensures (forall i | 0 <= i < |draw| :: draw[i] == i) ==> Resampled(pairs, draw) == Mean(Differences(pairs))
  {
    var items := Drawn(pairs, draw);
    assert Differences(items) == seq(|draw|, i requires 0 <= i < |draw| => Difference(pairs[draw[i]]));
    DeltaIsTruePositives(items);
    if forall i | 0 <= i < |draw| :: draw[i] == i {
      assert items == pairs;
    }
  }

  /** At a position between two order statistics the quantile lies on the line between them. */
  lemma QuantileInterpolates(sorted: seq<real>, k: nat, share: real)
    requires k < |sorted| && 0.0 <= share <= 1.0 && (k == |sorted| - 1 ==> share == 0.0)
    ensures At(sorted, k as real + share)
         == if k == |sorted| - 1 then sorted[k] else Times(1.0 - share, sorted[k]) + Times(share, sorted[k + 1])
  {
    var position := k as real + share;
    if k < |sorted| - 1 {
      if share == 1.0 {
        assert position == (k + 1) as real && position.Floor == k + 1;
        OnTheLine(sorted[k], sorted[k + 1], 1.0);
        if k + 1 < |sorted| - 1 {
          OnTheLine(sorted[k + 1], sorted[k + 2], 0.0);
        }
      } else {
        assert position.Floor == k;
        OnTheLine(sorted[k], sorted[k + 1], share);
      }
    }
  }

  lemma OnTheLine(x: real, y: real, share: real)
    ensures x + Times(share, y - x) == Times(1.0 - share, x) + Times(share, y)
  {
  }

  /** How many values lie below a bound, and how many do not exceed it. */
  function Below(xs: seq<real>, v: real): nat {
    |Marked(seq(|xs|, i requires 0 <= i < |xs| => xs[i] < v))|
  }

  function UpTo(xs: seq<real>, v: real): nat {
    |Marked(seq(|xs|, i requires 0 <= i < |xs| => xs[i] <= v))|
  }

  lemma {:induction false} MarkedBounds(marks: seq<bool>, n: nat)
    requires n <= |marks|
    ensures (forall i | n <= i < |marks| :: !marks[i]) ==> |Marked(marks)| <= n
    ensures (forall i | 0 <= i < n :: marks[i]) ==> n <= |Marked(marks)|
  {
    if marks == [] {
      assert Marked(marks) == {};
    } else {
      var last := |marks| - 1;
      OneMoreMark(marks[..last], marks[last]);
      assert marks == marks[..last] + [marks[last]];
      hide Marked;
      MarkedBounds(marks[..last], if n > last then last else n);
    }
  }

  /** What makes a value the quantile at a share: of n values, no more than its rank lie below it and no fewer
      do not exceed it, the rank being one more than the whole part of that share of n - 1. */
  lemma QuantileRank(sorted: seq<real>, q: real)
    requires |sorted| > 0 && Rising(sorted) && 0.0 <= q <= 1.0
    ensures var rank := Times(q, (|sorted| - 1) as real).Floor + 1;
            Below(sorted, Quantile(sorted, q)) <= rank <= UpTo(sorted, Quantile(sorted, q))
  {
    TimesShare(q, (|sorted| - 1) as real);
    var position := Times(q, (|sorted| - 1) as real);
    hide Times;
    var low, v := position.Floor, Quantile(sorted, q);
    AtBetween(sorted, position);
    hide Quantile, At;
    MarkedBounds(seq(|sorted|, i requires 0 <= i < |sorted| => sorted[i] < v), low + 1);
    MarkedBounds(seq(|sorted|, i requires 0 <= i < |sorted| => sorted[i] <= v), low + 1);
  }

  /** What the confidence level means, for the n resampled differences in ascending order: no more than the part
      (1 - confidence) / 2 of n - 1, and one, lie below the interval's lower end, and no fewer do not exceed it;
      and likewise for the upper end with the part that is left. */
  lemma IntervalIsPercentile(pairs: Pairs, draws: seq<seq<nat>>, confidence: real)
    requires 0.0 < confidence < 1.0 && |pairs| > 0 && Draws(draws, |pairs|)
    ensures var d, sorted := BootstrapDelta(pairs, draws, confidence), Ascending(Means(pairs, draws));
            var tail, width := (1.0 - confidence) / 2.0, (|draws| - 1) as real;
            && Rising(sorted) && multiset(sorted) == multiset(Means(pairs, draws))
            && Below(sorted, d.lower) <= Times(tail, width).Floor + 1 <= UpTo(sorted, d.lower)
            && Below(sorted, d.upper) <= Times(1.0 - tail, width).Floor + 1 <= UpTo(sorted, d.upper)
  {
    var means := Means(pairs, draws);
    AscendingIs(means);
    hide Quantile, Below, UpTo, Means, Times, Ascending;
    QuantileRank(Ascending(means), (1.0 - confidence) / 2.0);
    QuantileRank(Ascending(means), 1.0 - (1.0 - confidence) / 2.0);
  }

  /** Asking for more confidence never narrows the interval. */
  lemma MoreConfidenceIsWider(pairs: Pairs, draws: seq<seq<nat>>, confidence: real, more: real)
    requires 0.0 < confidence <= more < 1.0 && |pairs| > 0 && Draws(draws, |pairs|)
    ensures var d, e := BootstrapDelta(pairs, draws, confidence), BootstrapDelta(pairs, draws, more);
            e.lower <= d.lower && d.upper <= e.upper && e.delta == d.delta
  {
    var sorted := Ascending(Means(pairs, draws));
    AscendingIs(Means(pairs, draws));
    hide Quantile, Ascending, Means;
    QuantileMonotone(sorted, (1.0 - more) / 2.0, (1.0 - confidence) / 2.0);
    QuantileMonotone(sorted, 1.0 - (1.0 - confidence) / 2.0, 1.0 - (1.0 - more) / 2.0);
  }
}
