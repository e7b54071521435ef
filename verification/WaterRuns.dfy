/** One round decides which side a run of the filling can pin on: a run whose first round breaks bounds
    on one side only never pins on the other. */
module WaterRuns {
  import opened Prelude
  import opened Sums
  import opened WaterFilling
  import opened WaterLevels

  // The keys the loop shares by are all positive.
  ghost predicate FreeKeysHold(p: Problem, marks: Marks)
    requires Fits(p, marks)
  {
    forall h | 0 <= h < |marks| && marks[h] == Free :: p.keys[h] > 0.0
  }

  lemma PositiveKeysSum(p: Problem, marks: Marks)
    requires Fits(p, marks) && FreeKeysHold(p, marks) && FreeCount(marks) > 0
    ensures Sum(FreeKeys(p, marks)) > 0.0
  {
    var zeros := seq(|marks|, h requires 0 <= h < |marks| => 0.0);
    FreeCountPositive(marks);
    var f :| 0 <= f < |marks| && marks[f] == Free;
    assert zeros[f] < FreeKeys(p, marks)[f];
    SumLe(zeros, FreeKeys(p, marks));
    ZeroSum(zeros);
  }

  lemma NothingDue(p: Problem, level: real, h: nat)
    requires h < |p.keys| && p.keys[h] == 0.0
    ensures Due(p, level, h) == 0.0
  {
  }

  // A stratum without a key gets nothing, which is below any positive minimum.
  lemma KeylessArePinned(p: Problem, marks: Marks, h: nat)
    requires WellPosed(p) && Shaped(p, marks) && p.minimum >= 1 && FreeCount(marks) > 0
    requires Sum(FreeKeys(p, marks)) > 0.0 && h < |marks| && marks[h] == Free
    ensures Round(p, marks)[h] == Free ==> p.keys[h] > 0.0
  {
    hide Sum, FreeKeys, Level, Target, Due;
    TargetIsLevel(p, marks, h);
    assert marks[h] != Empty && p.sizes[h] > 0 && Low(p, h) >= 1;
    assert Round(p, marks)[h] == NextMark(p, marks, h);
    if p.keys[h] == 0.0 {
      NothingDue(p, Level(p, marks), h);
    }
  }

  lemma RoundHoldsKeys(p: Problem, marks: Marks)
    requires WellPosed(p) && Shaped(p, marks) && p.minimum >= 1 && FreeCount(marks) > 0
    requires Sum(FreeKeys(p, marks)) > 0.0
    ensures FreeKeysHold(p, Round(p, marks))
  {
    forall h: nat | h < |marks| && Round(p, marks)[h] == Free ensures p.keys[h] > 0.0 {
      KeylessArePinned(p, marks, h);
    }
  }

  // What a stratum that stays free meets at the level that kept it free.
  lemma StaysWithin(p: Problem, marks: Marks, h: nat)
    requires Fits(p, marks) && FreeCount(marks) > 0 && Sum(FreeKeys(p, marks)) > 0.0
    requires h < |marks| && Round(p, marks)[h] == Free
    ensures Low(p, h) as real <= Due(p, Level(p, marks), h) <= p.sizes[h] as real
  {
    hide Sum, FreeKeys, Level, Target, Due;
    TargetIsLevel(p, marks, h);
  }

  lemma DueFollowsLevel(p: Problem, a: real, b: real, h: nat)
    requires WellPosed(p) && h < |p.keys| && a <= b
    ensures Due(p, a, h) <= Due(p, b, h)
  {
    ScaleLe(a, b, p.keys[h]);
  }

  // If the level did not rise, nobody who stayed free is capped next; if it did not fall, nobody is floored.
  lemma NextRoundKeepsSide(p: Problem, marks: Marks)
    requires WellPosed(p) && Fits(p, marks) && FreeCount(marks) > 0 && Sum(FreeKeys(p, marks)) > 0.0
    requires FreeCount(Round(p, marks)) > 0 && Sum(FreeKeys(p, Round(p, marks))) > 0.0
    ensures NoCap(Round(p, marks)) ==> NoCap(Round(p, Round(p, marks)))
    ensures NoMin(Round(p, marks)) ==> NoMin(Round(p, Round(p, marks)))
  {
    LevelMoves(p, marks);
    var next := Round(p, marks);
    forall h: nat | h < |marks|
      ensures NoCap(next) ==> Round(p, next)[h] != AtCap
      ensures NoMin(next) ==> Round(p, next)[h] != AtMin
    {
      assert next[h] in next;
      if next[h] == Free {
        StaysWithin(p, marks, h);
        hide Sum, FreeKeys, Level, Target, Due, NoCap, NoMin;
        TargetIsLevel(p, next, h);
        if NoCap(next) {
          DueFollowsLevel(p, Level(p, next), Level(p, marks), h);
        }
        if NoMin(next) {
          DueFollowsLevel(p, Level(p, marks), Level(p, next), h);
        }
      }
    }
  }

  lemma {:induction false} OneSideThroughout(p: Problem, marks: Marks)
    requires WellPosed(p) && Shaped(p, marks) && Feasible(p) && p.minimum >= 1 && FreeCount(marks) > 0
    requires Sum(FreeKeys(p, marks)) > 0.0
    requires NoCap(Round(p, marks)) || NoMin(Round(p, marks))
    ensures Fits(p, Fill(p, marks)) && FreeCount(Fill(p, marks)) > 0
    decreases FreeCount(marks)
  {
    RoundShrinks(p, marks);
    var next := Round(p, marks);
    if next != marks {
      OneSidedRoundLeavesFree(p, marks);
      RoundHoldsKeys(p, marks);
      PositiveKeysSum(p, next);
      hide Sum, FreeKeys, NoCap, NoMin;
      NextRoundKeepsSide(p, marks);
      OneSideThroughout(p, next);
    }
  }

  // ------------------------------------------------------------------
  // No keys at all
  // ------------------------------------------------------------------

  /** The same problem with every key one. */
  function Even(p: Problem): Problem {
    p.(keys := seq(|p.sizes|, _ => 1.0))
  }

  lemma EvenTargets(p: Problem, marks: Marks, h: nat)
    requires Fits(p, marks) && FreeCount(marks) > 0 && Sum(FreeKeys(p, marks)) <= 0.0 && h < |marks|
    ensures Fits(Even(p), marks) && Sum(FreeKeys(Even(p), marks)) > 0.0
    ensures Target(Even(p), marks, h) == Target(p, marks, h)
  {
    EvenSums(p, marks);
    hide Sum, FreeKeys, FreeCount, Remaining;
    OneTimes(Remaining(p, marks), FreeCount(marks) as real);
  }

  lemma EvenSums(p: Problem, marks: Marks)
    requires Fits(p, marks)
    ensures Fits(Even(p), marks) && Sum(FreeKeys(Even(p), marks)) == FreeCount(marks) as real
    ensures Remaining(Even(p), marks) == Remaining(p, marks)
  {
    FreeOnesCount(marks);
    hide Sum, FreeCount, Total;
    assert FreeKeys(Even(p), marks) == FreeOnes(marks);
    assert Pinned(Even(p), marks) == Pinned(p, marks);
  }

  lemma OneTimes(a: real, b: real)
    requires b > 0.0
    ensures a * 1.0 / b == a / b
  {
  }

  lemma EvenRound(p: Problem, marks: Marks)
    requires Fits(p, marks) && FreeCount(marks) > 0 && Sum(FreeKeys(p, marks)) <= 0.0
    ensures Fits(Even(p), marks) && Round(Even(p), marks) == Round(p, marks)
  {
    forall h: nat | h < |marks| ensures NextMark(Even(p), marks, h) == NextMark(p, marks, h) {
      EvenTargets(p, marks, h);
      hide Target, Sum, FreeKeys, FreeCount;
    }
  }

  lemma {:induction false} EvenFill(p: Problem, marks: Marks)
    requires WellPosed(p) && Fits(p, marks) && Sum(FreeKeys(p, marks)) <= 0.0
    ensures Fits(Even(p), marks) && Fill(Even(p), marks) == Fill(p, marks)
    decreases FreeCount(marks)
  {
    RoundShrinks(p, marks);
    if FreeCount(marks) > 0 {
      EvenRound(p, marks);
      if Round(p, marks) != marks {
        KeysShrink(p, marks, Round(p, marks));
        EvenFill(p, Round(p, marks));
      }
    }
  }

  /** A first round that caps nobody, or floors nobody, leaves something free at the end. */
  lemma FirstRoundLeavesFree(p: Problem)
    requires WellPosed(p) && Feasible(p) && p.minimum >= 1 && exists h :: 0 <= h < |p.sizes| && p.sizes[h] > 0
    requires NoCap(Round(p, Start(p))) || NoMin(Round(p, Start(p)))
    ensures Fits(p, Fill(p, Start(p))) && FreeCount(Fill(p, Start(p))) > 0
  {
    StartFacts(p);
    if Sum(FreeKeys(p, Start(p))) > 0.0 {
      OneSideThroughout(p, Start(p));
    } else {
      var q := Even(p);
      EvenRound(p, Start(p));
      EvenFill(p, Start(p));
      assert Start(q) == Start(p) && Lows(q) == Lows(p) && Caps(q) == Caps(p);
      StartFacts(q);
      EvenTargets(p, Start(p), 0);
      OneSideThroughout(q, Start(p));
    }
  }
}
