/** What the filling computes when its pins are all on one side, and when they must be. */
module WaterLevels {
  import opened Prelude
  import opened Sums
  import opened WaterFilling

  predicate NoCap(marks: Marks) { AtCap !in marks }

  predicate NoMin(marks: Marks) { AtMin !in marks }

  // A stratum is out of the problem exactly when it is empty.
  ghost predicate Shaped(p: Problem, marks: Marks) {
    Fits(p, marks) && forall h | 0 <= h < |marks| :: marks[h] == Empty <==> p.sizes[h] == 0
  }

  function Lows(p: Problem): seq<int> {
    seq(|p.sizes|, h requires 0 <= h < |p.sizes| => if p.sizes[h] > 0 then Low(p, h) else 0)
  }

  function Caps(p: Problem): seq<int> {
    seq(|p.sizes|, h requires 0 <= h < |p.sizes| => p.sizes[h])
  }

  /** The two refusals the allocator makes: more than there is, or less than the minimums need. */
  predicate Feasible(p: Problem) {
    Total(Lows(p)) <= p.total <= Total(Caps(p))
  }

  // If every share is on one side of some bounds, the total is on that side of their sum.
  lemma UniformPins(p: Problem, marks: Marks, bounds: seq<int>)
    requires WellPosed(p) && Fits(p, marks) && FreeCount(marks) > 0 && |bounds| == |marks|
    requires forall h | 0 <= h < |marks| && marks[h] != Free :: Pinned(p, marks)[h] == bounds[h]
    ensures (forall h | 0 <= h < |marks| && marks[h] == Free :: Target(p, marks, h) < bounds[h] as real) ==>
              p.total < Total(bounds)
    ensures (forall h | 0 <= h < |marks| && marks[h] == Free :: Target(p, marks, h) > bounds[h] as real) ==>
              p.total > Total(bounds)
  {
    SharesAddUp(p, marks);
    SumOfInts(bounds, Reals(bounds));
    FreeCountPositive(marks);
    var f :| 0 <= f < |marks| && marks[f] == Free;
    if forall h | 0 <= h < |marks| && marks[h] == Free :: Target(p, marks, h) < bounds[h] as real {
      assert Shares(p, marks)[f] < Reals(bounds)[f];
      SumLe(Shares(p, marks), Reals(bounds));
    }
    if forall h | 0 <= h < |marks| && marks[h] == Free :: Target(p, marks, h) > bounds[h] as real {
      assert Reals(bounds)[f] < Shares(p, marks)[f];
      SumLe(Reals(bounds), Shares(p, marks));
    }
  }

  // A round that pins on one side only cannot pin everything.
  lemma OneSidedRoundLeavesFree(p: Problem, marks: Marks)
    requires WellPosed(p) && Shaped(p, marks) && Feasible(p) && FreeCount(marks) > 0
    requires NoCap(Round(p, marks)) || NoMin(Round(p, marks))
    ensures FreeCount(Round(p, marks)) > 0 && Shaped(p, Round(p, marks))
  {
    var next := Round(p, marks);
    if FreeCount(next) == 0 {
      FreeCountPositive(next);
      forall h | 0 <= h < |marks|
        ensures marks[h] != Free ==> next[h] == marks[h]
        ensures next[h] != Free
      {
      }
      if NoCap(next) {
        UniformPins(p, marks, Lows(p));
      } else {
        UniformPins(p, marks, Caps(p));
      }
      assert false;
    }
  }

  lemma {:induction false} OneSidedFillLeavesFree(p: Problem, marks: Marks)
    requires WellPosed(p) && Shaped(p, marks) && Feasible(p) && FreeCount(marks) > 0
    requires NoCap(Fill(p, marks)) || NoMin(Fill(p, marks))
    ensures FreeCount(Fill(p, marks)) > 0
    decreases FreeCount(marks)
  {
    RoundShrinks(p, marks);
    var next := Round(p, marks);
    if next != marks {
      FillSettles(p, next);
      PinsPersist(next, Fill(p, next));
      OneSidedRoundLeavesFree(p, marks);
      OneSidedFillLeavesFree(p, next);
    }
  }

  lemma PinsPersist(a: Marks, b: Marks)
    requires Follows(a, b)
    ensures NoCap(b) ==> NoCap(a)
    ensures NoMin(b) ==> NoMin(a)
  {
    if AtCap in a {
      var h :| 0 <= h < |a| && a[h] == AtCap;
      assert b[h] == AtCap;
    }
    if AtMin in a {
      var h :| 0 <= h < |a| && a[h] == AtMin;
      assert b[h] == AtMin;
    }
  }

  // ------------------------------------------------------------------
  // The level
  // ------------------------------------------------------------------

  // The keys still sharing only ever become fewer.
  lemma KeysShrink(p: Problem, a: Marks, b: Marks)
    requires WellPosed(p) && Fits(p, a) && Follows(a, b)
    ensures Sum(FreeKeys(p, b)) <= Sum(FreeKeys(p, a))
  {
    SumLe(FreeKeys(p, b), FreeKeys(p, a));
  }

  /** What is left per unit of key. */
  function Level(p: Problem, marks: Marks): real
    requires Fits(p, marks) && Sum(FreeKeys(p, marks)) > 0.0
  {
    Remaining(p, marks) / Sum(FreeKeys(p, marks))
  }

  /** What a level gives a stratum. */
  function Due(p: Problem, level: real, h: nat): real
    requires h < |p.keys|
  {
    level * p.keys[h]
  }

  lemma TargetIsLevel(p: Problem, marks: Marks, h: nat)
    requires Fits(p, marks) && Sum(FreeKeys(p, marks)) > 0.0 && FreeCount(marks) > 0 && h < |marks|
    ensures Target(p, marks, h) == Due(p, Level(p, marks), h)
  {
    hide Remaining, FreeKeys, Sum;
    ShareOfKey(Remaining(p, marks), p.keys[h], Sum(FreeKeys(p, marks)));
  }

  /** What a level draws from all the free strata together. */
  function Drawn(p: Problem, marks: Marks, level: real): real
    requires Fits(p, marks)
  {
    Times(level, Sum(FreeKeys(p, marks)))
  }

  lemma LevelTimesKeys(p: Problem, marks: Marks)
    requires Fits(p, marks) && Sum(FreeKeys(p, marks)) > 0.0
    ensures Drawn(p, marks, Level(p, marks)) == Remaining(p, marks)
  {
    hide Sum, Remaining, FreeKeys;
  }

  // Cut loose from the rounds: what is left against a level, once the sums are known.
  lemma LevelAgainst(p: Problem, marks: Marks, level: real)
    requires Fits(p, marks) && Sum(FreeKeys(p, marks)) > 0.0
    ensures Remaining(p, marks) <= Drawn(p, marks, level) ==> Level(p, marks) <= level
    ensures Remaining(p, marks) >= Drawn(p, marks, level) ==> Level(p, marks) >= level
  {
    hide Sum, Remaining, FreeKeys;
    QuotientBound(Remaining(p, marks), Sum(FreeKeys(p, marks)), level);
  }

  lemma ScaleLe(a: real, b: real, key: real)
    requires a <= b && key >= 0.0
    ensures a * key <= b * key
  {
    assert (b - a) * key >= 0.0;
  }

  // The pins, and a level's worth of every free key.
  function At(p: Problem, marks: Marks, level: real): seq<real>
    requires Fits(p, marks)
  {
    seq(|marks|, h requires 0 <= h < |marks| =>
      if marks[h] == Free then Due(p, level, h) else Pinned(p, marks)[h] as real)
  }

  lemma AtSum(p: Problem, marks: Marks, level: real)
    requires Fits(p, marks)
    ensures Sum(At(p, marks, level)) == p.total as real - Remaining(p, marks) + Drawn(p, marks, level)
  {
    hide Sum, Total;
    var keys := FreeKeys(p, marks);
    var scaled := Scaled(level, keys);
    SumScaled(level, keys);
    var pinned := Pinned(p, marks);
    SumOfInts(pinned, Reals(pinned));
    forall h | 0 <= h < |marks| ensures At(p, marks, level)[h] == Reals(pinned)[h] + scaled[h] {
      AtSplits(p, marks, level, h);
    }
    SumAdd(Reals(pinned), scaled, At(p, marks, level));
  }

  lemma AtSplits(p: Problem, marks: Marks, level: real, h: nat)
    requires Fits(p, marks) && h < |marks|
    ensures At(p, marks, level)[h] == Reals(Pinned(p, marks))[h] + Scaled(level, FreeKeys(p, marks))[h]
  {
    if marks[h] != Free {
      assert FreeKeys(p, marks)[h] == 0.0;
    }
  }

  // `next` pins, against one level, only strata that break their bound at it.
  ghost predicate Crosses(p: Problem, marks: Marks, next: Marks, level: real)
    requires Fits(p, marks)
  {
    && Follows(marks, next)
    && forall h | 0 <= h < |marks| && marks[h] == Free ::
         && next[h] != Empty
         && (next[h] == AtMin ==> Due(p, level, h) <= Low(p, h) as real)
         && (next[h] == AtCap ==> Due(p, level, h) >= p.sizes[h] as real)
  }

  lemma RoundCrosses(p: Problem, marks: Marks)
    requires Fits(p, marks) && FreeCount(marks) > 0 && Sum(FreeKeys(p, marks)) > 0.0
    ensures Crosses(p, marks, Round(p, marks), Level(p, marks))
  {
    hide Target, Level, Sum, FreeKeys, Low, Due;
    forall h | 0 <= h < |marks| && marks[h] == Free
      ensures NextMark(p, marks, h) == Round(p, marks)[h] && Target(p, marks, h) == Due(p, Level(p, marks), h)
    {
      TargetIsLevel(p, marks, h);
    }
  }

  lemma CrossingSums(p: Problem, marks: Marks, next: Marks, level: real)
    requires Fits(p, marks) && Crosses(p, marks, next, level)
    ensures NoCap(next) ==> Sum(At(p, marks, level)) <= Sum(At(p, next, level))
    ensures NoMin(next) ==> Sum(At(p, next, level)) <= Sum(At(p, marks, level))
  {
    hide Sum, Due;
    forall h | 0 <= h < |marks|
      ensures NoCap(next) ==> At(p, marks, level)[h] <= At(p, next, level)[h]
      ensures NoMin(next) ==> At(p, next, level)[h] <= At(p, marks, level)[h]
    {
      assert next[h] in next;
    }
    if NoCap(next) {
      SumLe(At(p, marks, level), At(p, next, level));
    }
    if NoMin(next) {
      SumLe(At(p, next, level), At(p, marks, level));
    }
  }

  /** Pinning at minimums lowers the level for the rest; pinning at caps raises it. */
  lemma LevelMoves(p: Problem, marks: Marks)
    requires Fits(p, marks) && FreeCount(marks) > 0 && Sum(FreeKeys(p, marks)) > 0.0
    requires Sum(FreeKeys(p, Round(p, marks))) > 0.0
    ensures NoCap(Round(p, marks)) ==> Level(p, Round(p, marks)) <= Level(p, marks)
    ensures NoMin(Round(p, marks)) ==> Level(p, Round(p, marks)) >= Level(p, marks)
  {
    RoundCrosses(p, marks);
    hide Sum, Level, Remaining, FreeKeys, At, NextMark, Crosses, NoCap, NoMin, Due, Drawn;
    var next, level := Round(p, marks), Level(p, marks);
    AtSum(p, marks, level);
    AtSum(p, next, level);
    LevelTimesKeys(p, marks);
    CrossingSums(p, marks, next, level);
    LevelAgainst(p, next, level);
  }

  // Every pinned stratum breaks its bound, or just meets it, at the given level.
  ghost predicate PinsHold(p: Problem, marks: Marks, level: real)
    requires Fits(p, marks)
  {
    && (forall h | 0 <= h < |marks| && marks[h] == AtMin :: Due(p, level, h) <= Low(p, h) as real)
    && (forall h | 0 <= h < |marks| && marks[h] == AtCap :: Due(p, level, h) >= p.sizes[h] as real)
  }

  lemma PinsFollowLevel(p: Problem, marks: Marks, level: real, moved: real)
    requires WellPosed(p) && Fits(p, marks) && PinsHold(p, marks, level)
    requires (NoCap(marks) && moved <= level) || (NoMin(marks) && moved >= level)
    ensures PinsHold(p, marks, moved)
  {
    forall h | 0 <= h < |marks| && marks[h] in {AtMin, AtCap}
      ensures moved <= level ==> Due(p, moved, h) <= Due(p, level, h)
      ensures moved >= level ==> Due(p, moved, h) >= Due(p, level, h)
      ensures marks[h] in marks
    {
      if moved <= level {
        ScaleLe(moved, level, p.keys[h]);
      }
      if level <= moved {
        ScaleLe(level, moved, p.keys[h]);
      }
    }
  }

  lemma RoundKeepsPins(p: Problem, marks: Marks)
    requires WellPosed(p) && Fits(p, marks) && FreeCount(marks) > 0
    requires Sum(FreeKeys(p, marks)) > 0.0 && Sum(FreeKeys(p, Round(p, marks))) > 0.0
    requires NoCap(Round(p, marks)) || NoMin(Round(p, marks))
    requires PinsHold(p, marks, Level(p, marks))
    ensures PinsHold(p, Round(p, marks), Level(p, Round(p, marks)))
  {
    hide Sum, Level, FreeKeys, NextMark, NoCap, NoMin, Due;
    LevelMoves(p, marks);
    RoundCrosses(p, marks);
    var next, level := Round(p, marks), Level(p, marks);
    forall h | 0 <= h < |marks| && next[h] in {AtMin, AtCap}
      ensures next[h] == AtMin ==> Due(p, level, h) <= Low(p, h) as real
      ensures next[h] == AtCap ==> Due(p, level, h) >= p.sizes[h] as real
    {
      assert marks[h] == Free || marks[h] == next[h];
    }
    PinsFollowLevel(p, next, level, Level(p, next));
  }

  lemma {:induction false} OneSidedFillHolds(p: Problem, marks: Marks)
    requires WellPosed(p) && Fits(p, marks) && FreeCount(marks) > 0
    requires Fits(p, Fill(p, marks)) && Sum(FreeKeys(p, Fill(p, marks))) > 0.0
    requires NoCap(Fill(p, marks)) || NoMin(Fill(p, marks))
    requires Sum(FreeKeys(p, marks)) > 0.0 && PinsHold(p, marks, Level(p, marks))
    ensures PinsHold(p, Fill(p, marks), Level(p, Fill(p, marks)))
    decreases FreeCount(marks)
  {
    RoundShrinks(p, marks);
    var next := Round(p, marks);
    if next != marks {
      FillSettles(p, next);
      PinsPersist(next, Fill(p, next));
      KeysShrink(p, next, Fill(p, next));
      RoundKeepsPins(p, marks);
      if FreeCount(next) > 0 {
        OneSidedFillHolds(p, next);
      }
    }
  }

  /** What a level gives a stratum, cut off at the stratum's own bounds. */
  function Clamped(p: Problem, level: real, h: nat): real
    requires h < |p.keys| == |p.sizes|
  {
    var due, low, high := Due(p, level, h), Low(p, h) as real, p.sizes[h] as real;
    if due > high then high else if due < low then low else due
  }

  lemma StartFacts(p: Problem)
    requires WellPosed(p)
    ensures Shaped(p, Start(p)) && NoCap(Start(p)) && NoMin(Start(p))
    ensures (exists h :: 0 <= h < |p.sizes| && p.sizes[h] > 0) ==> FreeCount(Start(p)) > 0
  {
    FreeCountPositive(Start(p));
    if h :| 0 <= h < |p.sizes| && p.sizes[h] > 0 {
      assert Start(p)[h] == Free;
    }
  }

  // Where the bounds hold and the pins are deserved, a stratum's share is the level, clamped.
  lemma ShareIsClamped(p: Problem, marks: Marks, h: nat)
    requires Fits(p, marks) && FreeCount(marks) > 0 && Sum(FreeKeys(p, marks)) > 0.0
    requires PinsHold(p, marks, Level(p, marks)) && Settled(p, marks) && h < |marks| && marks[h] != Empty
    ensures Share(p, marks, h) == Clamped(p, Level(p, marks), h)
  {
    hide Sum, Level, FreeKeys, Target, Due;
    TargetIsLevel(p, marks, h);
  }

  /** When the run of the loop pinned on one side only and keys are left to share by, the shares are
      the water-filling solution: one level for all, cut off at each stratum's own bounds, using up
      exactly the total. */
  lemma OneSidedIsWaterFilling(p: Problem)
    requires WellPosed(p)
    requires var fin := Fill(p, Start(p)); Fits(p, fin) && Sum(FreeKeys(p, fin)) > 0.0 && (NoCap(fin) || NoMin(fin))
    ensures var fin := Fill(p, Start(p));
            && Sum(Shares(p, fin)) == p.total as real
            && (forall h | 0 <= h < |p.sizes| && p.sizes[h] > 0 ::
                  Share(p, fin, h) == Clamped(p, Level(p, fin), h))
  {
    var fin := Fill(p, Start(p));
    SomethingShares(p, fin);
    FillSettles(p, Start(p));
    KeysShrink(p, Start(p), fin);
    SomethingShares(p, Start(p));
    StartFacts(p);
    assert PinsHold(p, Start(p), Level(p, Start(p))) by {
      hide Level;
    }
    OneSidedFillHolds(p, Start(p));
    SharesAddUp(p, fin);
    hide Sum, Level, FreeKeys, Share, Settled, Shares, Due, Clamped;
    forall h | 0 <= h < |p.sizes| && p.sizes[h] > 0
      ensures Share(p, fin, h) == Clamped(p, Level(p, fin), h)
    {
      NeverEmptied(p, Start(p), h);
      ShareIsClamped(p, fin, h);
    }
  }

  lemma SomethingShares(p: Problem, marks: Marks)
    requires Fits(p, marks) && Sum(FreeKeys(p, marks)) > 0.0
    ensures FreeCount(marks) > 0
  {
    if FreeCount(marks) == 0 {
      FreeCountPositive(marks);
      SumScale(0.0, FreeKeys(p, marks), FreeKeys(p, marks));
    }
  }

  // ------------------------------------------------------------------
  // When the pins must be on one side
  // ------------------------------------------------------------------

  /** Keys that are the stratum sizes themselves. */
  ghost predicate Proportional(p: Problem) {
    |p.keys| == |p.sizes| && forall h | 0 <= h < |p.sizes| :: p.keys[h] == p.sizes[h] as real
  }

  lemma ProportionalKeysPositive(p: Problem, marks: Marks)
    requires Proportional(p) && Shaped(p, marks) && FreeCount(marks) > 0
    ensures Sum(FreeKeys(p, marks)) > 0.0
  {
    var zeros := seq(|marks|, h requires 0 <= h < |marks| => 0.0);
    FreeCountPositive(marks);
    var f :| 0 <= f < |marks| && marks[f] == Free;
    assert zeros[f] < FreeKeys(p, marks)[f];
    SumLe(zeros, FreeKeys(p, marks));
    SumScale(0.0, zeros, zeros);
  }

  lemma ProportionalRoundNeverCaps(p: Problem, marks: Marks)
    requires Proportional(p) && Fits(p, marks) && FreeCount(marks) > 0 && NoCap(marks)
    requires Sum(FreeKeys(p, marks)) > 0.0 && Level(p, marks) <= 1.0
    ensures NoCap(Round(p, marks))
  {
    hide Sum, Level, FreeKeys, Target, Low;
    forall h | 0 <= h < |marks| ensures NextMark(p, marks, h) != AtCap {
      TargetIsLevel(p, marks, h);
      ScaleLe(Level(p, marks), 1.0, p.keys[h]);
      assert marks[h] in marks;
    }
  }

  lemma {:induction false} ProportionalNeverCaps(p: Problem, marks: Marks)
    requires Proportional(p) && Shaped(p, marks) && Feasible(p) && FreeCount(marks) > 0 && NoCap(marks)
    requires Sum(FreeKeys(p, marks)) > 0.0 && Level(p, marks) <= 1.0
    ensures var fin := Fill(p, marks); Fits(p, fin) && NoCap(fin) && FreeCount(fin) > 0
    decreases FreeCount(marks)
  {
    hide Sum, Level, FreeKeys, Low, NextMark, NoCap;
    RoundShrinks(p, marks);
    var next := Round(p, marks);
    if next != marks {
      ProportionalRoundNeverCaps(p, marks);
      OneSidedRoundLeavesFree(p, marks);
      ProportionalKeysPositive(p, next);
      LevelMoves(p, marks);
      ProportionalNeverCaps(p, next);
    }
  }

  lemma ProportionalStart(p: Problem)
    requires Proportional(p) && Feasible(p) && exists h :: 0 <= h < |p.sizes| && p.sizes[h] > 0
    ensures WellPosed(p) && Shaped(p, Start(p)) && FreeCount(Start(p)) > 0 && NoCap(Start(p))
    ensures Sum(FreeKeys(p, Start(p))) == Total(Caps(p)) as real > 0.0
    ensures Level(p, Start(p)) == p.total as real / Total(Caps(p)) as real <= 1.0
  {
    StartFacts(p);
    ProportionalKeysPositive(p, Start(p));
    SumOfInts(Caps(p), FreeKeys(p, Start(p)));
    NothingPinnedYet(p);
    hide Sum, Total;
    QuotientBound(p.total as real, Total(Caps(p)) as real, 1.0);
  }

  lemma NothingPinnedYet(p: Problem)
    requires |p.keys| == |p.sizes|
    ensures Remaining(p, Start(p)) == p.total as real
  {
    var none := Pinned(p, Start(p));
    SumScale(0.0, Reals(none), Reals(none));
    SumOfInts(none, Reals(none));
  }

  /** Proportional allocation only ever pins at minimums, and ends with something free. */
  lemma ProportionalPins(p: Problem)
    requires Proportional(p) && Feasible(p) && exists h :: 0 <= h < |p.sizes| && p.sizes[h] > 0
    ensures var fin := Fill(p, Start(p)); Fits(p, fin) && NoCap(fin) && FreeCount(fin) > 0
  {
    ProportionalStart(p);
    ProportionalNeverCaps(p, Start(p));
  }

  lemma {:induction false} WithoutMinimumNeverFloors(p: Problem, marks: Marks)
    requires WellPosed(p) && Shaped(p, marks) && Feasible(p) && FreeCount(marks) > 0 && NoMin(marks)
    requires p.minimum <= 0 && Remaining(p, marks) >= 0.0
    ensures var fin := Fill(p, marks); Fits(p, fin) && NoMin(fin) && FreeCount(fin) > 0
    decreases FreeCount(marks)
  {
    RoundShrinks(p, marks);
    var next := Round(p, marks);
    if next != marks {
      forall h | 0 <= h < |marks| ensures next[h] != AtMin && Target(p, marks, h) >= 0.0 {
        TargetNonNegative(p, marks, h);
        assert marks[h] in marks;
      }
      OneSidedRoundLeavesFree(p, marks);
      RemainingStaysNonNegative(p, marks);
      WithoutMinimumNeverFloors(p, next);
    }
  }

  lemma TargetNonNegative(p: Problem, marks: Marks, h: nat)
    requires WellPosed(p) && Fits(p, marks) && h < |marks| && FreeCount(marks) > 0 && Remaining(p, marks) >= 0.0
    ensures Target(p, marks, h) >= 0.0
  {
    var keyTotal, rest := Sum(FreeKeys(p, marks)), Remaining(p, marks);
    if keyTotal > 0.0 {
      assert rest * p.keys[h] >= 0.0;
      QuotientBound(rest * p.keys[h], keyTotal, 0.0);
    } else {
      QuotientBound(rest, FreeCount(marks) as real, 0.0);
    }
  }

  lemma RemainingStaysNonNegative(p: Problem, marks: Marks)
    requires WellPosed(p) && Fits(p, marks) && FreeCount(marks) > 0 && Remaining(p, marks) >= 0.0
    requires NoMin(Round(p, marks)) && forall h | 0 <= h < |marks| :: Target(p, marks, h) >= 0.0
    ensures Remaining(p, Round(p, marks)) >= 0.0
  {
    var next := Round(p, marks);
    SharesAddUp(p, marks);
    SumOfInts(Pinned(p, next), Reals(Pinned(p, next)));
    forall h | 0 <= h < |marks| ensures Reals(Pinned(p, next))[h] <= Shares(p, marks)[h] {
      assert next[h] == NextMark(p, marks, h) && next[h] in next;
    }
    SumLe(Reals(Pinned(p, next)), Shares(p, marks));
  }

  /** Without a minimum, allocation only ever pins at caps, whatever the keys. */
  lemma WithoutMinimumPins(p: Problem)
    requires WellPosed(p) && Feasible(p) && p.minimum <= 0 <= p.total
    requires exists h :: 0 <= h < |p.sizes| && p.sizes[h] > 0
    ensures var fin := Fill(p, Start(p)); Fits(p, fin) && NoMin(fin) && FreeCount(fin) > 0
  {
    StartFacts(p);
    NothingPinnedYet(p);
    WithoutMinimumNeverFloors(p, Start(p));
  }
}
