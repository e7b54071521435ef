/** Water-filling a sample over strata with floors and caps (measurement/vvr.py). Strata are
    positions in a list; the source has five. */
module WaterFilling {
  import opened Prelude
  import opened Sums

  /** An allocation problem: a non-negative key and a size per stratum, a total and a minimum. */
  datatype Problem = Problem(keys: seq<real>, sizes: seq<nat>, total: int, minimum: int)

  ghost predicate WellPosed(p: Problem) {
    |p.keys| == |p.sizes| && forall h | 0 <= h < |p.keys| :: p.keys[h] >= 0.0
  }

  /** Where a stratum stands: out of the problem, still sharing, or pinned at a bound. */
  datatype Mark = Empty | Free | AtMin | AtCap

  type Marks = seq<Mark>

  function Low(p: Problem, h: nat): int
    requires h < |p.sizes|
  {
    Min(p.minimum, p.sizes[h])
  }

  function Start(p: Problem): Marks {
    seq(|p.sizes|, h requires 0 <= h < |p.sizes| => if p.sizes[h] > 0 then Free else Empty)
  }

  // ------------------------------------------------------------------
  // One round
  // ------------------------------------------------------------------

  function FreeCount(marks: Marks): nat {
    if marks == [] then 0 else (if marks[0] == Free then 1 else 0) + FreeCount(marks[1..])
  }

  predicate Fits(p: Problem, marks: Marks) {
    |p.keys| == |p.sizes| == |marks|
  }

  function FreeKeys(p: Problem, marks: Marks): seq<real>
    requires Fits(p, marks)
  {
    seq(|marks|, h requires 0 <= h < |marks| => if marks[h] == Free then p.keys[h] else 0.0)
  }

  function Pinned(p: Problem, marks: Marks): seq<int>
    requires Fits(p, marks)
  {
    seq(|marks|, h requires 0 <= h < |marks| =>
      match marks[h] case AtMin => Low(p, h) case AtCap => p.sizes[h] case _ => 0)
  }

  function Remaining(p: Problem, marks: Marks): real
    requires Fits(p, marks)
  {
    (p.total - Total(Pinned(p, marks))) as real
  }

  /** A free stratum's share of what is left: in proportion to its key, or equal when no key is left. */
  function Target(p: Problem, marks: Marks, h: nat): real
    requires Fits(p, marks) && h < |marks| && FreeCount(marks) > 0
  {
    var keyTotal := Sum(FreeKeys(p, marks));
    if keyTotal <= 0.0 then Remaining(p, marks) / FreeCount(marks) as real
    else Remaining(p, marks) * p.keys[h] / keyTotal
  }

  function NextMark(p: Problem, marks: Marks, h: nat): Mark
    requires Fits(p, marks) && h < |marks|
  {
    if marks[h] != Free || FreeCount(marks) == 0 then marks[h]
    else if Target(p, marks, h) > p.sizes[h] as real then AtCap
    else if Target(p, marks, h) < Low(p, h) as real then AtMin
    else Free
  }

  /** One pass: every free stratum whose share breaks a bound is pinned there. */
  function Round(p: Problem, marks: Marks): Marks
    requires Fits(p, marks)
  {
    seq(|marks|, h requires 0 <= h < |marks| => NextMark(p, marks, h))
  }

  lemma {:induction false} FreeShrinks(a: Marks, b: Marks)
    requires |a| == |b| && forall h | 0 <= h < |a| && b[h] == Free :: a[h] == Free
    ensures FreeCount(b) <= FreeCount(a)
    ensures (exists h :: 0 <= h < |a| && a[h] == Free && b[h] != Free) ==> FreeCount(b) < FreeCount(a)
  {
    if a != [] {
      FreeShrinks(a[1..], b[1..]);
      if h :| 0 <= h < |a| && a[h] == Free && b[h] != Free {
        if h > 0 {
          assert a[1..][h - 1] == Free && b[1..][h - 1] != Free;
        }
      }
    }
  }

  lemma {:induction false} FreeCountPositive(marks: Marks)
    ensures FreeCount(marks) > 0 <==> Free in marks
  {
    if marks != [] {
      FreeCountPositive(marks[1..]);
      assert marks == [marks[0]] + marks[1..];
    }
  }

  // A round that changes anything leaves fewer strata free.
  lemma RoundShrinks(p: Problem, marks: Marks)
    requires Fits(p, marks)
    ensures FreeCount(Round(p, marks)) <= FreeCount(marks)
    ensures Round(p, marks) != marks ==> FreeCount(Round(p, marks)) < FreeCount(marks)
  {
    var next := Round(p, marks);
    FreeShrinks(marks, next);
    if next != marks {
      var h :| 0 <= h < |marks| && next[h] != marks[h];
    }
  }

  /** The rounds, until none changes anything or nothing is free. */
  function Fill(p: Problem, marks: Marks): Marks
    requires Fits(p, marks)
    decreases FreeCount(marks)
  {
    RoundShrinks(p, marks);
    var next := Round(p, marks);
    if FreeCount(marks) == 0 || next == marks then marks else Fill(p, next)
  }

  /** What each stratum is allotted before rounding. */
  function Share(p: Problem, marks: Marks, h: nat): real
    requires Fits(p, marks) && h < |marks|
  {
    match marks[h]
    case Empty => 0.0
    case AtMin => Low(p, h) as real
    case AtCap => p.sizes[h] as real
    case Free => if FreeCount(marks) == 0 then 0.0 else Target(p, marks, h)
  }

  function Shares(p: Problem, marks: Marks): seq<real>
    requires Fits(p, marks)
  {
    seq(|marks|, h requires 0 <= h < |marks| => Share(p, marks, h))
  }

  // ------------------------------------------------------------------
  // Conservation
  // ------------------------------------------------------------------

  function FreeTargets(p: Problem, marks: Marks): seq<real>
    requires Fits(p, marks) && FreeCount(marks) > 0
  {
    seq(|marks|, h requires 0 <= h < |marks| => if marks[h] == Free then Target(p, marks, h) else 0.0)
  }

  function FreeOnes(marks: Marks): seq<real> {
    seq(|marks|, h requires 0 <= h < |marks| => if marks[h] == Free then 1.0 else 0.0)
  }

  lemma {:induction false} FreeOnesCount(marks: Marks)
    ensures Sum(FreeOnes(marks)) == FreeCount(marks) as real
  {
    if marks != [] {
      FreeOnesCount(marks[1..]);
      assert FreeOnes(marks)[1..] == FreeOnes(marks[1..]);
    }
  }

  /** The shares of the free strata use up exactly what the pinned ones left. */
  lemma TargetsUseTheRest(p: Problem, marks: Marks)
    requires WellPosed(p) && Fits(p, marks) && FreeCount(marks) > 0
    ensures Sum(FreeTargets(p, marks)) == Remaining(p, marks)
  {
    var keyTotal, rest := Sum(FreeKeys(p, marks)), Remaining(p, marks);
    if keyTotal <= 0.0 {
      EqualTargets(p, marks);
      SumScaled(rest / FreeCount(marks) as real, FreeOnes(marks));
      FreeOnesCount(marks);
      TimesBack(rest, FreeCount(marks) as real);
    } else {
      KeyedTargets(p, marks);
      SumScaled(rest / keyTotal, FreeKeys(p, marks));
      TimesBack(rest, keyTotal);
    }
  }

  lemma EqualTargets(p: Problem, marks: Marks)
    requires Fits(p, marks) && FreeCount(marks) > 0 && Sum(FreeKeys(p, marks)) <= 0.0
    ensures FreeTargets(p, marks) == Scaled(Remaining(p, marks) / FreeCount(marks) as real, FreeOnes(marks))
  {
    var c := Remaining(p, marks) / FreeCount(marks) as real;
    assert Times(c, 1.0) == c && Times(c, 0.0) == 0.0;
    hide Times, Remaining, FreeCount, Sum, FreeKeys;
  }

  lemma KeyedTargets(p: Problem, marks: Marks)
    requires Fits(p, marks) && FreeCount(marks) > 0 && Sum(FreeKeys(p, marks)) > 0.0
    ensures FreeTargets(p, marks) == Scaled(Remaining(p, marks) / Sum(FreeKeys(p, marks)), FreeKeys(p, marks))
  {
    hide Times, Remaining, FreeCount, Sum;
    var keyTotal, rest := Sum(FreeKeys(p, marks)), Remaining(p, marks);
    forall h: nat | h < |marks|
      ensures FreeTargets(p, marks)[h] == Scaled(rest / keyTotal, FreeKeys(p, marks))[h]
    {
      ShareOfKey(rest, p.keys[h], keyTotal);
      ZeroShare(rest / keyTotal);
    }
  }

  lemma ZeroShare(c: real)
    ensures Times(c, 0.0) == 0.0
  {
  }

  lemma TimesBack(rest: real, divisor: real)
    requires divisor != 0.0
    ensures Times(rest / divisor, divisor) == rest
  {
  }

  lemma ShareOfKey(rest: real, key: real, keyTotal: real)
    requires keyTotal > 0.0
    ensures rest * key / keyTotal == Times(rest / keyTotal, key)
  {
  }

  /** While something is free, the shares add up to the total. */
  lemma SharesAddUp(p: Problem, marks: Marks)
    requires WellPosed(p) && Fits(p, marks) && FreeCount(marks) > 0
    ensures Sum(Shares(p, marks)) == p.total as real
  {
    TargetsUseTheRest(p, marks);
    var pinned := Pinned(p, marks);
    SumOfInts(pinned, Reals(pinned));
    SumAdd(Reals(pinned), FreeTargets(p, marks), Shares(p, marks));
  }

  // Once nothing is free, the shares are the pins.
  lemma SharesArePins(p: Problem, marks: Marks)
    requires Fits(p, marks) && FreeCount(marks) == 0
    ensures Shares(p, marks) == Reals(Pinned(p, marks))
  {
    FreeCountPositive(marks);
  }

  // ------------------------------------------------------------------
  // Where the filling ends
  // ------------------------------------------------------------------

  /** One set of marks can follow another: emptiness and pins are kept. */
  ghost predicate Follows(a: Marks, b: Marks) {
    |a| == |b| && forall h | 0 <= h < |a| :: a[h] != Free ==> b[h] == a[h]
  }

  // Settled: nothing is free, or every free share respects its bounds.
  ghost predicate Settled(p: Problem, marks: Marks)
    requires Fits(p, marks)
  {
    FreeCount(marks) > 0 ==>
      forall h | 0 <= h < |marks| && marks[h] == Free ::
        Low(p, h) as real <= Target(p, marks, h) <= p.sizes[h] as real
  }

  lemma {:induction false} FillSettles(p: Problem, marks: Marks)
    requires Fits(p, marks)
    ensures Fits(p, Fill(p, marks)) && Follows(marks, Fill(p, marks)) && Settled(p, Fill(p, marks))
    decreases FreeCount(marks)
  {
    RoundShrinks(p, marks);
    var next := Round(p, marks);
    if FreeCount(marks) > 0 {
      if next == marks {
        forall h | 0 <= h < |marks| && marks[h] == Free
          ensures Low(p, h) as real <= Target(p, marks, h) <= p.sizes[h] as real
        {
          assert next[h] == NextMark(p, marks, h);
        }
      } else {
        FillSettles(p, next);
      }
    }
  }

  /** The number of rounds the loop makes. */
  function Rounds(p: Problem, marks: Marks): nat
    requires Fits(p, marks)
    decreases FreeCount(marks)
  {
    RoundShrinks(p, marks);
    if FreeCount(marks) == 0 then 0
    else if Round(p, marks) == marks then 1
    else 1 + Rounds(p, Round(p, marks))
  }

  /** The marks after so many rounds. */
  function After(p: Problem, marks: Marks, k: nat): (r: Marks)
    requires Fits(p, marks)
    ensures Fits(p, r)
    decreases k
  {
    RoundShrinks(p, marks);
    if k == 0 then marks else After(p, Round(p, marks), k - 1)
  }

  /** The rounds are the loop's own: before each something is free, each but the last pins something, and after them
      the filling is done. */
  lemma {:induction false} RoundsAreMade(p: Problem, marks: Marks, k: nat)
    requires Fits(p, marks)
    ensures After(p, marks, Rounds(p, marks)) == Fill(p, marks)
    ensures k < Rounds(p, marks) ==> FreeCount(After(p, marks, k)) > 0
    ensures k + 1 < Rounds(p, marks) ==> After(p, marks, k + 1) != After(p, marks, k)
    decreases FreeCount(marks)
  {
    RoundShrinks(p, marks);
    var next := Round(p, marks);
    if FreeCount(marks) > 0 && next != marks {
      RoundsAreMade(p, next, if k > 0 then k - 1 else 0);
    }
    assert After(p, marks, 0) == marks && After(p, marks, 1) == next;
  }

  /** At most one round per non-empty stratum. */
  lemma {:induction false} RoundsBounded(p: Problem, marks: Marks)
    requires Fits(p, marks)
    ensures Rounds(p, marks) <= FreeCount(marks)
    decreases FreeCount(marks)
  {
    RoundShrinks(p, marks);
    if FreeCount(marks) > 0 && Round(p, marks) != marks {
      RoundsBounded(p, Round(p, marks));
    }
  }

  /** Every non-empty stratum's share lies between its bounds, however the filling went. */
  lemma SharesWithinBounds(p: Problem, h: nat)
    requires |p.keys| == |p.sizes| && h < |p.sizes|
    ensures var fin := Fill(p, Start(p));
            Fits(p, fin) && (if p.sizes[h] == 0 then fin[h] == Empty && Share(p, fin, h) == 0.0
                             else fin[h] != Empty && Low(p, h) as real <= Share(p, fin, h) <= p.sizes[h] as real)
  {
    FillSettles(p, Start(p));
    var fin := Fill(p, Start(p));
    if p.sizes[h] > 0 {
      NeverEmptied(p, Start(p), h);
    }
    FreeCountPositive(fin);
  }

  lemma {:induction false} NeverEmptied(p: Problem, marks: Marks, h: nat)
    requires Fits(p, marks) && h < |marks| && marks[h] != Empty
    ensures Fits(p, Fill(p, marks)) && Fill(p, marks)[h] != Empty
    decreases FreeCount(marks)
  {
    RoundShrinks(p, marks);
    if FreeCount(marks) > 0 && Round(p, marks) != marks {
      NeverEmptied(p, Round(p, marks), h);
    }
  }
}
