/** Allocating a sample: fill, then round (measurement/vvr.py). */
module Allocations {
  import opened Prelude
  import opened Sums
  import opened WaterFilling
  import opened WaterLevels
  import opened WaterRuns
  import opened Rounding

  datatype Refusal =
    | EveryStratumEmpty
    | OverCapacity(total: int, capacity: int)
    | MinimumsTooMany(total: int, needed: int)

  predicate SomethingThere(p: Problem) {
    exists h :: 0 <= h < |p.sizes| && p.sizes[h] > 0
  }

  // Empty strata carry value 0.0 and cap 0, so rounding never raises them.
  function Allocated(p: Problem): Result<seq<int>, Refusal>
    requires |p.keys| == |p.sizes|
  {
    if !SomethingThere(p) then Err(EveryStratumEmpty)
    else if p.total > Total(Caps(p)) then Err(OverCapacity(p.total, Total(Caps(p))))
    else if Total(Lows(p)) > p.total then Err(MinimumsTooMany(p.total, Total(Lows(p))))
    else
      FillSettles(p, Start(p));
      Ok(Rounded(Shares(p, Fill(p, Start(p))), p.total, Caps(p)))
  }

  // ------------------------------------------------------------------
  // The loop
  // ------------------------------------------------------------------

  /** One pass over the strata: pins those whose target breaks a bound. */
  method PinViolated(p: Problem, marks: Marks, targets: seq<real>) returns (next: Marks, violated: bool)
    requires Fits(p, marks) && FreeCount(marks) > 0 && |targets| == |marks|
    requires forall h | 0 <= h < |marks| && marks[h] == Free :: targets[h] == Target(p, marks, h)
    ensures next == Round(p, marks)
    ensures violated <==> next != marks
  {
    hide Target, FreeCount;
    next := marks;
    violated := false;
    for h := 0 to |marks|
      invariant |next| == |marks|
      invariant forall g | 0 <= g < h :: next[g] == NextMark(p, marks, g)
      invariant forall g | h <= g < |marks| :: next[g] == marks[g]
      invariant violated <==> exists g :: 0 <= g < h && next[g] != marks[g]
    {
      if marks[h] == Free {
        if targets[h] > p.sizes[h] as real {
          next := next[h := AtCap];
          violated := true;
        } else if targets[h] < Min(p.minimum, p.sizes[h]) as real {
          next := next[h := AtMin];
          violated := true;
        }
      }
    }
    assert next == Round(p, marks);
  }

  /** remaining * key / key_total for every free stratum, or equal shares when no key is left. */
  method ComputeTargets(p: Problem, marks: Marks, remaining: real) returns (targets: seq<real>)
    requires Fits(p, marks) && FreeCount(marks) > 0 && remaining == Remaining(p, marks)
    ensures |targets| == |marks|
    ensures forall h | 0 <= h < |marks| && marks[h] == Free :: targets[h] == Target(p, marks, h)
  {
    var keyTotal := Sum(FreeKeys(p, marks));
    if keyTotal <= 0.0 {
      targets := seq(|marks|, h requires 0 <= h < |marks| => remaining / FreeCount(marks) as real);
    } else {
      targets := seq(|marks|, h requires 0 <= h < |marks| => remaining * p.keys[h] / keyTotal);
    }
  }

  /** The pins and the targets of those still free, side by side. */
  method Gather(p: Problem, marks: Marks, targets: seq<real>) returns (shares: seq<real>)
    requires Fits(p, marks) && |targets| == |marks|
    requires forall h | 0 <= h < |marks| && marks[h] == Free :: FreeCount(marks) > 0 && targets[h] == Target(p, marks, h)
    ensures shares == Shares(p, marks)
  {
    hide Target, FreeCount;
    shares := seq(|marks|, h requires 0 <= h < |marks| =>
      match marks[h]
      case Empty => 0.0
      case AtMin => Low(p, h) as real
      case AtCap => p.sizes[h] as real
      case Free => targets[h]);
  }

  /** The whole allocator. `rounds` is the number of times the loop body ran. */
  method Allocate(p: Problem) returns (r: Result<seq<int>, Refusal>, rounds: nat)
    requires |p.keys| == |p.sizes|
    ensures r == Allocated(p)
    ensures rounds <= FreeCount(Start(p))
  {
    rounds := 0;
    if !SomethingThere(p) {
      r := Err(EveryStratumEmpty);
      return;
    }
    var capacity, needed := Total(Caps(p)), Total(Lows(p));
    if p.total > capacity {
      r := Err(OverCapacity(p.total, capacity));
      return;
    }
    if needed > p.total {
      r := Err(MinimumsTooMany(p.total, needed));
      return;
    }
    var marks := Start(p);
    NothingPinnedYet(p);
    var remaining := p.total as real;
    var targets := seq(|marks|, _ => 0.0);
    var violated := true;
    while Free in marks && violated
      invariant Fits(p, marks) && |targets| == |marks| && remaining == Remaining(p, marks)
      invariant Fill(p, Start(p)) == Fill(p, marks)
      invariant rounds + (if violated then FreeCount(marks) else 0) <= FreeCount(Start(p))
      invariant !violated ==> Fill(p, marks) == marks && FreeCount(marks) > 0
      invariant !violated ==> forall h | 0 <= h < |marks| && marks[h] == Free :: targets[h] == Target(p, marks, h)
      decreases violated, FreeCount(marks)
    {
      FreeCountPositive(marks);
      RoundShrinks(p, marks);
      targets := ComputeTargets(p, marks, remaining);
      marks, violated := PinViolated(p, marks, targets);
      if violated {
        remaining := (p.total - Total(Pinned(p, marks))) as real;
      }
      rounds := rounds + 1;
    }
    FreeCountPositive(marks);
    FillSettles(p, Start(p));
    var shares := Gather(p, marks, targets);
    var counts := LargestRemainder(shares, p.total, Caps(p));
    r := Ok(counts);
  }

  // ------------------------------------------------------------------
  // Bounds
  // ------------------------------------------------------------------

  lemma Unfold(p: Problem)
    requires |p.keys| == |p.sizes| && Allocated(p).Ok?
    ensures SomethingThere(p) && Feasible(p)
    ensures var fin := Fill(p, Start(p));
            Fits(p, fin) && Allocated(p).value == Rounded(Shares(p, fin), p.total, Caps(p))
  {
    FillSettles(p, Start(p));
  }

  /** Every allocation keeps every bound: a non-empty stratum gets at least its minimum, or all it
      has, and never more than it holds; an empty one gets nothing. */
  lemma AllocationKeepsBounds(p: Problem, h: nat)
    requires |p.keys| == |p.sizes| && Allocated(p).Ok? && h < |p.sizes|
    ensures |Allocated(p).value| == |p.sizes|
    ensures var n := Allocated(p).value[h];
            if p.sizes[h] == 0 then n == 0 else Min(p.minimum, p.sizes[h]) <= n <= p.sizes[h]
  {
    Unfold(p);
    var shares := Shares(p, Fill(p, Start(p)));
    SharesWithinBounds(p, h);
    RoundedSteps(shares, p.total, Caps(p), h);
    hide Fill, Share, Rounded;
    assert Caps(p)[h] == p.sizes[h];
    FloorWithin(Low(p, h), shares[h], p.sizes[h]);
  }

  lemma FloorWithin(low: int, value: real, high: int)
    ensures low as real <= value ==> low <= value.Floor
    ensures value <= high as real ==> value.Floor <= high
  {
  }

  // ------------------------------------------------------------------
  // The total
  // ------------------------------------------------------------------

  /** As long as something is free when the loop stops, the total is delivered exactly and no stratum
      is a whole view away from its share. */
  lemma FreeMeansDelivered(p: Problem)
    requires WellPosed(p) && Allocated(p).Ok?
    requires var fin := Fill(p, Start(p)); Fits(p, fin) && FreeCount(fin) > 0
    ensures Total(Allocated(p).value) == p.total && |Allocated(p).value| == |p.sizes|
    ensures var shares := Shares(p, Fill(p, Start(p)));
            forall h | 0 <= h < |p.sizes| ::
              shares[h] - 1.0 < Allocated(p).value[h] as real < shares[h] + 1.0
  {
    Unfold(p);
    var fin := Fill(p, Start(p));
    var shares := Shares(p, fin);
    SharesAddUp(p, fin);
    forall h | 0 <= h < |p.sizes| ensures shares[h] <= Caps(p)[h] as real {
      SharesWithinBounds(p, h);
    }
    hide Fill, Share, Rounded, Sum, Total, Allocated, Shares;
    AddingUpIsExact(shares, p.total, Caps(p));
    forall h | 0 <= h < |p.sizes|
      ensures |Rounded(shares, p.total, Caps(p))| == |p.sizes|
      ensures shares[h] - 1.0 < Rounded(shares, p.total, Caps(p))[h] as real < shares[h] + 1.0
    {
      AddingUpKeepsQuota(shares, p.total, Caps(p), h);
    }
    if |p.sizes| == 0 {
      RoundedTotal(shares, p.total, Caps(p));
    }
  }

  // How many strata stand at a minimum below their size.
  function Raisable(p: Problem, marks: Marks): seq<int>
    requires Fits(p, marks)
  {
    seq(|marks|, h requires 0 <= h < |marks| => if marks[h] == AtMin && Low(p, h) < p.sizes[h] then 1 else 0)
  }

  lemma FloorsOfInts(ns: seq<int>, caps: seq<int>)
    requires |ns| == |caps| && forall h | 0 <= h < |ns| :: ns[h] <= caps[h]
    ensures Floors(Reals(ns), caps) == ns
  {
  }

  /** The exact condition for "the requested total is always the total delivered": something is
      still free when the loop stops, or the pins fall short of the total by no more than the number
      of minimum-pinned strata with views to spare. */
  lemma DeliveredIff(p: Problem)
    requires WellPosed(p) && Allocated(p).Ok?
    ensures var fin := Fill(p, Start(p));
            && Fits(p, fin)
            && (Total(Allocated(p).value) == p.total <==>
                  || FreeCount(fin) > 0
                  || Total(Pinned(p, fin)) <= p.total <= Total(Pinned(p, fin)) + Total(Raisable(p, fin)))
  {
    Unfold(p);
    var fin := Fill(p, Start(p));
    if FreeCount(fin) > 0 {
      FreeMeansDelivered(p);
    } else {
      AllPinned(p, fin);
      RoundedIsExactIff(Shares(p, fin), p.total, Caps(p));
    }
  }

  lemma AllPinned(p: Problem, fin: Marks)
    requires WellPosed(p) && Fits(p, fin) && fin == Fill(p, Start(p)) && FreeCount(fin) == 0
    ensures Floors(Shares(p, fin), Caps(p)) == Pinned(p, fin)
    ensures Room(Shares(p, fin), Caps(p)) == Total(Raisable(p, fin))
  {
    SharesArePins(p, fin);
    FreeCountPositive(fin);
    var pinned, caps := Pinned(p, fin), Caps(p);
    forall h | 0 <= h < |fin| ensures pinned[h] <= caps[h] && (pinned[h] < caps[h] <==> Raisable(p, fin)[h] == 1) {
      FillSettles(p, Start(p));
      if p.sizes[h] > 0 {
        NeverEmptied(p, Start(p), h);
      }
      assert fin[h] in fin;
    }
    FloorsOfInts(pinned, caps);
    var all := Indices(|fin|);
    forall h: nat | h < |fin| ensures Rooms(pinned, caps, all)[h] == Raisable(p, fin)[h] {
      assert all[h] == h;
    }
    assert Rooms(pinned, caps, all) == Raisable(p, fin);
  }

  /** Every undelivered total comes from a run that pinned everything, some strata at their minimum
      and some at their cap. */
  lemma UndeliveredMeansTwoSided(p: Problem)
    requires WellPosed(p) && Allocated(p).Ok? && Total(Allocated(p).value) != p.total
    ensures var fin := Fill(p, Start(p)); FreeCount(fin) == 0 && AtMin in fin && AtCap in fin
  {
    Unfold(p);
    var fin := Fill(p, Start(p));
    StartFacts(p);
    if FreeCount(fin) > 0 {
      FreeMeansDelivered(p);
    }
    if NoCap(fin) || NoMin(fin) {
      OneSidedFillLeavesFree(p, Start(p));
    }
  }

  /** Proportional allocation always delivers, and each stratum is within one view of its share of
      the population under one sampling rate, clamped to its bounds. */
  lemma ProportionalDelivers(p: Problem)
    requires Proportional(p) && Allocated(p).Ok?
    ensures Total(Allocated(p).value) == p.total && |Allocated(p).value| == |p.sizes|
    ensures exists rate: real :: WithinOneOf(p, rate, Allocated(p).value)
  {
    Unfold(p);
    ProportionalPins(p);
    FreeMeansDelivered(p);
    var fin := Fill(p, Start(p));
    FillSettles(p, Start(p));
    StartFacts(p);
    StaysShaped(p, Start(p));
    ProportionalKeysPositive(p, fin);
    OneSidedIsWaterFilling(p);
    var rate := Level(p, fin);
    hide Fill, Level, Allocated, Sum, Total, FreeKeys, Shares, Share, Clamped;
    forall h | 0 <= h < |p.sizes| && p.sizes[h] > 0 ensures Near(Allocated(p).value[h], Clamped(p, rate, h)) {
      ShareAt(p, fin, h);
    }
    assert WithinOneOf(p, rate, Allocated(p).value);
  }

  lemma ShareAt(p: Problem, marks: Marks, h: nat)
    requires Fits(p, marks) && h < |marks|
    ensures Shares(p, marks)[h] == Share(p, marks, h)
  {
  }

  predicate Near(n: int, value: real) {
    value - 1.0 < n as real < value + 1.0
  }

  ghost predicate WithinOneOf(p: Problem, rate: real, counts: seq<int>) {
    |counts| == |p.keys| == |p.sizes| &&
    forall h | 0 <= h < |p.sizes| && p.sizes[h] > 0 :: Near(counts[h], Clamped(p, rate, h))
  }

  lemma {:induction false} StaysShaped(p: Problem, marks: Marks)
    requires Shaped(p, marks)
    ensures Shaped(p, Fill(p, marks))
    decreases FreeCount(marks)
  {
    RoundShrinks(p, marks);
    var next := Round(p, marks);
    if FreeCount(marks) > 0 && next != marks {
      forall h | 0 <= h < |marks| ensures next[h] == Empty <==> p.sizes[h] == 0 {
        assert next[h] == NextMark(p, marks, h);
      }
      StaysShaped(p, next);
    }
  }

  /** Without a minimum the total is delivered whatever the keys. */
  lemma NoMinimumDelivers(p: Problem)
    requires WellPosed(p) && Allocated(p).Ok? && p.minimum <= 0 <= p.total
    ensures Total(Allocated(p).value) == p.total
  {
    Unfold(p);
    WithoutMinimumPins(p);
    FreeMeansDelivered(p);
  }

  /** A condition to check before the call: if, sharing the total by key alone, no stratum's share
      exceeds its size, or none falls below its minimum, the total is delivered. */
  lemma OneSidedDelivers(p: Problem)
    requires WellPosed(p) && Allocated(p).Ok? && 0 <= p.total
    requires FreeCount(Start(p)) > 0 ==>
               || (forall h | 0 <= h < |p.sizes| && p.sizes[h] > 0 :: Target(p, Start(p), h) <= p.sizes[h] as real)
               || (forall h | 0 <= h < |p.sizes| && p.sizes[h] > 0 :: Target(p, Start(p), h) >= Low(p, h) as real)
    ensures Total(Allocated(p).value) == p.total
  {
    Unfold(p);
    StartFacts(p);
    if p.minimum <= 0 {
      NoMinimumDelivers(p);
    } else {
      FirstRoundSides(p);
      FirstRoundLeavesFree(p);
      FreeMeansDelivered(p);
    }
  }

  lemma FirstRoundSides(p: Problem)
    requires |p.keys| == |p.sizes| && FreeCount(Start(p)) > 0
    ensures (forall h | 0 <= h < |p.sizes| && p.sizes[h] > 0 :: Target(p, Start(p), h) <= p.sizes[h] as real) ==>
              NoCap(Round(p, Start(p)))
    ensures (forall h | 0 <= h < |p.sizes| && p.sizes[h] > 0 :: Target(p, Start(p), h) >= Low(p, h) as real) ==>
              NoMin(Round(p, Start(p)))
  {
    hide Target, FreeCount;
    var next := Round(p, Start(p));
    forall h | 0 <= h < |next| ensures next[h] == NextMark(p, Start(p), h) {
    }
  }

  /** Asked for everything, proportional allocation is a census. */
  lemma CensusIsEverything(p: Problem)
    requires Proportional(p) && Allocated(p).Ok? && p.total == Total(Caps(p))
    ensures Allocated(p).value == Caps(p)
  {
    ProportionalDelivers(p);
    forall h | 0 <= h < |p.sizes| ensures Allocated(p).value[h] <= Caps(p)[h] {
      AllocationKeepsBounds(p, h);
    }
    hide Allocated;
    OnlyTheCapsReachTheirTotal(Allocated(p).value, Caps(p));
  }

  lemma {:induction false} OnlyTheCapsReachTheirTotal(ns: seq<int>, caps: seq<int>)
    requires |ns| == |caps| && (forall h | 0 <= h < |ns| :: ns[h] <= caps[h]) && Total(ns) >= Total(caps)
    ensures ns == caps
  {
    if ns != [] {
      TotalLe(ns[1..], caps[1..]);
      OnlyTheCapsReachTheirTotal(ns[1..], caps[1..]);
      assert ns == [ns[0]] + ns[1..] && caps == [caps[0]] + caps[1..];
    }
  }
}
