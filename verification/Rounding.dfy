/** Largest-remainder rounding under caps (measurement/vvr.py). */
module Rounding {
  import opened Prelude
  import opened Sorting
  import opened Sums

  function Floors(values: seq<real>, caps: seq<int>): seq<int>
    requires |values| == |caps|
  {
    seq(|values|, h requires 0 <= h < |values| => Min(values[h].Floor, caps[h]))
  }

  function Fraction(values: seq<real>, h: nat): real {
    if h < |values| then values[h] - values[h].Floor as real else 0.0
  }

  // Larger fractional part first, then the earlier position.
  predicate RanksBefore(values: seq<real>, i: nat, j: nat) {
    Fraction(values, i) > Fraction(values, j) || (Fraction(values, i) == Fraction(values, j) && i <= j)
  }

  function Indices(n: nat): seq<nat> {
    seq(n, i requires 0 <= i < n => i)
  }

  function Ranked(values: seq<real>): seq<nat> {
    Sort((i, j) => RanksBefore(values, i, j), Indices(|values|))
  }

  // Every position once: what sorting the positions keeps.
  ghost predicate Permutes(order: seq<nat>, n: nat) {
    Distinct(order) && forall h: nat :: h in order <==> h < n
  }

  lemma ShuffledIndices(order: seq<nat>, n: nat)
    requires multiset(order) == multiset(Indices(n))
    ensures Permutes(order, n) && Within(order, n)
  {
    var all := Indices(n);
    DistinctCounts(all);
    DistinctCounts(order);
    forall x: nat ensures x in order <==> x < n {
      assert x in order <==> x in multiset(order);
      assert x in all <==> x in multiset(all);
      assert x < n ==> all[x] == x;
    }
    forall i | 0 <= i < |order| ensures order[i] < n {
      assert order[i] in order;
    }
  }

  lemma RankedPermutes(values: seq<real>)
    ensures Permutes(Ranked(values), |values|) && Within(Ranked(values), |values|)
    ensures Sorted((i, j) => RanksBefore(values, i, j), Ranked(values))
  {
    hide Permutes, Within;
    SortKeeps((i, j) => RanksBefore(values, i, j), Indices(|values|));
    ShuffledIndices(Ranked(values), |values|);
  }

  predicate Within(order: seq<nat>, n: nat) {
    forall i | 0 <= i < |order| :: order[i] < n
  }

  /** One more for each position with room, in order, until the shortfall is used up. */
  function Distribute(floors: seq<int>, caps: seq<int>, order: seq<nat>, shortfall: nat): (r: seq<int>)
    requires |floors| == |caps| && Within(order, |floors|)
    ensures |r| == |floors|
    decreases |order|
  {
    if order == [] || shortfall == 0 then floors
    else
      var h := order[0];
      if floors[h] < caps[h] then Distribute(floors[h := floors[h] + 1], caps, order[1..], shortfall - 1)
      else Distribute(floors, caps, order[1..], shortfall)
  }

  function Rounded(values: seq<real>, total: int, caps: seq<int>): seq<int>
    requires |values| == |caps|
  {
    var floors := Floors(values, caps);
    var shortfall := total - Total(floors);
    RankedPermutes(values);
    if shortfall <= 0 then floors else Distribute(floors, caps, Ranked(values), shortfall)
  }

  /** The loop: `floors` is raised in place along the ranking. */
  method LargestRemainder(values: seq<real>, total: int, caps: seq<int>) returns (floors: seq<int>)
    requires |values| == |caps|
    ensures floors == Rounded(values, total, caps)
  {
    floors := Floors(values, caps);
    var shortfall := total - Total(floors);
    if shortfall <= 0 {
      return;
    }
    RankedPermutes(values);
    var ranked := Ranked(values);
    var i := 0;
    while i < |ranked| && shortfall > 0
      invariant 0 <= i <= |ranked| && shortfall >= 0 && |floors| == |caps|
      invariant Rounded(values, total, caps) == Distribute(floors, caps, ranked[i..], shortfall)
    {
      var h := ranked[i];
      assert h in ranked && ranked[i..][0] == h && ranked[i..][1..] == ranked[i + 1..];
      if floors[h] < caps[h] {
        floors := floors[h := floors[h] + 1];
        shortfall := shortfall - 1;
      }
      i := i + 1;
    }
  }

  // ------------------------------------------------------------------
  // How much is delivered
  // ------------------------------------------------------------------

  function Rooms(floors: seq<int>, caps: seq<int>, order: seq<nat>): seq<int>
    requires |floors| == |caps|
  {
    seq(|floors|, h requires 0 <= h < |floors| => if h in order && floors[h] < caps[h] then 1 else 0)
  }

  /** How many strata the rounding may raise by one. */
  function Room(values: seq<real>, caps: seq<int>): (n: int)
    requires |values| == |caps|
  {
    Total(Rooms(Floors(values, caps), caps, Indices(|values|)))
  }

  lemma {:induction false} DistributeTotal(floors: seq<int>, caps: seq<int>, order: seq<nat>, shortfall: nat)
    requires |floors| == |caps| && Within(order, |floors|) && Distinct(order)
    ensures Total(Distribute(floors, caps, order, shortfall))
         == Total(floors) + Min(shortfall, Total(Rooms(floors, caps, order)))
    decreases |order|
  {
    TotalNonNegative(Rooms(floors, caps, order));
    if order == [] {
      var none := Rooms(floors, caps, []);
      ZeroTotal(none);
    } else if shortfall > 0 {
      var h, rest := order[0], order[1..];
      assert h in order && h !in rest;
      if floors[h] < caps[h] {
        var raised := floors[h := floors[h] + 1];
        RoomsAfter(floors, caps, order);
        DistributeTotal(raised, caps, rest, shortfall - 1);
        TotalUpdate(floors, h, floors[h] + 1);
        TotalUpdate(Rooms(floors, caps, order), h, 0);
      } else {
        assert order == [h] + rest;
        assert Rooms(floors, caps, order) == Rooms(floors, caps, rest);
        DistributeTotal(floors, caps, rest, shortfall);
      }
    }
  }

  lemma RoomsAfter(floors: seq<int>, caps: seq<int>, order: seq<nat>)
    requires |floors| == |caps| && order != [] && order[0] < |floors| && order[0] !in order[1..]
    ensures var h := order[0];
            Rooms(floors[h := floors[h] + 1], caps, order[1..]) == Rooms(floors, caps, order)[h := 0]
  {
    var h := order[0];
    assert order == [h] + order[1..];
  }

  /** What rounding delivers, for any values at all: the floors, plus as much of the shortfall as
      there is room for, one apiece. */
  lemma RoundedTotal(values: seq<real>, total: int, caps: seq<int>)
    requires |values| == |caps|
    ensures |Rounded(values, total, caps)| == |values|
    ensures var floor := Total(Floors(values, caps));
            Total(Rounded(values, total, caps)) == Max(floor, Min(total, floor + Room(values, caps)))
  {
    RankedPermutes(values);
    var floors, all := Floors(values, caps), Indices(|values|);
    TotalNonNegative(Rooms(floors, caps, all));
    forall h: nat | h < |values| ensures h in all && h in Ranked(values) {
      assert all[h] == h;
    }
    assert Rooms(floors, caps, Ranked(values)) == Rooms(floors, caps, all);
    if total > Total(floors) {
      DistributeTotal(floors, caps, Ranked(values), total - Total(floors));
    }
  }

  /** Rounding meets the total exactly when the total lies within reach of the floors. */
  lemma RoundedIsExactIff(values: seq<real>, total: int, caps: seq<int>)
    requires |values| == |caps|
    ensures Total(Rounded(values, total, caps)) == total
       <==> Total(Floors(values, caps)) <= total <= Total(Floors(values, caps)) + Room(values, caps)
  {
    RoundedTotal(values, total, caps);
    RoomNonNegative(values, caps);
  }

  lemma RoomNonNegative(values: seq<real>, caps: seq<int>)
    requires |values| == |caps|
    ensures Room(values, caps) >= 0
  {
    TotalNonNegative(Rooms(Floors(values, caps), caps, Indices(|values|)));
  }

  // ------------------------------------------------------------------
  // Who gets the extra ones
  // ------------------------------------------------------------------

  lemma {:induction false} DistributeSteps(floors: seq<int>, caps: seq<int>, order: seq<nat>, shortfall: nat, h: nat)
    requires |floors| == |caps| && Within(order, |floors|) && Distinct(order) && h < |floors|
    ensures var r := Distribute(floors, caps, order, shortfall);
            (r[h] == floors[h] || (r[h] == floors[h] + 1 <= caps[h] && h in order))
    decreases |order|
  {
    if order != [] && shortfall > 0 {
      var o, rest := order[0], order[1..];
      assert o in order && o !in rest;
      if floors[o] < caps[o] {
        DistributeSteps(floors[o := floors[o] + 1], caps, rest, shortfall - 1, h);
      } else {
        DistributeSteps(floors, caps, rest, shortfall, h);
      }
    }
  }

  // Along the order, a position with room is passed over only when nothing is left for later ones.
  lemma {:induction false} DistributeInOrder(
      floors: seq<int>, caps: seq<int>, order: seq<nat>, shortfall: nat, i: nat, j: nat)
    requires |floors| == |caps| && Within(order, |floors|) && Distinct(order)
    requires i < j < |order| && floors[order[i]] < caps[order[i]]
    requires Distribute(floors, caps, order, shortfall)[order[j]] != floors[order[j]]
    ensures Distribute(floors, caps, order, shortfall)[order[i]] == floors[order[i]] + 1
    decreases |order|
  {
    var o, rest := order[0], order[1..];
    assert o in order && o !in rest && rest[j - 1] == order[j];
    if shortfall > 0 {
      if floors[o] < caps[o] {
        var raised := floors[o := floors[o] + 1];
        if i == 0 {
          DistributeSteps(raised, caps, rest, shortfall - 1, o);
        } else {
          DistributeInOrder(raised, caps, rest, shortfall - 1, i - 1, j - 1);
        }
      } else {
        DistributeInOrder(floors, caps, rest, shortfall, i - 1, j - 1);
      }
    }
  }

  /** Every count is its floor or one more, never past its cap. */
  lemma RoundedSteps(values: seq<real>, total: int, caps: seq<int>, h: nat)
    requires |values| == |caps| && h < |values|
    ensures var r, low := Rounded(values, total, caps), Min(values[h].Floor, caps[h]);
            |r| == |values| && (r[h] == low || r[h] == low + 1 <= caps[h])
  {
    RankedPermutes(values);
    var floors := Floors(values, caps);
    if total > Total(floors) {
      DistributeSteps(floors, caps, Ranked(values), total - Total(floors), h);
    }
  }

  /** The extra ones go by remainder: a stratum with room is passed over only for strata that rank
      before it. */
  lemma RemaindersDecide(values: seq<real>, total: int, caps: seq<int>, g: nat, h: nat)
    requires |values| == |caps| && g < |values| && h < |values|
    requires |Rounded(values, total, caps)| == |values|
    requires Rounded(values, total, caps)[h] > Min(values[h].Floor, caps[h])
    requires Rounded(values, total, caps)[g] == Min(values[g].Floor, caps[g]) < caps[g]
    ensures RanksBefore(values, h, g)
  {
    RankedPermutes(values);
    var order, floors := Ranked(values), Floors(values, caps);
    assert g in order && h in order;
    var i :| 0 <= i < |order| && order[i] == g;
    var j :| 0 <= j < |order| && order[j] == h;
    hide Distribute, Ranked, Floors, Permutes, Within, Total;
    if i < j {
      assert Rounded(values, total, caps) == Distribute(floors, caps, order, total - Total(floors));
      DistributeInOrder(floors, caps, order, total - Total(floors), i, j);
    }
  }

  // ------------------------------------------------------------------
  // Values that already add up
  // ------------------------------------------------------------------

  ghost predicate AddUp(values: seq<real>, total: int, caps: seq<int>) {
    |values| == |caps| && Sum(values) == total as real && forall h | 0 <= h < |values| :: values[h] <= caps[h] as real
  }

  // What a whole stratum's floor and room span.
  function Reach(values: seq<real>, caps: seq<int>): seq<int>
    requires |values| == |caps|
  {
    var floors := Floors(values, caps);
    seq(|values|, h requires 0 <= h < |values| => floors[h] + Rooms(floors, caps, Indices(|values|))[h])
  }

  lemma InReach(values: seq<real>, caps: seq<int>, h: nat)
    requires |values| == |caps| && h < |values| && values[h] <= caps[h] as real
    ensures Floors(values, caps)[h] == values[h].Floor
    ensures values[h].Floor as real <= values[h] <= Reach(values, caps)[h] as real
  {
    assert Indices(|values|)[h] == h;
    var floors := Floors(values, caps);
    var room := Rooms(floors, caps, Indices(|values|))[h];
    assert Reach(values, caps)[h] == floors[h] + room;
    assert values[h] > values[h].Floor as real ==> values[h].Floor < caps[h] && room == 1;
  }

  /** Values under their caps that add up to the total are rounded to exactly that total. */
  lemma AddingUpIsExact(values: seq<real>, total: int, caps: seq<int>)
    requires AddUp(values, total, caps)
    ensures Total(Rounded(values, total, caps)) == total
  {
    var floors, reach := Floors(values, caps), Reach(values, caps);
    forall h | 0 <= h < |values| ensures Reals(floors)[h] <= values[h] <= Reals(reach)[h] {
      InReach(values, caps, h);
    }
    SumLe(Reals(floors), values);
    SumLe(values, Reals(reach));
    SumOfInts(floors, Reals(floors));
    SumOfInts(reach, Reals(reach));
    TotalAdd(floors, Rooms(floors, caps, Indices(|values|)), reach);
    RoundedIsExactIff(values, total, caps);
  }

  /** And no count is a whole unit away from its value: only a positive remainder is rounded up. */
  lemma AddingUpKeepsQuota(values: seq<real>, total: int, caps: seq<int>, h: nat)
    requires AddUp(values, total, caps) && h < |values|
    ensures |Rounded(values, total, caps)| == |values|
    ensures values[h] - 1.0 < Rounded(values, total, caps)[h] as real < values[h] + 1.0
  {
    var r := Rounded(values, total, caps);
    RoundedSteps(values, total, caps, h);
    InReach(values, caps, h);
    if r[h] as real >= values[h] + 1.0 {
      forall g | 0 <= g < |values| ensures values[g] <= Reals(r)[g] {
        RaisedFirst(values, total, caps, g, h);
      }
      assert values[h] < Reals(r)[h];
      SumLe(values, Reals(r));
      SumOfInts(r, Reals(r));
      AddingUpIsExact(values, total, caps);
      assert false;
    }
  }

  // If a stratum with no remainder was raised, everyone else is already at or above their value.
  lemma RaisedFirst(values: seq<real>, total: int, caps: seq<int>, g: nat, h: nat)
    requires AddUp(values, total, caps) && g < |values| && h < |values|
    requires |Rounded(values, total, caps)| == |values|
    requires Rounded(values, total, caps)[h] as real >= values[h] + 1.0
    ensures values[g] <= Rounded(values, total, caps)[g] as real
  {
    InReach(values, caps, g);
    InReach(values, caps, h);
    RoundedSteps(values, total, caps, g);
    RoundedSteps(values, total, caps, h);
    if Rounded(values, total, caps)[g] == values[g].Floor && values[g].Floor as real < values[g] {
      RemaindersDecide(values, total, caps, g, h);
      assert false;
    }
  }
}
