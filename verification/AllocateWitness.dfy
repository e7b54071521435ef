/** Two runs of the allocator that do not deliver the requested total (measurement/vvr.py). */
module AllocationWitnesses {
  import opened Prelude
  import opened Sums
  import opened WaterFilling
  import opened WaterLevels
  import opened Rounding
  import opened Allocations

  lemma Total2(a: int, b: int)
    ensures Total([a, b]) == a + b
  {
    assert [a, b][1..] == [b] && Total([b]) == b;
  }

  lemma Sum2(a: real, b: real)
    ensures Sum([a, b]) == a + b
  {
    assert [a, b][1..] == [b] && Sum([b]) == b;
  }

  lemma Total3(a: int, b: int, c: int)
    ensures Total([a, b, c]) == a + b + c
  {
    assert [a, b, c][1..] == [b, c];
    Total2(b, c);
  }

  lemma Sum3(a: real, b: real, c: real)
    ensures Sum([a, b, c]) == a + b + c
  {
    assert [a, b, c][1..] == [b, c];
    Sum2(b, c);
  }

  lemma Count3(a: Mark, b: Mark, c: Mark)
    ensures FreeCount([a, b, c]) == (if a == Free then 1 else 0) + FreeCount([b, c])
  {
    assert [a, b, c][1..] == [b, c];
  }

  lemma Count2(a: Mark, b: Mark)
    ensures FreeCount([a, b]) == (if a == Free then 1 else 0) + (if b == Free then 1 else 0)
  {
    assert [a, b][1..] == [b] && FreeCount([b]) == (if b == Free then 1 else 0);
  }

  /** Sizes 100 and 10, prior rates one half and the floor, at least 2 each: of 105 views asked for,
      103 are delivered. `key` is the second stratum's Neyman key, 10 * sqrt(p(1 - p)) for a p at or
      below the rate floor. */
  function ShortProblem(key: real): Problem {
    Problem([50.0, key], [100, 10], 105, 2)
  }

  lemma ShortRound(key: real)
    requires 0.0 <= key <= 0.1
    ensures Start(ShortProblem(key)) == [Free, Free] && FreeCount([Free, Free]) == 2 && FreeCount([AtCap, AtMin]) == 0
    ensures Round(ShortProblem(key), [Free, Free]) == [AtCap, AtMin]
  {
    var p, marks := ShortProblem(key), [Free, Free];
    assert Start(p) == marks;
    Count2(Free, Free);
    Count2(AtCap, AtMin);
    assert FreeKeys(p, marks) == [50.0, key];
    Sum2(50.0, key);
    assert Pinned(p, marks) == [0, 0];
    Total2(0, 0);
    var keyTotal := 50.0 + key;
    QuotientOver(105.0 * 50.0, keyTotal, 100.0);
    QuotientUnder(105.0 * key, keyTotal, 2.0);
    assert Target(p, marks, 0) > 100.0 && Target(p, marks, 1) < 2.0;
    assert Round(p, marks)[0] == AtCap && Round(p, marks)[1] == AtMin;
  }

  lemma QuotientOver(a: real, b: real, c: real)
    requires b > 0.0 && a > c * b
    ensures a / b > c
  {
    if a / b <= c {
      ScaleLe(a / b, c, b);
    }
  }

  lemma QuotientUnder(a: real, b: real, c: real)
    requires b > 0.0 && a < c * b
    ensures a / b < c
  {
    if a / b >= c {
      ScaleLe(c, a / b, b);
    }
  }

  lemma ShortfallExists(key: real)
    requires 0.0 <= key <= 0.1
    ensures var p := ShortProblem(key);
            WellPosed(p) && Allocated(p).Ok? && Total(Allocated(p).value) == 103 < p.total
  {
    var p := ShortProblem(key);
    ShortRound(key);
    var fin := [AtCap, AtMin];
    assert Fill(p, fin) == fin;
    assert Fill(p, Start(p)) == fin;
    assert Caps(p) == [100, 10] && Lows(p) == [2, 2];
    Total2(100, 10);
    Total2(2, 2);
    assert p.sizes[0] > 0;
    AllPinned(p, fin);
    assert Pinned(p, fin) == [100, 2] && Raisable(p, fin) == [0, 1];
    Total2(100, 2);
    Total2(0, 1);
    RoundedTotal(Shares(p, fin), p.total, Caps(p));
  }

  /** Sizes 10, 2 and 3, at least 2 each: of 13 views asked for, 14 are delivered. */
  const LONG_PROBLEM: Problem := Problem([10.9, 0.05, 2.05], [10, 2, 3], 13, 2)

  lemma LongFirstRound()
    ensures Start(LONG_PROBLEM) == [Free, Free, Free] && FreeCount([Free, Free, Free]) == 3
    ensures Round(LONG_PROBLEM, [Free, Free, Free]) == [AtCap, AtMin, Free]
  {
    var p, marks := LONG_PROBLEM, [Free, Free, Free];
    assert Start(p) == marks;
    Count3(Free, Free, Free);
    Count2(Free, Free);
    assert FreeKeys(p, marks) == [10.9, 0.05, 2.05];
    Sum3(10.9, 0.05, 2.05);
    assert Pinned(p, marks) == [0, 0, 0];
    Total3(0, 0, 0);
    assert Target(p, marks, 0) == 10.9 && Target(p, marks, 1) == 0.05 && Target(p, marks, 2) == 2.05;
    assert Round(p, marks)[0] == AtCap && Round(p, marks)[1] == AtMin && Round(p, marks)[2] == Free;
  }

  lemma LongSecondRound()
    ensures FreeCount([AtCap, AtMin, Free]) == 1 && FreeCount([AtCap, AtMin, AtMin]) == 0
    ensures Round(LONG_PROBLEM, [AtCap, AtMin, Free]) == [AtCap, AtMin, AtMin]
  {
    var p, marks := LONG_PROBLEM, [AtCap, AtMin, Free];
    Count3(AtCap, AtMin, Free);
    Count2(AtMin, Free);
    Count3(AtCap, AtMin, AtMin);
    Count2(AtMin, AtMin);
    assert FreeKeys(p, marks) == [0.0, 0.0, 2.05];
    Sum3(0.0, 0.0, 2.05);
    assert Pinned(p, marks) == [10, 2, 0];
    Total3(10, 2, 0);
    assert Target(p, marks, 2) == 1.0;
    assert Round(p, marks)[0] == AtCap && Round(p, marks)[1] == AtMin && Round(p, marks)[2] == AtMin;
  }

  lemma LongFill()
    ensures Fill(LONG_PROBLEM, Start(LONG_PROBLEM)) == [AtCap, AtMin, AtMin]
  {
    var p := LONG_PROBLEM;
    LongFirstRound();
    LongSecondRound();
    hide Round, Start;
    assert Fill(p, [AtCap, AtMin, AtMin]) == [AtCap, AtMin, AtMin];
    assert Fill(p, [AtCap, AtMin, Free]) == [AtCap, AtMin, AtMin];
    assert Fill(p, [Free, Free, Free]) == [AtCap, AtMin, AtMin];
  }

  lemma OvershootExists()
    ensures WellPosed(LONG_PROBLEM) && Allocated(LONG_PROBLEM) == Ok([10, 2, 2])
    ensures Total(Allocated(LONG_PROBLEM).value) == 14 > LONG_PROBLEM.total
  {
    var p, fin := LONG_PROBLEM, [AtCap, AtMin, AtMin];
    LongSecondRound();
    LongFill();
    hide Fill, Start, Round, Shares;
    assert Caps(p) == [10, 2, 3] && Lows(p) == [2, 2, 2];
    Total3(10, 2, 3);
    Total3(2, 2, 2);
    assert p.sizes[0] > 0;
    AllPinned(p, fin);
    assert Pinned(p, fin) == [10, 2, 2];
    Total3(10, 2, 2);
  }
}
