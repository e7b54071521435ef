/** Every sample an allocation can draw, and sums over all of them (measurement/vvr.py draws without
    replacement, from each stratum on its own). */
module Drawing {
  import opened Prelude
  import opened Sums
  import opened Sampling

  // ------------------------------------------------------------------
  // Every draw of one stratum
  // ------------------------------------------------------------------

  function Without(a: seq<nat>, i: nat): (r: seq<nat>)
    requires i < |a|
    ensures |r| == |a| - 1
  {
    a[..i] + a[i + 1..]
  }

  function Prefixed<T>(x: T, tails: seq<seq<T>>): seq<seq<T>> {
    seq(|tails|, k requires 0 <= k < |tails| => [x] + tails[k])
  }

  /** Every way to draw n without replacement, in the order they are drawn. */
  function Draws(a: seq<nat>, n: nat): seq<seq<nat>>
    decreases n, |a| + 1
  {
    if n == 0 then [[]] else DrawsBy(a, n, |a|)
  }

  // Those that begin with one of the first i.
  function DrawsBy(a: seq<nat>, n: nat, i: nat): seq<seq<nat>>
    requires 0 < n && i <= |a|
    decreases n, i
  {
    if i == 0 then [] else DrawsBy(a, n, i - 1) + Prefixed(a[i - 1], Draws(Without(a, i - 1), n - 1))
  }

  lemma WithoutIs(a: seq<nat>, i: nat)
    requires Distinct(a) && i < |a|
    ensures Distinct(Without(a, i))
    ensures forall x :: x in Without(a, i) <==> x in a && x != a[i]
  {
    var rest := Without(a, i);
    assert forall k | 0 <= k < |rest| :: rest[k] == a[if k < i then k else k + 1];
    forall x ensures x in rest <==> x in a && x != a[i] {
      if x in a && x != a[i] {
        var k :| 0 <= k < |a| && a[k] == x;
        assert x == rest[if k < i then k else k - 1];
      }
    }
  }

  // A draw from what one place leaves, put behind that place.
  lemma DrawnBehind(a: seq<nat>, n: nat, i: nat, d: seq<nat>)
    requires Distinct(a) && i < |a| && 0 < n && d != []
    ensures DrawnFrom(a, n, d) && d[0] == a[i] <==> d[0] == a[i] && DrawnFrom(Without(a, i), n - 1, d[1..])
  {
    WithoutIs(a, i);
    var tail := d[1..];
    assert forall k | 0 <= k < |tail| :: tail[k] == d[k + 1];
    if d[0] == a[i] && DrawnFrom(Without(a, i), n - 1, tail) {
      forall k | 0 <= k < |d| ensures d[k] in a && (k > 0 ==> d[k] != a[i]) {
        if k > 0 {
          assert d[k] == tail[k - 1];
        }
      }
      forall j, k | 0 <= j < k < |d| ensures d[j] != d[k] {
        assert d[k] == tail[k - 1] && (j > 0 ==> d[j] == tail[j - 1]);
      }
    }
  }

  /** The enumeration is exact: it lists what a draw may return, and nothing else. */
  lemma {:induction false} DrawsAreAll(a: seq<nat>, n: nat, d: seq<nat>)
    requires Distinct(a)
    ensures d in Draws(a, n) <==> DrawnFrom(a, n, d)
    decreases n, |a| + 1
  {
    if n > 0 {
      DrawsByAreAll(a, n, |a|, d);
      if DrawnFrom(a, n, d) {
        assert d[0] in a;
      }
    }
  }

  lemma {:induction false} DrawsByAreAll(a: seq<nat>, n: nat, i: nat, d: seq<nat>)
    requires Distinct(a) && 0 < n && i <= |a|
    ensures d in DrawsBy(a, n, i) <==> DrawnFrom(a, n, d) && d[0] in a[..i]
    decreases n, i
  {
    if i > 0 {
      var last, rest := a[i - 1], Without(a, i - 1);
      DrawsByAreAll(a, n, i - 1, d);
      PrefixedIs(last, Draws(rest, n - 1), d);
      WithoutIs(a, i - 1);
      assert a[..i] == a[..i - 1] + [last];
      if d != [] {
        DrawsAreAll(rest, n - 1, d[1..]);
        DrawnBehind(a, n, i - 1, d);
      }
    }
  }

  lemma PrefixedIs<T>(x: T, tails: seq<seq<T>>, d: seq<T>)
    ensures d in Prefixed(x, tails) <==> d != [] && d[0] == x && d[1..] in tails
  {
    if d in Prefixed(x, tails) {
      var k :| 0 <= k < |tails| && d == [x] + tails[k];
      assert d[1..] == tails[k];
    }
    if d != [] && d[0] == x && d[1..] in tails {
      var k :| 0 <= k < |tails| && tails[k] == d[1..];
      assert d == [x] + tails[k] == Prefixed(x, tails)[k];
    }
  }

  lemma PrefixedDistinct<T(!new)>(x: T, tails: seq<seq<T>>)
    requires Distinct(tails)
    ensures Distinct(Prefixed(x, tails))
  {
    var all := Prefixed(x, tails);
    forall j, k | 0 <= j < k < |all| ensures all[j] != all[k] {
      assert all[j][1..] == tails[j] && all[k][1..] == tails[k];
    }
  }

  lemma DistinctConcat<T(!new)>(xs: seq<T>, ys: seq<T>)
    requires Distinct(xs) && Distinct(ys) && forall x | x in xs :: x !in ys
    ensures Distinct(xs + ys)
  {
    var all := xs + ys;
    forall j, k | 0 <= j < k < |all| ensures all[j] != all[k] {
      if j < |xs| <= k {
        assert all[j] in xs && all[k] in ys;
      }
    }
  }

  /** No draw is listed twice, so each weighs the same. */
  lemma {:induction false} DrawsAreDistinct(a: seq<nat>, n: nat)
    requires Distinct(a)
    ensures Distinct(Draws(a, n))
    decreases n, |a| + 1
  {
    if n > 0 {
      DrawsByAreDistinct(a, n, |a|);
    }
  }

  lemma {:induction false} DrawsByAreDistinct(a: seq<nat>, n: nat, i: nat)
    requires Distinct(a) && 0 < n && i <= |a|
    ensures Distinct(DrawsBy(a, n, i))
    decreases n, i
  {
    if i > 0 {
      var before, after := DrawsBy(a, n, i - 1), Prefixed(a[i - 1], Draws(Without(a, i - 1), n - 1));
      DrawsByAreDistinct(a, n, i - 1);
      WithoutIs(a, i - 1);
      DrawsAreDistinct(Without(a, i - 1), n - 1);
      PrefixedDistinct(a[i - 1], Draws(Without(a, i - 1), n - 1));
      forall d | d in before ensures d !in after {
        DrawsByAreAll(a, n, i - 1, d);
        PrefixedIs(a[i - 1], Draws(Without(a, i - 1), n - 1), d);
        var k :| 0 <= k < i - 1 && a[k] == d[0];
      }
      DistinctConcat(before, after);
    }
  }

  // ------------------------------------------------------------------
  // What the draws of one stratum find
  // ------------------------------------------------------------------

  /** m (m - 1) ... : how many ways to draw n out of m. */
  function Falling(m: nat, n: nat): nat {
    if n == 0 then 1 else if m == 0 then 0 else m * Falling(m - 1, n - 1)
  }

  function Mark(truth: seq<bool>, x: nat): nat { if x < |truth| && truth[x] then 1 else 0 }

  /** How many violative views a draw holds. */
  function Found(truth: seq<bool>, d: seq<nat>): nat {
    if d == [] then 0 else Mark(truth, d[0]) + Found(truth, d[1..])
  }

  function FoundIn(truth: seq<bool>, ds: seq<seq<nat>>): seq<int> {
    seq(|ds|, k requires 0 <= k < |ds| => Found(truth, ds[k]))
  }

  lemma {:induction false} FoundIsCount(truth: seq<bool>, d: seq<nat>)
    requires Inside(d, |truth|)
    ensures Found(truth, d) == CountTrue(Pick(truth, d))
  {
    if d != [] {
      FoundIsCount(truth, d[1..]);
      assert Pick(truth, d)[1..] == Pick(truth, d[1..]);
    }
  }

  lemma {:induction false} FoundAppend(truth: seq<bool>, a: seq<nat>, b: seq<nat>)
    ensures Found(truth, a + b) == Found(truth, a) + Found(truth, b)
  {
    if a == [] {
      assert a + b == b;
    } else {
      assert (a + b)[1..] == a[1..] + b;
      FoundAppend(truth, a[1..], b);
    }
  }

  lemma FoundWithout(truth: seq<bool>, a: seq<nat>, i: nat)
    requires i < |a|
    ensures Found(truth, Without(a, i)) == Found(truth, a) - Mark(truth, a[i])
  {
    assert a == a[..i] + ([a[i]] + a[i + 1..]);
    FoundAppend(truth, a[..i], [a[i]] + a[i + 1..]);
    FoundAppend(truth, [a[i]], a[i + 1..]);
    FoundAppend(truth, a[..i], a[i + 1..]);
    assert Found(truth, [a[i]]) == Mark(truth, a[i]);
  }

  lemma {:induction false} DrawsNumber(a: seq<nat>, n: nat)
    ensures |Draws(a, n)| == Falling(|a|, n)
    decreases n, |a| + 1
  {
    if n > 0 {
      DrawsByNumber(a, n, |a|);
    }
  }

  lemma {:induction false} DrawsByNumber(a: seq<nat>, n: nat, i: nat)
    requires 0 < n && i <= |a|
    ensures |DrawsBy(a, n, i)| == if i == 0 then 0 else i * Falling(|a| - 1, n - 1)
    decreases n, i
  {
    hide Falling;
    if i > 0 {
      DrawsByNumber(a, n, i - 1);
      DrawsNumber(Without(a, i - 1), n - 1);
      var each := Falling(|a| - 1, n - 1);
      assert |DrawsBy(a, n, i)| == |DrawsBy(a, n, i - 1)| + each;
      OneMoreOf(i, each);
    }
  }

  lemma OneMoreOf(i: nat, each: int)
    requires i > 0
    ensures i * each == (if i == 1 then 0 else (i - 1) * each) + each
  {
  }

  lemma Distributes(x: int, y: int, z: int)
    ensures (x + y) * z == x * z + y * z
  {
  }

  lemma {:induction false} FoundBehind(truth: seq<bool>, x: nat, tails: seq<seq<nat>>)
    ensures Total(FoundIn(truth, Prefixed(x, tails))) == |tails| * Mark(truth, x) + Total(FoundIn(truth, tails))
  {
    if tails != [] {
      var all := FoundIn(truth, Prefixed(x, tails));
      FoundBehind(truth, x, tails[1..]);
      assert all[1..] == FoundIn(truth, Prefixed(x, tails[1..]));
      assert FoundIn(truth, tails)[1..] == FoundIn(truth, tails[1..]);
      FoundAppend(truth, [x], tails[0]);
      assert Found(truth, [x]) == Mark(truth, x);
      Distributes(|tails| - 1, 1, Mark(truth, x));
    }
  }

  /** Every place is drawn equally often: over all draws of n out of m, the violative views found come to
      n times the violative views there are, times the draws of the other n - 1. */
  lemma {:induction false} DrawsFind(truth: seq<bool>, a: seq<nat>, n: nat)
    requires 1 <= n <= |a|
    ensures Total(FoundIn(truth, Draws(a, n))) == n * (Found(truth, a) * Falling(|a| - 1, n - 1))
    decreases n, |a| + 1
  {
    DrawsByFind(truth, a, n, |a|);
    assert a[..|a|] == a;
    if n > 1 {
      FallingStep(|a| - 1, n - 1);
      hide Found, Falling, FoundSum;
      AllPlaces(|a| - 1, n - 1, Found(truth, a), Falling(|a| - 2, n - 2), Falling(|a| - 1, n - 1));
    }
  }

  // What the draws that begin with one of the first i places find, of more than one: each place's own mark
  // in front of every draw of the rest, and what the rest find.
  function FoundSum(m: int, n: int, hits: int, g: int, found: int, i: int): int {
    g * (m * found + n * (i * hits - found))
  }

  lemma AllPlaces(m: int, n: int, hits: int, g: int, each: int)
    requires each == m * g
    ensures FoundSum(m, n, hits, g, hits, m + 1) == (n + 1) * (hits * each)
  {
    var p := m * hits;
    assert (m + 1) * hits - hits == p;
    Distributes(n, 1, p);
    Regroup(g, n + 1, m, hits);
  }

  lemma Regroup(g: int, n: int, m: int, hits: int)
    ensures g * (n * (m * hits)) == n * (hits * (m * g))
  {
  }

  lemma {:induction false} DrawsByFind(truth: seq<bool>, a: seq<nat>, n: nat, i: nat)
    requires 1 <= n <= |a| && i <= |a|
    ensures var found, hits := Found(truth, a[..i]), Found(truth, a);
            Total(FoundIn(truth, DrawsBy(a, n, i))) ==
            if n == 1 then found else FoundSum(|a| - 1, n - 1, hits, Falling(|a| - 2, n - 2), found, i)
    decreases n, i
  {
    hide Falling, Mark, FoundSum;
    if i > 0 {
      hide Draws, DrawsBy, FoundIn, Total;
      var x, rest := a[i - 1], Without(a, i - 1);
      DrawsByFind(truth, a, n, i - 1);
      FoundUpTo(truth, a, n, i);
      FoundWithout(truth, a, i - 1);
      assert a[..i] == a[..i - 1] + [x];
      FoundAppend(truth, a[..i - 1], [x]);
      assert Found(truth, [x]) == Mark(truth, x);
      var hits, found, mark := Found(truth, a), Found(truth, a[..i - 1]), Mark(truth, x);
      DrawsNumber(rest, n - 1);
      if n > 1 {
        DrawsFind(truth, rest, n - 1);
        FallingStep(|a| - 1, n - 1);
        var g, tails := Falling(|a| - 2, n - 2), Draws(rest, n - 1);
        hide Found, Without;
        OnePlace(|a| - 1, n - 1, hits, g, found, mark, i - 1, |tails|, Total(FoundIn(truth, tails)));
      } else {
        OnlyPlace(truth, rest, mark);
      }
    } else {
      assert a[..0] == [];
      NoPlace(|a| - 1, n - 1, Found(truth, a), if n > 1 then Falling(|a| - 2, n - 2) else 0);
    }
  }

  lemma NoPlace(m: int, n: int, hits: int, g: int)
    ensures FoundSum(m, n, hits, g, 0, 0) == 0
  {
  }

  lemma OnlyPlace(truth: seq<bool>, rest: seq<nat>, mark: nat)
    ensures |Draws(rest, 0)| * mark + Total(FoundIn(truth, Draws(rest, 0))) == mark
  {
    assert FoundIn(truth, [[]]) == [0];
  }

  lemma FoundUpTo(truth: seq<bool>, a: seq<nat>, n: nat, i: nat)
    requires 0 < n && 0 < i <= |a|
    ensures var tails := Draws(Without(a, i - 1), n - 1);
            Total(FoundIn(truth, DrawsBy(a, n, i))) ==
            Total(FoundIn(truth, DrawsBy(a, n, i - 1))) + (|tails| * Mark(truth, a[i - 1]) + Total(FoundIn(truth, tails)))
  {
    var tails := Draws(Without(a, i - 1), n - 1);
    var before, after := DrawsBy(a, n, i - 1), Prefixed(a[i - 1], tails);
    hide Found;
    assert FoundIn(truth, before + after) == FoundIn(truth, before) + FoundIn(truth, after);
    TotalAppend(FoundIn(truth, before), FoundIn(truth, after));
    FoundBehind(truth, a[i - 1], tails);
  }

  lemma OnePlace(m: int, n: int, hits: int, g: int, found: int, mark: int, i: int, tails: int, rest: int)
    requires tails == m * g && rest == n * ((hits - mark) * g)
    ensures FoundSum(m, n, hits, g, found, i) + (tails * mark + rest) == FoundSum(m, n, hits, g, found + mark, i + 1)
  {
    var u, v := m * found + n * (i * hits - found), m * mark + n * (hits - mark);
    OwnPlace(m, n, g, mark, hits - mark);
    PlaceSum(m, n, hits, found, mark, i);
    Distributes(u, v, g);
  }

  lemma OwnPlace(m: int, n: int, g: int, mark: int, others: int)
    ensures (m * mark + n * others) * g == (m * g) * mark + n * (others * g)
  {
    Distributes(m * mark, n * others, g);
  }

  lemma PlaceSum(m: int, n: int, hits: int, found: int, mark: int, i: int)
    ensures m * found + n * (i * hits - found) + (m * mark + n * (hits - mark))
         == m * (found + mark) + n * ((i + 1) * hits - (found + mark))
  {
    Distributes(i, 1, hits);
    var a, b := i * hits - found, hits - mark;
    assert (i + 1) * hits - (found + mark) == a + b;
    assert n * (a + b) == n * a + n * b;
  }

  lemma FallingStep(m: nat, n: nat)
    requires m > 0 && n > 0
    ensures Falling(m, n) == m * Falling(m - 1, n - 1)
  {
  }

  // ------------------------------------------------------------------
  // Pairs
  // ------------------------------------------------------------------

  /** How many ordered pairs of violative views a draw holds. */
  function Pairs(truth: seq<bool>, d: seq<nat>): int { Found(truth, d) * (Found(truth, d) - 1) }

  function PairsIn(truth: seq<bool>, ds: seq<seq<nat>>): seq<int> {
    seq(|ds|, k requires 0 <= k < |ds| => Pairs(truth, ds[k]))
  }

  lemma PairsWith(truth: seq<bool>, x: nat, d: seq<nat>)
    ensures Pairs(truth, [x] + d) == 2 * Mark(truth, x) * Found(truth, d) + Pairs(truth, d)
  {
    FoundAppend(truth, [x], d);
    assert Found(truth, [x]) == Mark(truth, x);
    var m: int, c: int := Mark(truth, x), Found(truth, d);
    assert Found(truth, [x] + d) == m + c;
    if m == 0 {
      assert 2 * 0 * c == 0;
    } else {
      assert (1 + c) * c == c * (c - 1) + 2 * c;
    }
  }

  lemma {:induction false} PairsBehind(truth: seq<bool>, x: nat, tails: seq<seq<nat>>)
    ensures Total(PairsIn(truth, Prefixed(x, tails)))
         == 2 * Mark(truth, x) * Total(FoundIn(truth, tails)) + Total(PairsIn(truth, tails))
  {
    hide Pairs, Found;
    if tails != [] {
      var all := PairsIn(truth, Prefixed(x, tails));
      PairsBehind(truth, x, tails[1..]);
      assert all[1..] == PairsIn(truth, Prefixed(x, tails[1..]));
      assert PairsIn(truth, tails)[1..] == PairsIn(truth, tails[1..]);
      assert FoundIn(truth, tails)[1..] == FoundIn(truth, tails[1..]);
      PairsWith(truth, x, tails[0]);
    }
  }

  lemma {:induction false} NoPairsAlone(truth: seq<bool>, a: seq<nat>, n: nat)
    requires n <= 1 && n <= |a|
    ensures Total(PairsIn(truth, Draws(a, n))) == 0
  {
    var ds := Draws(a, n);
    forall k: nat | k < |ds| ensures PairsIn(truth, ds)[k] == 0 {
      DrawLength(a, n, k);
      AtMostOneFound(truth, ds[k]);
    }
    ZeroTotal(PairsIn(truth, ds));
  }

  lemma AtMostOneFound(truth: seq<bool>, d: seq<nat>)
    requires |d| <= 1
    ensures Pairs(truth, d) == 0
  {
    if d != [] {
      assert Found(truth, d) == Mark(truth, d[0]) + Found(truth, d[1..]);
    }
  }

  lemma {:induction false} DrawLength(a: seq<nat>, n: nat, k: nat)
    requires k < |Draws(a, n)|
    ensures |Draws(a, n)[k]| == n
    decreases n, |a| + 1
  {
    if n > 0 {
      DrawByLength(a, n, |a|, k);
    }
  }

  lemma {:induction false} DrawByLength(a: seq<nat>, n: nat, i: nat, k: nat)
    requires 0 < n && i <= |a| && k < |DrawsBy(a, n, i)|
    ensures |DrawsBy(a, n, i)[k]| == n
    decreases n, i
  {
    var before := DrawsBy(a, n, i - 1);
    if k < |before| {
      DrawByLength(a, n, i - 1, k);
    } else {
      DrawLength(Without(a, i - 1), n - 1, k - |before|);
    }
  }

  /** Every two places are drawn together equally often: the pairs of violative views found come to the
      pairs there are, times the pairs of positions in a draw, times the draws of the other n - 2. */
  lemma {:induction false} DrawsFindPairs(truth: seq<bool>, a: seq<nat>, n: nat)
    requires 2 <= n <= |a|
    ensures Total(PairsIn(truth, Draws(a, n))) == n * (n - 1) * (Pairs(truth, a) * Falling(|a| - 2, n - 2))
    decreases n, |a| + 1
  {
    DrawsByFindPairs(truth, a, n, |a|);
    assert a[..|a|] == a;
    var hits := Found(truth, a);
    if n > 2 {
      AllPairs(|a| - 2, n, hits, Falling(|a| - 3, n - 3));
    } else {
      assert Falling(|a| - 2, n - 2) == 1;
    }
  }

  lemma AllPairs(m: int, n: int, hits: int, g: int)
    ensures PairSum(m, n, hits, g, hits, m + 2) == n * (n - 1) * (hits * (hits - 1) * (m * g))
  {
    assert 2 * m * hits + (n - 2) * ((m + 2) * hits - 2 * hits) == n * (m * hits);
  }

  // What the draws that begin with one of the first i places find, of more than two.
  function PairSum(m: int, n: int, hits: int, g: int, found: int, i: int): int {
    g * ((n - 1) * (hits - 1)) * (2 * m * found + (n - 2) * (i * hits - 2 * found))
  }

  // The same of exactly two.
  function TwoSum(hits: int, found: int): int { 2 * (hits - 1) * found }

  lemma {:induction false} DrawsByFindPairs(truth: seq<bool>, a: seq<nat>, n: nat, i: nat)
    requires 2 <= n <= |a| && i <= |a|
    ensures var found, hits := Found(truth, a[..i]), Found(truth, a);
            Total(PairsIn(truth, DrawsBy(a, n, i))) ==
            if n == 2 then TwoSum(hits, found)
            else PairSum(|a| - 2, n, hits, Falling(|a| - 3, n - 3), found, i)
    decreases n, i
  {
    hide Falling, Mark, Draws, PairSum, TwoSum, Pairs;
    if i > 0 {
      hide DrawsBy, PairsIn, Total;
      DrawsByFindPairs(truth, a, n, i - 1);
      if n > 2 {
        DrawsFindPairs(truth, Without(a, i - 1), n - 1);
      }
      assert a[..i] == a[..i - 1] + [a[i - 1]];
      FoundAppend(truth, a[..i - 1], [a[i - 1]]);
      assert Found(truth, [a[i - 1]]) == Mark(truth, a[i - 1]);
      hide Found, Without;
      PairsStep(truth, a, n, i, Found(truth, a[..i - 1]));
    } else {
      assert a[..0] == [];
      NoPairs(|a| - 2, n, Found(truth, a), if n > 2 then Falling(|a| - 3, n - 3) else 0);
    }
  }

  lemma NoPairs(m: int, n: int, hits: int, g: int)
    ensures PairSum(m, n, hits, g, 0, 0) == 0 && TwoSum(hits, 0) == 0
  {
    assert 2 * m * 0 + (n - 2) * (0 * hits - 2 * 0) == 0;
  }

  lemma PairsStep(truth: seq<bool>, a: seq<nat>, n: nat, i: nat, found: nat)
    requires 2 <= n <= |a| && 0 < i <= |a|
    requires n > 2 ==>
               Total(PairsIn(truth, Draws(Without(a, i - 1), n - 1))) ==
               (n - 1) * (n - 2) * (Pairs(truth, Without(a, i - 1)) * Falling(|a| - 3, n - 3))
    ensures var hits, mark := Found(truth, a), Mark(truth, a[i - 1]);
            Total(PairsIn(truth, DrawsBy(a, n, i))) - Total(PairsIn(truth, DrawsBy(a, n, i - 1))) ==
            if n == 2 then TwoSum(hits, found + mark) - TwoSum(hits, found)
            else PairSum(|a| - 2, n, hits, Falling(|a| - 3, n - 3), found + mark, i)
                 - PairSum(|a| - 2, n, hits, Falling(|a| - 3, n - 3), found, i - 1)
  {
    var hits, mark := Found(truth, a), Mark(truth, a[i - 1]);
    assert mark == 0 || mark == 1;
    PairsUpTo(truth, a, n, i);
    RestFinds(truth, a, n, i);
    var tails := Draws(Without(a, i - 1), n - 1);
    var s, p := Total(FoundIn(truth, tails)), Total(PairsIn(truth, tails));
    hide Found, Mark, Draws, DrawsBy, PairsIn, FoundIn, Total, PairSum, TwoSum, Pairs, Without;
    if n > 2 {
      FallingStep(|a| - 2, n - 2);
      hide Falling;
      OneMorePlace(|a| - 2, n, hits, Falling(|a| - 3, n - 3), found, mark, i - 1, s, p);
    } else {
      NoPairsAlone(truth, Without(a, i - 1), 1);
      SecondPlace(hits, found, mark, s);
    }
  }

  lemma RestFinds(truth: seq<bool>, a: seq<nat>, n: nat, i: nat)
    requires 2 <= n <= |a| && 0 < i <= |a|
    ensures var rest, hits, mark := Without(a, i - 1), Found(truth, a), Mark(truth, a[i - 1]);
            && Total(FoundIn(truth, Draws(rest, n - 1))) == (n - 1) * ((hits - mark) * Falling(|a| - 2, n - 2))
            && Pairs(truth, rest) == (hits - mark) * (hits - mark - 1)
  {
    DrawsFind(truth, Without(a, i - 1), n - 1);
    FoundWithout(truth, a, i - 1);
    hide Draws, FoundIn, Total, Falling, Found, Mark;
  }

  lemma PairsUpTo(truth: seq<bool>, a: seq<nat>, n: nat, i: nat)
    requires 0 < n && 0 < i <= |a|
    ensures var tails := Draws(Without(a, i - 1), n - 1);
            Total(PairsIn(truth, DrawsBy(a, n, i))) ==
            Total(PairsIn(truth, DrawsBy(a, n, i - 1)))
            + (2 * Mark(truth, a[i - 1]) * Total(FoundIn(truth, tails)) + Total(PairsIn(truth, tails)))
  {
    var tails := Draws(Without(a, i - 1), n - 1);
    var before, after := DrawsBy(a, n, i - 1), Prefixed(a[i - 1], tails);
    hide Pairs, Found;
    assert PairsIn(truth, before + after) == PairsIn(truth, before) + PairsIn(truth, after);
    TotalAppend(PairsIn(truth, before), PairsIn(truth, after));
    PairsBehind(truth, a[i - 1], tails);
  }

  lemma SecondPlace(hits: int, found: int, mark: int, s: int)
    requires (mark == 0 || mark == 1) && s == 1 * ((hits - mark) * 1)
    ensures 2 * mark * s == TwoSum(hits, found + mark) - TwoSum(hits, found)
  {
  }

  lemma OneMorePlace(m: int, n: int, hits: int, g: int, found: int, mark: int, i: int, s: int, p: int)
    requires mark == 0 || mark == 1
    requires s == (n - 1) * ((hits - mark) * (m * g))
    requires p == (n - 1) * (n - 2) * ((hits - mark) * (hits - mark - 1) * g)
    ensures PairSum(m, n, hits, g, found, i) + (2 * mark * s + p) == PairSum(m, n, hits, g, found + mark, i + 1)
  {
    var u := g * ((n - 1) * (hits - 1));
    var upto, own := 2 * m * found + (n - 2) * (i * hits - 2 * found), 2 * m * mark + (n - 2) * (hits - 2 * mark);
    if mark == 0 {
      assert s * 0 == 0;
      NothingHere(n - 1, n - 2, hits, hits - 1, g);
    } else {
      PairedHere(m, n - 1, n - 2, hits - 2, hits - 1, g);
    }
    PairedSum(m, n - 2, hits, found, mark, i);
    Distributes(upto, own, u);
  }

  lemma NothingHere(n: int, k: int, hits: int, others: int, g: int)
    ensures n * k * (hits * others * g) == (k * hits) * (g * (n * others))
  {
  }

  lemma PairedHere(m: int, n: int, k: int, rest: int, others: int, g: int)
    ensures 2 * (n * (others * (m * g))) + n * k * (others * rest * g) == (2 * m + k * rest) * (g * (n * others))
  {
    var u := g * (n * others);
    assert n * (others * (m * g)) == m * u;
    assert n * k * (others * rest * g) == (k * rest) * u;
    Distributes(2 * m, k * rest, u);
    assert (2 * m) * u == 2 * (m * u);
  }

  lemma PairedSum(m: int, k: int, hits: int, found: int, mark: int, i: int)
    ensures 2 * m * found + k * (i * hits - 2 * found) + (2 * m * mark + k * (hits - 2 * mark))
         == 2 * m * (found + mark) + k * ((i + 1) * hits - 2 * (found + mark))
  {
    Distributes(i, 1, hits);
    var a, b := i * hits - 2 * found, hits - 2 * mark;
    assert (i + 1) * hits - 2 * (found + mark) == a + b;
    assert k * (a + b) == k * a + k * b;
    assert 2 * m * (found + mark) == 2 * m * found + 2 * m * mark;
  }

  // ------------------------------------------------------------------
  // One from each stratum
  // ------------------------------------------------------------------

  function Cross<T>(xs: seq<T>, tails: seq<seq<T>>): seq<seq<T>> {
    if xs == [] then [] else Prefixed(xs[0], tails) + Cross(xs[1..], tails)
  }

  /** Every way to take one from each list. */
  function Product<T>(lists: seq<seq<T>>): seq<seq<T>> {
    if lists == [] then [[]] else Cross(lists[0], Product(lists[1..]))
  }

  predicate TakenFrom<T(==)>(lists: seq<seq<T>>, c: seq<T>) {
    |c| == |lists| && forall h | 0 <= h < |lists| :: c[h] in lists[h]
  }

  lemma {:induction false} CrossIs<T>(xs: seq<T>, tails: seq<seq<T>>, c: seq<T>)
    ensures c in Cross(xs, tails) <==> c != [] && c[0] in xs && c[1..] in tails
  {
    if xs != [] {
      PrefixedIs(xs[0], tails, c);
      CrossIs(xs[1..], tails, c);
      assert xs == [xs[0]] + xs[1..];
    }
  }

  lemma {:induction false} ProductIs<T>(lists: seq<seq<T>>, c: seq<T>)
    ensures c in Product(lists) <==> TakenFrom(lists, c)
  {
    if lists != [] {
      CrossIs(lists[0], Product(lists[1..]), c);
      if c != [] {
        ProductIs(lists[1..], c[1..]);
        if TakenFrom(lists[1..], c[1..]) && c[0] in lists[0] {
          forall h | 0 <= h < |lists| ensures c[h] in lists[h] {
            assert h > 0 ==> c[h] == c[1..][h - 1] && lists[h] == lists[1..][h - 1];
          }
        }
      }
    }
  }

  lemma {:induction false} CrossDistinct<T(!new)>(xs: seq<T>, tails: seq<seq<T>>)
    requires Distinct(xs) && Distinct(tails)
    ensures Distinct(Cross(xs, tails))
  {
    if xs != [] {
      var first, later := Prefixed(xs[0], tails), Cross(xs[1..], tails);
      assert Distinct(xs[1..]);
      CrossDistinct(xs[1..], tails);
      PrefixedDistinct(xs[0], tails);
      forall c | c in first ensures c !in later {
        PrefixedIs(xs[0], tails, c);
        CrossIs(xs[1..], tails, c);
      }
      DistinctConcat(first, later);
    }
  }

  lemma {:induction false} ProductDistinct<T(!new)>(lists: seq<seq<T>>)
    requires forall h | 0 <= h < |lists| :: Distinct(lists[h])
    ensures Distinct(Product(lists))
  {
    if lists != [] {
      ProductDistinct(lists[1..]);
      CrossDistinct(lists[0], Product(lists[1..]));
    }
  }

  lemma {:induction false} CrossNumber<T>(xs: seq<T>, tails: seq<seq<T>>)
    ensures |Cross(xs, tails)| == |xs| * |tails|
  {
    if xs != [] {
      CrossNumber(xs[1..], tails);
      Distributes(|xs| - 1, 1, |tails|);
    }
  }

  // ------------------------------------------------------------------
  // Adding up over all samples
  // ------------------------------------------------------------------

  function Shifted(x: real, ts: seq<real>): seq<real> { seq(|ts|, k requires 0 <= k < |ts| => x + ts[k]) }

  function Squares(xs: seq<real>): seq<real> { seq(|xs|, k requires 0 <= k < |xs| => Times(xs[k], xs[k])) }

  /** Every number of one list plus every number of the other. */
  function CrossSums(es: seq<real>, ts: seq<real>): seq<real> {
    if es == [] then [] else Shifted(es[0], ts) + CrossSums(es[1..], ts)
  }

  lemma {:induction false} SumAppend(xs: seq<real>, ys: seq<real>)
    ensures Sum(xs + ys) == Sum(xs) + Sum(ys)
  {
    if xs == [] {
      assert xs + ys == ys;
    } else {
      assert (xs + ys)[1..] == xs[1..] + ys;
      SumAppend(xs[1..], ys);
    }
  }

  lemma {:induction false} SumShifted(x: real, ts: seq<real>)
    ensures Sum(Shifted(x, ts)) == Times(|ts| as real, x) + Sum(ts)
    ensures Sum(Squares(Shifted(x, ts)))
         == Times(|ts| as real, Times(x, x)) + 2.0 * Times(x, Sum(ts)) + Sum(Squares(ts))
  {
    if ts != [] {
      SumShifted(x, ts[1..]);
      var all := Shifted(x, ts);
      assert all[1..] == Shifted(x, ts[1..]) && Squares(all)[1..] == Squares(Shifted(x, ts[1..]));
      assert Squares(ts)[1..] == Squares(ts[1..]);
      hide Shifted, Squares, Sum;
      OneMoreShifted(|ts| - 1, x, ts[0], Sum(ts[1..]));
    }
  }

  lemma OneMoreShifted(n: nat, x: real, t: real, rest: real)
    ensures Times((n + 1) as real, x) == x + Times(n as real, x)
    ensures Times(x + t, x + t) + (Times(n as real, Times(x, x)) + 2.0 * Times(x, rest))
         == Times((n + 1) as real, Times(x, x)) + 2.0 * Times(x, t + rest) + Times(t, t)
  {
  }

  lemma {:induction false} SumCross(es: seq<real>, ts: seq<real>)
    ensures Sum(CrossSums(es, ts)) == Times(|ts| as real, Sum(es)) + Times(|es| as real, Sum(ts))
    ensures Sum(Squares(CrossSums(es, ts)))
         == Times(|ts| as real, Sum(Squares(es))) + 2.0 * Times(Sum(es), Sum(ts)) + Times(|es| as real, Sum(Squares(ts)))
  {
    if es != [] {
      var first, later := Shifted(es[0], ts), CrossSums(es[1..], ts);
      SumCross(es[1..], ts);
      SumShifted(es[0], ts);
      SumAppend(first, later);
      assert Squares(first + later) == Squares(first) + Squares(later);
      SumAppend(Squares(first), Squares(later));
      assert Squares(es)[1..] == Squares(es[1..]);
      hide Squares, Sum, Shifted, Times;
      OneMoreRow(|es| - 1, |ts| as real, es[0], Sum(es[1..]), Sum(ts), Sum(Squares(es[1..])), Sum(Squares(ts)), Squares(es)[0]);
    }
  }

  lemma OneMoreRow(n: nat, m: real, e: real, es: real, ts: real, squares: real, squared: real, own: real)
    ensures Times(m, e) + ts + (Times(m, es) + Times(n as real, ts)) == Times(m, e + es) + Times((n + 1) as real, ts)
    ensures Times(m, own) + 2.0 * Times(e, ts) + squared
            + (Times(m, squares) + 2.0 * Times(es, ts) + Times(n as real, squared))
         == Times(m, own + squares) + 2.0 * Times(e + es, ts) + Times((n + 1) as real, squared)
  {
  }

  /** A number for each draw from each stratum. */
  type Valuation = (nat, seq<nat>) -> real

  function Values(v: Valuation, h: nat, ds: seq<seq<nat>>): seq<real> {
    seq(|ds|, k requires 0 <= k < |ds| => v(h, ds[k]))
  }

  /** The sum over one sample, from stratum h on. */
  function ValueFrom(v: Valuation, h: nat, c: seq<seq<nat>>): real
    decreases |c|
  {
    if c == [] then 0.0 else v(h, c[0]) + ValueFrom(v, h + 1, c[1..])
  }

  function ValuesFrom(v: Valuation, h: nat, cs: seq<seq<seq<nat>>>): seq<real> {
    seq(|cs|, k requires 0 <= k < |cs| => ValueFrom(v, h, cs[k]))
  }

  lemma {:induction false} CrossValues(v: Valuation, h: nat, ds: seq<seq<nat>>, tails: seq<seq<seq<nat>>>)
    ensures ValuesFrom(v, h, Cross(ds, tails)) == CrossSums(Values(v, h, ds), ValuesFrom(v, h + 1, tails))
  {
    if ds != [] {
      var first := Prefixed(ds[0], tails);
      CrossValues(v, h, ds[1..], tails);
      forall k: nat | k < |tails|
        ensures ValueFrom(v, h, first[k]) == Shifted(v(h, ds[0]), ValuesFrom(v, h + 1, tails))[k]
      {
        assert first[k][1..] == tails[k];
      }
      assert ValuesFrom(v, h, first) == Shifted(v(h, ds[0]), ValuesFrom(v, h + 1, tails));
      assert Values(v, h, ds)[1..] == Values(v, h, ds[1..]);
      hide ValueFrom;
      assert ValuesFrom(v, h, Cross(ds, tails)) == ValuesFrom(v, h, first) + ValuesFrom(v, h, Cross(ds[1..], tails));
    }
  }

  // The average over each stratum's draws.
  ghost predicate Averages(v: Valuation, h: nat, lists: seq<seq<seq<nat>>>, means: seq<real>) {
    |means| == |lists| &&
    forall i | 0 <= i < |lists| :: Sum(Values(v, h + i, lists[i])) == Times(|lists[i]| as real, means[i])
  }

  lemma AveragesRest(v: Valuation, h: nat, lists: seq<seq<seq<nat>>>, means: seq<real>)
    requires Averages(v, h, lists, means) && lists != []
    ensures Averages(v, h + 1, lists[1..], means[1..])
    ensures Sum(Values(v, h, lists[0])) == Times(|lists[0]| as real, means[0])
  {
    hide Times;
    assert h + 0 == h;
    forall i: nat | i < |lists[1..]|
      ensures Sum(Values(v, h + 1 + i, lists[1..][i])) == Times(|lists[1..][i]| as real, means[1..][i])
    {
      assert h + 1 + i == h + (i + 1) && lists[1..][i] == lists[i + 1];
    }
  }

  /** Over samples drawn from each stratum on its own, averages add up. */
  lemma {:induction false} ProductAverage(v: Valuation, h: nat, lists: seq<seq<seq<nat>>>, means: seq<real>)
    requires Averages(v, h, lists, means)
    ensures Sum(ValuesFrom(v, h, Product(lists))) == Times(|Product(lists)| as real, Sum(means))
    decreases |lists|
  {
    hide Times, Cross, CrossSums;
    if lists == [] {
      assert ValuesFrom(v, h, Product(lists)) == [0.0];
      TimesZero(1 as real);
    } else {
      var tails := Product(lists[1..]);
      AveragesRest(v, h, lists, means);
      ProductAverage(v, h + 1, lists[1..], means[1..]);
      CrossValues(v, h, lists[0], tails);
      SumCross(Values(v, h, lists[0]), ValuesFrom(v, h + 1, tails));
      CrossNumber(lists[0], tails);
      hide Values, ValuesFrom, Averages;
      MeanOfBoth(|lists[0]|, |tails|, means[0], Sum(means[1..]));
    }
  }

  lemma TimesZero(x: real)
    ensures Times(x, 0.0) == Times(0.0, x) == 0.0
  {
  }

  lemma MeanOfBoth(m: nat, n: nat, x: real, y: real)
    ensures Times(n as real, Times(m as real, x)) + Times(m as real, Times(n as real, y)) == Times((m * n) as real, x + y)
  {
    var a, b := m as real, n as real;
    assert (m * n) as real == a * b;
    assert b * (a * x) == (a * b) * x && a * (b * y) == (a * b) * y;
  }

  // Values that cancel out in each stratum, and the average of their squares.
  ghost predicate Centred(v: Valuation, h: nat, lists: seq<seq<seq<nat>>>, spreads: seq<real>) {
    |spreads| == |lists| &&
    forall i | 0 <= i < |lists| ::
      && Sum(Values(v, h + i, lists[i])) == 0.0
      && Sum(Squares(Values(v, h + i, lists[i]))) == Times(|lists[i]| as real, spreads[i])
  }

  lemma CentredRest(v: Valuation, h: nat, lists: seq<seq<seq<nat>>>, spreads: seq<real>)
    requires Centred(v, h, lists, spreads) && lists != []
    ensures Centred(v, h + 1, lists[1..], spreads[1..])
    ensures Sum(Values(v, h, lists[0])) == 0.0
    ensures Sum(Squares(Values(v, h, lists[0]))) == Times(|lists[0]| as real, spreads[0])
  {
    hide Times, Squares;
    assert h + 0 == h;
    forall i: nat | i < |lists[1..]|
      ensures Sum(Values(v, h + 1 + i, lists[1..][i])) == 0.0
      ensures Sum(Squares(Values(v, h + 1 + i, lists[1..][i]))) == Times(|lists[1..][i]| as real, spreads[1..][i])
    {
      assert h + 1 + i == h + (i + 1) && lists[1..][i] == lists[i + 1];
    }
  }

  /** Over samples drawn from each stratum on its own, what cancels out in each cancels out in all, and the
      average squares add up: no stratum's error moves with another's. */
  lemma {:induction false} ProductSquares(v: Valuation, h: nat, lists: seq<seq<seq<nat>>>, spreads: seq<real>)
    requires Centred(v, h, lists, spreads)
    ensures Sum(ValuesFrom(v, h, Product(lists))) == 0.0
    ensures Sum(Squares(ValuesFrom(v, h, Product(lists)))) == Times(|Product(lists)| as real, Sum(spreads))
    decreases |lists|
  {
    hide Times, Cross, CrossSums;
    if lists == [] {
      assert ValuesFrom(v, h, Product(lists)) == [0.0];
      assert Squares([0.0]) == [Times(0.0, 0.0)];
      TimesZero(1 as real);
      TimesZero(0.0);
    } else {
      var tails := Product(lists[1..]);
      CentredRest(v, h, lists, spreads);
      ProductSquares(v, h + 1, lists[1..], spreads[1..]);
      CrossValues(v, h, lists[0], tails);
      SumCross(Values(v, h, lists[0]), ValuesFrom(v, h + 1, tails));
      CrossNumber(lists[0], tails);
      hide Squares, Values, ValuesFrom, Centred;
      TimesZero(|tails| as real);
      TimesZero(|lists[0]| as real);
      TimesZero(0.0);
      MeanOfBoth(|lists[0]|, |tails|, spreads[0], Sum(spreads[1..]));
    }
  }
}
