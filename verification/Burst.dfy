/** The largest burst of comments inside any 24-hour window (orchestrator/detection_stub.py). */
module Bursts {
  import opened Sorting

  /** Timestamps are microseconds on one clock. */
  const VELOCITY_WINDOW: int := 24 * 3600 * 1_000_000

  ghost predicate WithinWindow(times: multiset<int>) {
    forall x, y | x in times && y in times :: x - y <= VELOCITY_WINDOW
  }

  /** n is the size of the largest part of the timestamps whose spread is at most one window. */
  ghost predicate LargestBurst(times: seq<int>, n: nat) {
    && (exists part: multiset<int> :: part <= multiset(times) && WithinWindow(part) && |part| == n)
    && (forall part: multiset<int> | part <= multiset(times) && WithinWindow(part) :: |part| <= n)
  }

  ghost predicate Ascending(s: seq<int>) { forall i, j | 0 <= i < j < |s| :: s[i] <= s[j] }

  // The window that ends at `end` starts at `start`: no earlier start would fit.
  ghost predicate WindowStart(s: seq<int>, start: nat, end: nat) {
    && start <= end < |s|
    && s[end] - s[start] <= VELOCITY_WINDOW
    && forall k | 0 <= k < start :: s[end] - s[k] > VELOCITY_WINDOW
  }

  lemma SortedTimes(times: seq<int>)
    ensures var s := Sort((x: int, y: int) => x <= y, times);
            Ascending(s) && multiset(s) == multiset(times) && |s| == |times|
  {
    SortKeeps((x: int, y: int) => x <= y, times);
  }

  // None of the part's times stand outside the window.
  lemma OutsideWindow(s: seq<int>, part: multiset<int>, start: nat, end: nat, x: int)
    requires WindowStart(s, start, end) && WithinWindow(part) && x in part
    requires s[end] in part && forall k | end < k < |s| :: s[k] !in part
    ensures x !in multiset(s[..start]) && x !in multiset(s[end + 1..])
  {
    var front, back := s[..start], s[end + 1..];
    assert s[end] - x <= VELOCITY_WINDOW;
    forall k | 0 <= k < |front| ensures front[k] != x {
      assert front[k] == s[k];
    }
    forall k | 0 <= k < |back| ensures back[k] != x {
      assert back[k] == s[end + 1 + k];
    }
  }

  // A part whose latest time is s[end], the last of its value, fits into the window ending there.
  lemma PartFitsWindow(s: seq<int>, part: multiset<int>, start: nat, end: nat)
    requires Ascending(s) && WindowStart(s, start, end) && part <= multiset(s) && WithinWindow(part)
    requires s[end] in part && forall k | end < k < |s| :: s[k] !in part
    ensures |part| <= end - start + 1
  {
    var front, slice, back := s[..start], s[start..end + 1], s[end + 1..];
    ThreeParts(s, start, end);
    forall x ensures part[x] <= multiset(slice)[x] {
      if x in part {
        OutsideWindow(s, part, start, end, x);
        assert part[x] <= multiset(s)[x];
      }
    }
    hide WindowStart, WithinWindow, Ascending;
    PartNoLarger(part, multiset(slice));
    assert |multiset(slice)| == |slice|;
  }

  lemma ThreeParts(s: seq<int>, start: nat, end: nat)
    requires start <= end < |s|
    ensures multiset(s) == multiset(s[..start]) + multiset(s[start..end + 1]) + multiset(s[end + 1..])
  {
    assert s == s[..start] + s[start..end + 1] + s[end + 1..];
  }

  lemma PartNoLarger(a: multiset<int>, b: multiset<int>)
    requires a <= b
    ensures |a| <= |b|
  {
    assert b == a + (b - a);
  }

  // The last position, up to n, whose time belongs to a part.
  function LastIn(s: seq<int>, part: multiset<int>, n: nat): int
    requires n <= |s|
  {
    if n == 0 then -1 else if s[n - 1] in part then n - 1 else LastIn(s, part, n - 1)
  }

  lemma {:induction false} LastInIs(s: seq<int>, part: multiset<int>, n: nat)
    requires n <= |s|
    ensures var e := LastIn(s, part, n);
            -1 <= e < n && (e >= 0 ==> s[e] in part) && forall k | e < k < n :: s[k] !in part
  {
    if n > 0 && s[n - 1] !in part {
      LastInIs(s, part, n - 1);
    }
  }

  /** Every part that fits in one window is no larger than the best window over all ends. */
  lemma NoLargerPart(s: seq<int>, starts: seq<nat>, best: nat, part: multiset<int>)
    requires Ascending(s) && |starts| == |s| && part <= multiset(s) && WithinWindow(part)
    requires forall e | 0 <= e < |s| :: WindowStart(s, starts[e], e) && e - starts[e] + 1 <= best
    ensures |part| <= best
  {
    LastInIs(s, part, |s|);
    var e := LastIn(s, part, |s|);
    if e < 0 {
      forall x ensures part[x] == 0 {
        assert part[x] <= multiset(s)[x];
        assert x in multiset(s) ==> x in s;
      }
      assert part == multiset{};
    } else {
      PartFitsWindow(s, part, starts[e], e);
    }
  }

  // A window's own times are such a part.
  lemma WindowIsAPart(s: seq<int>, start: nat, end: nat)
    requires Ascending(s) && WindowStart(s, start, end)
    ensures var part := multiset(s[start..end + 1]);
            part <= multiset(s) && WithinWindow(part) && |part| == end - start + 1
  {
    var slice := s[start..end + 1];
    assert s == s[..start] + slice + s[end + 1..];
    forall x, y | x in multiset(slice) && y in multiset(slice) ensures x - y <= VELOCITY_WINDOW {
      assert x in slice && y in slice;
      var i :| 0 <= i < |slice| && slice[i] == x;
      var j :| 0 <= j < |slice| && slice[j] == y;
      assert slice[i] == s[start + i] && slice[j] == s[start + j];
      assert s[start] <= s[start + j] && s[start + i] <= s[end];
    }
  }

  // The best of the windows seen so far.
  ghost predicate WindowsSoFar(s: seq<int>, starts: seq<nat>, best: nat) {
    && |starts| <= |s|
    && (forall e | 0 <= e < |starts| :: WindowStart(s, starts[e], e) && e - starts[e] + 1 <= best)
    && (if starts == [] then best == 1 else exists e :: 0 <= e < |starts| && e - starts[e] + 1 == best)
  }

  function Larger(a: nat, b: nat): nat { if a >= b then a else b }

  lemma NextWindow(s: seq<int>, starts: seq<nat>, best: nat, start: nat)
    requires WindowsSoFar(s, starts, best) && |starts| < |s| && WindowStart(s, start, |starts|)
    ensures start <= |starts| && WindowsSoFar(s, starts + [start], Larger(best, |starts| - start + 1))
  {
    var more, now := starts + [start], Larger(best, |starts| - start + 1);
    hide WindowStart;
    assert more[|starts|] == start;
    if now == best && starts != [] {
      var e :| 0 <= e < |starts| && e - starts[e] + 1 == best;
      assert more[e] == starts[e];
    }
  }

  lemma WindowsDecide(times: seq<int>, s: seq<int>, starts: seq<nat>, best: nat)
    requires Ascending(s) && multiset(s) == multiset(times) && |starts| == |s| > 0 && WindowsSoFar(s, starts, best)
    ensures LargestBurst(times, best)
  {
    var e :| 0 <= e < |starts| && e - starts[e] + 1 == best;
    WindowIsAPart(s, starts[e], e);
    forall part: multiset<int> | part <= multiset(times) && WithinWindow(part) ensures |part| <= best {
      NoLargerPart(s, starts, best, part);
    }
  }

  function LastStart(starts: seq<nat>): nat { if starts == [] then 0 else starts[|starts| - 1] }

  // Later ends have no earlier starts.
  lemma StartsCarryOver(s: seq<int>, starts: seq<nat>, best: nat, start: nat)
    requires Ascending(s) && WindowsSoFar(s, starts, best) && |starts| < |s|
    requires start == LastStart(starts)
    ensures start <= |starts| && forall k | 0 <= k < start :: s[|starts|] - s[k] > VELOCITY_WINDOW
  {
    if starts != [] {
      assert WindowStart(s, start, |starts| - 1);
    }
  }

  /** The inner loop: `start` moves up until the window fits, and never passes `end`. */
  method AdvanceStart(ordered: seq<int>, from: nat, end: nat) returns (start: nat)
    requires from <= end < |ordered| && forall k | 0 <= k < from :: ordered[end] - ordered[k] > VELOCITY_WINDOW
    ensures WindowStart(ordered, start, end)
  {
    start := from;
    while ordered[end] - ordered[start] > VELOCITY_WINDOW
      invariant start <= end
      invariant forall k | 0 <= k < start :: ordered[end] - ordered[k] > VELOCITY_WINDOW
      decreases end - start
    {
      start := start + 1;
    }
  }

  /** The sliding window over the sorted times finds the largest burst, whatever order the times came
      in. */
  method BurstCount(times: seq<int>) returns (best: nat)
    ensures LargestBurst(times, best)
  {
    if times == [] {
      NoBurst(times);
      return 0;
    }
    var ordered := Sort((x: int, y: int) => x <= y, times);
    SortedTimes(times);
    hide WindowsSoFar, Ascending, LargestBurst, WindowStart, Sort;
    best := 1;
    var start := 0;
    ghost var starts: seq<nat> := [];
    NoWindowYet(ordered);
    for end := 0 to |ordered|
      invariant |starts| == end && WindowsSoFar(ordered, starts, best) && start == LastStart(starts)
    {
      StartsCarryOver(ordered, starts, best, start);
      start := AdvanceStart(ordered, start, end);
      NextWindow(ordered, starts, best, start);
      starts := starts + [start];
      best := if best >= end - start + 1 then best else end - start + 1;
    }
    WindowsDecide(times, ordered, starts, best);
  }

  lemma NoBurst(times: seq<int>)
    requires times == []
    ensures LargestBurst(times, 0)
  {
    var none: multiset<int> := multiset{};
    assert none <= multiset(times) && WithinWindow(none) && |none| == 0;
  }

  lemma NoWindowYet(s: seq<int>)
    ensures WindowsSoFar(s, [], 1)
  {
  }

  /** A full day apart is one burst, a microsecond more is not. */
  lemma ADayIsTheEdge()
    ensures LargestBurst([0, 86_400_000_000], 2) && LargestBurst([0, 86_400_000_001], 1)
  {
    var near, far := [0, 86_400_000_000], [0, 86_400_000_001];
    assert multiset(near) == multiset{0, 86_400_000_000} && multiset(far) == multiset{0, 86_400_000_001};
    assert WithinWindow(multiset(near)) && |multiset(near)| == 2;
    forall part: multiset<int> | part <= multiset(near) ensures |part| <= 2 {
      PartNoLarger(part, multiset(near));
    }
    assert multiset{0} <= multiset(far) && WithinWindow(multiset{0}) && |multiset{0}| == 1;
    forall part: multiset<int> | part <= multiset(far) && WithinWindow(part) ensures |part| <= 1 {
      if 0 in part {
        assert 86_400_000_001 !in part;
        PartNoLarger(part, multiset{0});
      } else {
        PartNoLarger(part, multiset{86_400_000_001});
      }
    }
  }
}
