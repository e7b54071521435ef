/** Merging detected spans and replacing them by markers (orchestrator/firewall.py). */
module Redaction {
  import opened Prelude
  import opened Sorting

  /** A detected span of one record's text. */
  datatype Signal = Signal(pattern: string, recordId: string, offset: nat, length: nat)

  datatype Span = Span(start: nat, end: nat, pattern: string)

  // What the scanner reports: non-empty matches inside the text.
  ghost predicate InText(signals: seq<Signal>, size: nat) {
    forall i | 0 <= i < |signals| :: signals[i].length > 0 && signals[i].offset + signals[i].length <= size
  }

  // Earlier first, then the longer.
  predicate ComesFirst(a: Signal, b: Signal) {
    a.offset < b.offset || (a.offset == b.offset && a.length >= b.length)
  }

  function InOrder(signals: seq<Signal>): seq<Signal> {
    Sort((a, b) => ComesFirst(a, b), signals)
  }

  /** One signal joins the last span if it starts no later than that span ends. */
  function Absorb(merged: seq<Span>, s: Signal): seq<Span> {
    if merged != [] && s.offset <= merged[|merged| - 1].end then
      var last := merged[|merged| - 1];
      merged[..|merged| - 1] + [Span(last.start, Max(last.end, s.offset + s.length), last.pattern)]
    else merged + [Span(s.offset, s.offset + s.length, s.pattern)]
  }

  function MergeInto(merged: seq<Span>, ordered: seq<Signal>): seq<Span>
    decreases |ordered|
  {
    if ordered == [] then merged else MergeInto(Absorb(merged, ordered[0]), ordered[1..])
  }

  function MergeSpans(signals: seq<Signal>): seq<Span> { MergeInto([], InOrder(signals)) }

  /** The loop, overwriting the last merged span in place. */
  method MergeAll(signals: seq<Signal>) returns (merged: seq<Span>)
    ensures merged == MergeSpans(signals)
  {
    var ordered := InOrder(signals);
    merged := [];
    for i := 0 to |ordered|
      invariant MergeInto(merged, ordered[i..]) == MergeSpans(signals)
    {
      var start, end := ordered[i].offset, ordered[i].offset + ordered[i].length;
      assert ordered[i..][1..] == ordered[i + 1..];
      if merged != [] && start <= merged[|merged| - 1].end {
        var last := merged[|merged| - 1];
        merged := merged[..|merged| - 1] + [Span(last.start, Max(last.end, end), last.pattern)];
      } else {
        merged := merged + [Span(start, end, ordered[i].pattern)];
      }
    }
  }

  // ------------------------------------------------------------------
  // Disjoint, in order, covering the same positions
  // ------------------------------------------------------------------

  /** Non-empty spans, left to right, with a gap between neighbours. */
  ghost predicate Spaced(spans: seq<Span>) {
    && (forall i | 0 <= i < |spans| :: spans[i].start < spans[i].end)
    && (forall i, j | 0 <= i < j < |spans| :: spans[i].end < spans[j].start)
  }

  predicate Over(s: Span, x: nat) { s.start <= x < s.end }

  predicate Hits(s: Signal, x: nat) { s.offset <= x < s.offset + s.length }

  ghost predicate Covers(spans: seq<Span>, x: nat) { exists i :: 0 <= i < |spans| && Over(spans[i], x) }

  predicate Signalled(signals: seq<Signal>, x: nat) { exists i :: 0 <= i < |signals| && Hits(signals[i], x) }

  lemma InOrderKeeps(signals: seq<Signal>)
    ensures Sorted((a, b) => ComesFirst(a, b), InOrder(signals))
    ensures multiset(InOrder(signals)) == multiset(signals)
    ensures forall x: nat :: Signalled(InOrder(signals), x) <==> Signalled(signals, x)
    ensures forall s :: s in InOrder(signals) <==> s in signals
  {
    SortKeeps((a, b) => ComesFirst(a, b), signals);
    forall s ensures s in InOrder(signals) <==> s in signals {
      assert s in InOrder(signals) <==> s in multiset(InOrder(signals));
      assert s in signals <==> s in multiset(signals);
    }
    forall x: nat ensures Signalled(InOrder(signals), x) <==> Signalled(signals, x) {
      SignalledIsMembership(InOrder(signals), x);
      SignalledIsMembership(signals, x);
    }
  }

  lemma SignalledIsMembership(signals: seq<Signal>, x: nat)
    ensures Signalled(signals, x) <==> exists s :: s in signals && Hits(s, x)
  {
    if s :| s in signals && Hits(s, x) {
      var i :| 0 <= i < |signals| && signals[i] == s;
    }
  }

  lemma AbsorbKeeps(merged: seq<Span>, s: Signal)
    requires Spaced(merged) && s.length > 0 && (merged != [] ==> merged[|merged| - 1].start <= s.offset)
    ensures Spaced(Absorb(merged, s))
    ensures Absorb(merged, s) != [] && Absorb(merged, s)[|Absorb(merged, s)| - 1].start <= s.offset
    ensures forall x: nat :: Covers(Absorb(merged, s), x) <==> Covers(merged, x) || Hits(s, x)
  {
    var now, n := Absorb(merged, s), |merged|;
    forall x: nat ensures Covers(now, x) <==> Covers(merged, x) || Hits(s, x) {
      if Covers(merged, x) {
        var i :| 0 <= i < n && Over(merged[i], x);
        assert Over(now[i], x);
      }
      if Hits(s, x) {
        assert Over(now[|now| - 1], x);
      }
      if Covers(now, x) {
        var i :| 0 <= i < |now| && Over(now[i], x);
        if i < n && now[i] == merged[i] {
          assert Over(merged[i], x);
        } else if n > 0 && |now| == n && x < merged[n - 1].end {
          assert Over(merged[n - 1], x);
        }
      }
    }
  }

  lemma SignalledSplits(ordered: seq<Signal>, x: nat)
    requires ordered != []
    ensures Signalled(ordered, x) <==> Hits(ordered[0], x) || Signalled(ordered[1..], x)
  {
    if i :| 0 <= i < |ordered| && Hits(ordered[i], x) && i > 0 {
      assert Hits(ordered[1..][i - 1], x);
    }
    if i :| 0 <= i < |ordered[1..]| && Hits(ordered[1..][i], x) {
      assert Hits(ordered[i + 1], x);
    }
  }

  // Later signals start no earlier than the last span.
  lemma LaterStarts(merged: seq<Span>, ordered: seq<Signal>)
    requires ordered != [] && Sorted((a, b) => ComesFirst(a, b), ordered)
    requires Absorb(merged, ordered[0]) != []
    requires Absorb(merged, ordered[0])[|Absorb(merged, ordered[0])| - 1].start <= ordered[0].offset
    ensures var now, rest := Absorb(merged, ordered[0]), ordered[1..];
            Sorted((a, b) => ComesFirst(a, b), rest) &&
            forall i | 0 <= i < |rest| :: now[|now| - 1].start <= rest[i].offset
  {
    hide Absorb;
    forall i | 0 < i < |ordered| ensures ordered[0].offset <= ordered[i].offset {
      assert ComesFirst(ordered[0], ordered[i]);
    }
  }

  lemma {:induction false} MergeKeeps(merged: seq<Span>, ordered: seq<Signal>)
    requires Spaced(merged) && Sorted((a, b) => ComesFirst(a, b), ordered)
    requires forall i | 0 <= i < |ordered| :: ordered[i].length > 0
    requires merged != [] ==> forall i | 0 <= i < |ordered| :: merged[|merged| - 1].start <= ordered[i].offset
    ensures Spaced(MergeInto(merged, ordered))
    ensures forall x: nat :: Covers(MergeInto(merged, ordered), x) <==> Covers(merged, x) || Signalled(ordered, x)
    decreases |ordered|
  {
    if ordered != [] {
      var s, rest := ordered[0], ordered[1..];
      AbsorbKeeps(merged, s);
      LaterStarts(merged, ordered);
      hide Spaced, Covers, Absorb, Signalled;
      MergeKeeps(Absorb(merged, s), rest);
      forall x: nat ensures Signalled(ordered, x) <==> Hits(s, x) || Signalled(rest, x) {
        SignalledSplits(ordered, x);
      }
    }
  }

  /** The merged spans are in order with a gap between neighbours and cover exactly the positions some
      signal covers. */
  lemma MergedSpansCover(signals: seq<Signal>)
    requires forall i | 0 <= i < |signals| :: signals[i].length > 0
    ensures Spaced(MergeSpans(signals))
    ensures forall x: nat :: Covers(MergeSpans(signals), x) <==> Signalled(signals, x)
  {
    InOrderKeeps(signals);
    var ordered := InOrder(signals);
    forall i | 0 <= i < |ordered| ensures ordered[i].length > 0 {
      assert ordered[i] in ordered;
      var j :| 0 <= j < |signals| && signals[j] == ordered[i];
    }
    MergeKeeps([], ordered);
  }

  // ------------------------------------------------------------------
  // Only the covered positions matter
  // ------------------------------------------------------------------

  ghost predicate SameBounds(a: seq<Span>, b: seq<Span>) {
    |a| == |b| && forall i | 0 <= i < |a| :: a[i].start == b[i].start && a[i].end == b[i].end
  }

  lemma FirstIsLeast(spans: seq<Span>, x: nat)
    requires Spaced(spans) && Covers(spans, x)
    ensures spans != [] && spans[0].start <= x
  {
    var i :| 0 <= i < |spans| && Over(spans[i], x);
    if i > 0 {
      assert spans[0].end < spans[i].start;
    }
  }

  lemma TailCovers(spans: seq<Span>, x: nat)
    requires Spaced(spans) && spans != []
    ensures Spaced(spans[1..])
    ensures Covers(spans[1..], x) <==> Covers(spans, x) && x > spans[0].end
    ensures x < spans[0].end && Covers(spans, x) ==> Over(spans[0], x)
    ensures !Covers(spans, spans[0].end)
  {
    if Covers(spans[1..], x) {
      var i :| 0 <= i < |spans[1..]| && Over(spans[1..][i], x);
      assert Over(spans[i + 1], x) && spans[0].end < spans[i + 1].start;
    }
    if Covers(spans, x) {
      var i :| 0 <= i < |spans| && Over(spans[i], x);
      if i > 0 {
        assert Over(spans[1..][i - 1], x) && spans[0].end < spans[i].start;
      }
    }
    forall i | 0 <= i < |spans| ensures !Over(spans[i], spans[0].end) {
      assert i > 0 ==> spans[0].end < spans[i].start;
    }
  }

  lemma StartIsCovered(spans: seq<Span>)
    requires Spaced(spans)
    ensures spans != [] ==> Covers(spans, spans[0].start)
  {
    assert spans != [] ==> Over(spans[0], spans[0].start);
  }

  /** Spaced spans are determined by what they cover. */
  lemma {:induction false} SpacedSpansAreUnique(a: seq<Span>, b: seq<Span>)
    requires Spaced(a) && Spaced(b) && forall x: nat :: Covers(a, x) <==> Covers(b, x)
    ensures SameBounds(a, b)
    decreases |a|
  {
    StartIsCovered(b);
    if a != [] {
      SameFirst(a, b);
      forall x: nat ensures Covers(a[1..], x) <==> Covers(b[1..], x) {
        TailCovers(a, x);
        TailCovers(b, x);
      }
      SpacedSpansAreUnique(a[1..], b[1..]);
      assert a == [a[0]] + a[1..] && b == [b[0]] + b[1..];
    }
  }

  lemma SameFirst(a: seq<Span>, b: seq<Span>)
    requires Spaced(a) && Spaced(b) && a != [] && forall x: nat :: Covers(a, x) <==> Covers(b, x)
    ensures b != [] && a[0].start == b[0].start && a[0].end == b[0].end
    ensures Spaced(a[1..]) && Spaced(b[1..])
  {
    assert Over(a[0], a[0].start);
    FirstIsLeast(b, a[0].start);
    assert Over(b[0], b[0].start);
    FirstIsLeast(a, b[0].start);
    TailCovers(a, 0);
    TailCovers(b, 0);
    assert !Covers(b, a[0].end) && !Covers(a, b[0].end);
    assert !Over(b[0], a[0].end) && !Over(a[0], b[0].end);
  }

  /** Whatever order the signals arrive in, the same spans come out; only which pattern names a span
      can depend on the order. */
  lemma OrderDoesNotMatter(signals: seq<Signal>, others: seq<Signal>)
    requires multiset(signals) == multiset(others)
    requires forall i | 0 <= i < |signals| :: signals[i].length > 0
    ensures SameBounds(MergeSpans(signals), MergeSpans(others))
  {
    forall s ensures s in signals <==> s in others {
      assert s in signals <==> s in multiset(signals);
      assert s in others <==> s in multiset(others);
    }
    forall i | 0 <= i < |others| ensures others[i].length > 0 {
      assert others[i] in signals;
    }
    MergedSpansCover(signals);
    MergedSpansCover(others);
    forall x: nat ensures Signalled(signals, x) <==> Signalled(others, x) {
      SignalledIsMembership(signals, x);
      SignalledIsMembership(others, x);
    }
    SpacedSpansAreUnique(MergeSpans(signals), MergeSpans(others));
  }

  // ------------------------------------------------------------------
  // Replacing the spans
  // ------------------------------------------------------------------

  /** The marker a span is replaced by, carrying the block's nonce. */
  function Marker(pattern: string, offset: nat, length: nat, nonce: string): string {
    "[ts-sentry:" + nonce + " instruction-shaped text removed: " + pattern + "@" + Dec(offset) + "+" + Dec(length) + "]"
  }

  function SpanMarker(s: Span, nonce: string): string
    requires s.start <= s.end
  {
    Marker(s.pattern, s.start, s.end - s.start, nonce)
  }

  predicate Straight(spans: seq<Span>) { forall i | 0 <= i < |spans| :: spans[i].start <= spans[i].end }

  // Spans that can be cut out of a text, from a cursor on.
  predicate Cuttable(spans: seq<Span>, cursor: nat, size: nat) {
    if spans == [] then cursor <= size
    else cursor <= spans[0].start <= spans[0].end <= size && Cuttable(spans[1..], spans[0].end, size)
  }

  /** What lies between the spans: one piece before each and one after the last. */
  function Gaps(text: string, spans: seq<Span>, cursor: nat): (r: seq<string>)
    requires Cuttable(spans, cursor, |text|)
    ensures |r| == |spans| + 1
  {
    if spans == [] then [text[cursor..]]
    else [text[cursor..spans[0].start]] + Gaps(text, spans[1..], spans[0].end)
  }

  function Slices(text: string, spans: seq<Span>, cursor: nat): (r: seq<string>)
    requires Cuttable(spans, cursor, |text|)
    ensures |r| == |spans|
  {
    if spans == [] then [] else [text[spans[0].start..spans[0].end]] + Slices(text, spans[1..], spans[0].end)
  }

  function Markers(spans: seq<Span>, nonce: string): seq<string>
    requires Straight(spans)
  {
    seq(|spans|, i requires 0 <= i < |spans| => SpanMarker(spans[i], nonce))
  }

  /** Gap, fill, gap, fill, ..., gap. */
  function Interleave(gaps: seq<string>, fills: seq<string>): string
    requires |gaps| == |fills| + 1
  {
    if fills == [] then gaps[0] else gaps[0] + fills[0] + Interleave(gaps[1..], fills[1..])
  }

  lemma {:induction false} SpacedIsCuttable(spans: seq<Span>, cursor: nat, size: nat)
    requires Spaced(spans) && cursor <= size && (spans != [] ==> cursor <= spans[0].start)
    requires forall i | 0 <= i < |spans| :: spans[i].end <= size
    ensures Cuttable(spans, cursor, size)
  {
    if spans != [] {
      SpacedIsCuttable(spans[1..], spans[0].end, size);
    }
  }

  lemma MergedFits(signals: seq<Signal>, size: nat)
    requires InText(signals, size)
    ensures Spaced(MergeSpans(signals)) && Cuttable(MergeSpans(signals), 0, size)
    ensures Straight(MergeSpans(signals))
  {
    MergedSpansCover(signals);
    var spans := MergeSpans(signals);
    forall i | 0 <= i < |spans| ensures spans[i].end <= size {
      assert Over(spans[i], spans[i].end - 1);
      assert Covers(spans, spans[i].end - 1);
      var j :| 0 <= j < |signals| && Hits(signals[j], spans[i].end - 1);
    }
    SpacedIsCuttable(spans, 0, size);
  }

  /** _redact: the text with every merged span replaced by its marker. */
  function Redacted(text: string, signals: seq<Signal>, nonce: string): string
    requires InText(signals, |text|)
  {
    MergedFits(signals, |text|);
    var spans := MergeSpans(signals);
    Interleave(Gaps(text, spans, 0), Markers(spans, nonce))
  }

  function Concat(pieces: seq<string>): string {
    if pieces == [] then "" else pieces[0] + Concat(pieces[1..])
  }

  lemma {:induction false} ConcatAppend(a: seq<string>, b: seq<string>)
    ensures Concat(a + b) == Concat(a) + Concat(b)
  {
    if a == [] {
      assert a + b == b;
    } else {
      assert (a + b)[1..] == a[1..] + b;
      ConcatAppend(a[1..], b);
    }
  }

  // Pieces collected so far, then everything from a span on.
  function Rest(text: string, spans: seq<Span>, cursor: nat, nonce: string): string
    requires Cuttable(spans, cursor, |text|) && Straight(spans)
  {
    Interleave(Gaps(text, spans, cursor), Markers(spans, nonce))
  }

  lemma RestStep(text: string, spans: seq<Span>, cursor: nat, nonce: string)
    requires Cuttable(spans, cursor, |text|) && spans != []
    requires Straight(spans)
    ensures Rest(text, spans, cursor, nonce)
         == text[cursor..spans[0].start] + SpanMarker(spans[0], nonce) + Rest(text, spans[1..], spans[0].end, nonce)
  {
    var gaps := Gaps(text, spans, cursor);
    assert gaps[1..] == Gaps(text, spans[1..], spans[0].end);
    assert Markers(spans, nonce)[1..] == Markers(spans[1..], nonce);
  }

  // The pieces cover the text up to the cursor, which stands after the first i spans.
  ghost predicate Upto(text: string, spans: seq<Span>, i: nat, cursor: nat, pieces: seq<string>, nonce: string) {
    && i <= |spans| && Straight(spans)
    && Cuttable(spans, 0, |text|) && Cuttable(spans[i..], cursor, |text|)
    && Concat(pieces) + Rest(text, spans[i..], cursor, nonce) == Rest(text, spans, 0, nonce)
  }

  lemma NextCut(text: string, spans: seq<Span>, i: nat, cursor: nat, pieces: seq<string>, nonce: string)
    requires Upto(text, spans, i, cursor, pieces, nonce)
    ensures cursor <= |text|
    ensures i < |spans| ==> cursor <= spans[i].start <= spans[i].end <= |text|
  {
    hide Rest, Concat;
    if i < |spans| {
      assert spans[i..][0] == spans[i];
    }
  }

  lemma Advance(text: string, spans: seq<Span>, i: nat, cursor: nat, pieces: seq<string>, nonce: string)
    requires Upto(text, spans, i, cursor, pieces, nonce) && i < |spans|
    requires cursor <= spans[i].start <= spans[i].end <= |text|
    ensures Upto(text, spans, i + 1, spans[i].end,
                 pieces + [text[cursor..spans[i].start], SpanMarker(spans[i], nonce)], nonce)
  {
    hide Rest, Concat, SpanMarker;
    var gap, marker := text[cursor..spans[i].start], SpanMarker(spans[i], nonce);
    RestStep(text, spans[i..], cursor, nonce);
    assert spans[i..][0] == spans[i] && spans[i..][1..] == spans[i + 1..];
    ConcatAppend(pieces, [gap, marker]);
    ConcatTwo(gap, marker);
    var rest := Rest(text, spans[i + 1..], spans[i].end, nonce);
    assert Concat(pieces) + (gap + marker + rest) == Concat(pieces) + (gap + marker) + rest;
  }

  lemma Finish(text: string, spans: seq<Span>, cursor: nat, pieces: seq<string>, nonce: string)
    requires Upto(text, spans, |spans|, cursor, pieces, nonce)
    ensures cursor <= |text| && Concat(pieces + [text[cursor..]]) == Rest(text, spans, 0, nonce)
  {
    assert spans[|spans|..] == [];
    ConcatAppend(pieces, [text[cursor..]]);
    assert Concat([text[cursor..]]) == text[cursor..];
  }

  /** The loop: pieces and markers appended while a cursor moves over the text. */
  method RedactText(text: string, signals: seq<Signal>, nonce: string) returns (r: string)
    requires InText(signals, |text|)
    ensures r == Redacted(text, signals, nonce)
  {
    MergedFits(signals, |text|);
    if signals == [] {
      assert MergeSpans(signals) == [];
      return text;
    }
    hide SpanMarker, Cuttable, MergeSpans;
    var spans := MergeAll(signals);
    var pieces: seq<string> := [];
    var cursor: nat := 0;
    assert spans[0..] == spans && Concat(pieces) + Rest(text, spans, 0, nonce) == Rest(text, spans, 0, nonce);
    for i := 0 to |spans|
      invariant Upto(text, spans, i, cursor, pieces, nonce)
    {
      hide Upto;
      var s := spans[i];
      NextCut(text, spans, i, cursor, pieces, nonce);
      Advance(text, spans, i, cursor, pieces, nonce);
      pieces := pieces + [text[cursor..s.start], SpanMarker(s, nonce)];
      cursor := s.end;
    }
    Finish(text, spans, cursor, pieces, nonce);
    r := Concat(pieces + [text[cursor..]]);
  }

  lemma ConcatTwo(a: string, b: string)
    ensures Concat([a, b]) == a + b
  {
    assert [a, b][1..] == [b] && Concat([b]) == b;
  }

  // ------------------------------------------------------------------
  // Nothing lost, nothing duplicated
  // ------------------------------------------------------------------

  /** The characters no signal covers, in order. */
  function Kept(text: string, signals: seq<Signal>, from: nat): string
    requires from <= |text|
    decreases |text| - from
  {
    if from == |text| then ""
    else (if Signalled(signals, from) then "" else [text[from]]) + Kept(text, signals, from + 1)
  }

  // All covered, or all uncovered, from a up to b.
  ghost predicate Uniform(signals: seq<Signal>, a: nat, b: nat, covered: bool) {
    forall x: nat | a <= x < b :: Signalled(signals, x) <==> covered
  }

  lemma {:induction false} KeptSkips(text: string, signals: seq<Signal>, a: nat, b: nat)
    requires a <= b <= |text| && Uniform(signals, a, b, true)
    ensures Kept(text, signals, a) == Kept(text, signals, b)
    decreases b - a
  {
    if a < b {
      assert Signalled(signals, a) && Uniform(signals, a + 1, b, true);
      hide Signalled, Uniform;
      KeptSkips(text, signals, a + 1, b);
      assert "" + Kept(text, signals, a + 1) == Kept(text, signals, a + 1);
    }
  }

  lemma {:induction false} KeptCopies(text: string, signals: seq<Signal>, a: nat, b: nat)
    requires a <= b <= |text| && Uniform(signals, a, b, false)
    ensures Kept(text, signals, a) == text[a..b] + Kept(text, signals, b)
    decreases b - a
  {
    if a < b {
      assert !Signalled(signals, a) && Uniform(signals, a + 1, b, false);
      hide Signalled, Uniform;
      KeptCopies(text, signals, a + 1, b);
      KeptOne(text, signals, a);
      hide Kept;
      OneMore(text, a, b, Kept(text, signals, b));
    }
  }

  lemma KeptOne(text: string, signals: seq<Signal>, a: nat)
    requires a < |text| && !Signalled(signals, a)
    ensures Kept(text, signals, a) == [text[a]] + Kept(text, signals, a + 1)
  {
    hide Signalled;
  }

  lemma OneMore(text: string, a: nat, b: nat, tail: string)
    requires a < b <= |text|
    ensures [text[a]] + (text[a + 1..b] + tail) == text[a..b] + tail
  {
  }

  lemma {:induction false} InterleaveSlices(text: string, spans: seq<Span>, cursor: nat)
    requires Cuttable(spans, cursor, |text|)
    ensures Interleave(Gaps(text, spans, cursor), Slices(text, spans, cursor)) == text[cursor..]
  {
    if spans != [] {
      InterleaveSlices(text, spans[1..], spans[0].end);
      var s := spans[0];
      assert text[cursor..] == text[cursor..s.start] + text[s.start..s.end] + text[s.end..];
      assert Gaps(text, spans, cursor)[1..] == Gaps(text, spans[1..], s.end);
      assert Slices(text, spans, cursor)[1..] == Slices(text, spans[1..], s.end);
    }
  }

  // Up to the end of the first span, what is kept is the gap before it.
  lemma KeptAcross(text: string, signals: seq<Signal>, spans: seq<Span>, cursor: nat)
    requires Spaced(spans) && spans != [] && cursor <= spans[0].start && spans[0].end <= |text|
    requires forall x: nat | cursor <= x :: Covers(spans, x) <==> Signalled(signals, x)
    ensures Kept(text, signals, cursor) == text[cursor..spans[0].start] + Kept(text, signals, spans[0].end)
  {
    hide Kept, Spaced, Covers;
    var s := spans[0];
    forall x: nat | cursor <= x < s.start ensures !Signalled(signals, x) {
      if Covers(spans, x) {
        FirstIsLeast(spans, x);
      }
    }
    forall x: nat | s.start <= x < s.end ensures Signalled(signals, x) {
      CoveredByFirst(spans, x);
    }
    assert s.start <= s.end by {
      assert Spaced(spans) && 0 <= 0 < |spans|;
      FirstNonEmpty(spans);
    }
    KeptCopies(text, signals, cursor, s.start);
    KeptSkips(text, signals, s.start, s.end);
  }

  lemma FirstNonEmpty(spans: seq<Span>)
    requires Spaced(spans) && spans != []
    ensures spans[0].start < spans[0].end
  {
  }

  lemma CoveredByFirst(spans: seq<Span>, x: nat)
    requires spans != [] && Over(spans[0], x)
    ensures Covers(spans, x)
  {
  }

  lemma {:induction false} GapsAreKept(text: string, signals: seq<Signal>, spans: seq<Span>, cursor: nat)
    requires Spaced(spans) && Cuttable(spans, cursor, |text|)
    requires forall x: nat | cursor <= x :: Covers(spans, x) <==> Signalled(signals, x)
    ensures Concat(Gaps(text, spans, cursor)) == Kept(text, signals, cursor)
    decreases |spans|
  {
    if spans == [] {
      assert Uniform(signals, cursor, |text|, false);
      KeptCopies(text, signals, cursor, |text|);
      assert Concat([text[cursor..]]) == text[cursor..];
    } else {
      KeptAcross(text, signals, spans, cursor);
      FirstNonEmpty(spans);
      forall x: nat | spans[0].end <= x ensures Covers(spans[1..], x) <==> Signalled(signals, x) {
        TailCovers(spans, x);
      }
      TailCovers(spans, 0);
      hide Spaced, Covers, Kept;
      GapsAreKept(text, signals, spans[1..], spans[0].end);
      assert Gaps(text, spans, cursor)[1..] == Gaps(text, spans[1..], spans[0].end);
    }
  }

  /** Redaction conserves the text: cut at the merged spans, the original is gaps and slices, the
      redacted copy is the same gaps and one marker per span, and the gaps together are exactly the
      characters no signal covers, in order. */
  lemma RedactionConserves(text: string, signals: seq<Signal>, nonce: string)
    requires InText(signals, |text|)
    ensures var spans := MergeSpans(signals);
            && Spaced(spans) && Cuttable(spans, 0, |text|)
            && var gaps := Gaps(text, spans, 0);
               && text == Interleave(gaps, Slices(text, spans, 0))
               && Redacted(text, signals, nonce) == Interleave(gaps, Markers(spans, nonce))
               && Concat(gaps) == Kept(text, signals, 0)
  {
    MergedFits(signals, |text|);
    MergedSpansCover(signals);
    var spans := MergeSpans(signals);
    InterleaveSlices(text, spans, 0);
    GapsAreKept(text, signals, spans, 0);
    assert text[0..] == text;
  }

  // ------------------------------------------------------------------
  // Which pattern names a span
  // ------------------------------------------------------------------

  /** A span is named after the longest signal that starts where the span starts. */
  ghost predicate NamedBy(signals: seq<Signal>, s: Span, who: Signal) {
    && who in signals && who.offset == s.start && who.pattern == s.pattern
    && forall o | o in signals && o.offset == s.start :: o.length <= who.length
  }

  ghost predicate Named(signals: seq<Signal>, s: Span) { exists who :: NamedBy(signals, s, who) }

  // What holds of the spans after the first `done` signals, in order.
  ghost predicate NamesSoFar(all: seq<Signal>, merged: seq<Span>, done: nat)
    requires done <= |all|
  {
    && Spaced(merged)
    && (forall i | 0 <= i < |merged| :: Named(all, merged[i]))
    && (forall i | 0 <= i < done :: Covers(merged, all[i].offset))
    && (merged != [] ==> done > 0 && merged[|merged| - 1].start <= all[done - 1].offset)
  }

  lemma {:induction false} MergeSplit(merged: seq<Span>, a: seq<Signal>, b: seq<Signal>)
    ensures MergeInto(merged, a + b) == MergeInto(MergeInto(merged, a), b)
    decreases |a|
  {
    if a == [] {
      assert a + b == b;
    } else {
      assert (a + b)[1..] == a[1..] + b;
      MergeSplit(Absorb(merged, a[0]), a[1..], b);
    }
  }

  lemma MergeOneMore(all: seq<Signal>, done: nat)
    requires done < |all|
    ensures MergeInto([], all[..done + 1]) == Absorb(MergeInto([], all[..done]), all[done])
  {
    assert all[..done + 1] == all[..done] + [all[done]];
    MergeSplit([], all[..done], [all[done]]);
    var m := MergeInto([], all[..done]);
    assert MergeInto(m, [all[done]]) == MergeInto(Absorb(m, all[done]), []);
  }

  lemma {:induction false} PrefixNames(all: seq<Signal>, done: nat)
    requires done <= |all| && Sorted((a, b) => ComesFirst(a, b), all)
    requires forall i | 0 <= i < |all| :: all[i].length > 0
    ensures NamesSoFar(all, MergeInto([], all[..done]), done)
  {
    if done > 0 {
      PrefixNames(all, done - 1);
      MergeOneMore(all, done - 1);
      StepNames(all, MergeInto([], all[..done - 1]), done - 1);
    }
  }

  lemma StepNames(all: seq<Signal>, merged: seq<Span>, done: nat)
    requires done < |all| && Sorted((a, b) => ComesFirst(a, b), all)
    requires forall i | 0 <= i < |all| :: all[i].length > 0
    requires NamesSoFar(all, merged, done)
    ensures NamesSoFar(all, Absorb(merged, all[done]), done + 1)
  {
    var s, now := all[done], Absorb(merged, all[done]);
    assert done > 0 ==> ComesFirst(all[done - 1], s);
    StepReaches(all, merged, done);
    hide Spaced, Covers, Absorb, Named;
    forall i | 0 <= i < |now| ensures Named(all, now[i]) {
      NewNames(all, merged, done, i);
    }
  }

  lemma StepReaches(all: seq<Signal>, merged: seq<Span>, done: nat)
    requires done < |all| && Spaced(merged) && all[done].length > 0
    requires forall i | 0 <= i < done :: Covers(merged, all[i].offset)
    requires merged != [] ==> merged[|merged| - 1].start <= all[done].offset
    ensures var now := Absorb(merged, all[done]);
            && Spaced(now) && now != [] && now[|now| - 1].start <= all[done].offset
            && forall i | 0 <= i < done + 1 :: Covers(now, all[i].offset)
  {
    AbsorbKeeps(merged, all[done]);
    hide Spaced, Covers, Absorb;
    forall i | 0 <= i < done + 1 ensures Covers(Absorb(merged, all[done]), all[i].offset) {
      assert Hits(all[done], all[done].offset);
    }
  }

  lemma NewNames(all: seq<Signal>, merged: seq<Span>, done: nat, i: nat)
    requires done < |all| && Sorted((a, b) => ComesFirst(a, b), all) && NamesSoFar(all, merged, done)
    requires i < |Absorb(merged, all[done])|
    ensures Named(all, Absorb(merged, all[done])[i])
  {
    hide Spaced, Covers, Named;
    var now := Absorb(merged, all[done]);
    if i < |merged| {
      Renamed(all, merged[i], now[i]);
    } else {
      FreshName(all, merged, done);
      NamedByOpener(all, now[i], all[done]);
    }
  }

  lemma NamedByOpener(all: seq<Signal>, s: Span, who: Signal)
    requires NamedBy(all, s, who)
    ensures Named(all, s)
  {
  }

  // A span's name depends on its start and pattern alone.
  lemma Renamed(all: seq<Signal>, a: Span, b: Span)
    requires Named(all, a) && a.start == b.start && a.pattern == b.pattern
    ensures Named(all, b)
  {
    var who :| NamedBy(all, a, who);
    assert NamedBy(all, b, who);
  }

  lemma EarlierOffsets(all: seq<Signal>, merged: seq<Span>, done: nat, j: nat)
    requires j < done < |all| && Spaced(merged) && Covers(merged, all[j].offset)
    requires merged != [] ==> merged[|merged| - 1].end < all[done].offset
    ensures all[j].offset < all[done].offset
  {
    var k :| 0 <= k < |merged| && Over(merged[k], all[j].offset);
    assert k < |merged| - 1 ==> merged[k].end < merged[|merged| - 1].start;
  }

  // A signal that opens a span is the first of its offset, and so the longest.
  lemma FreshName(all: seq<Signal>, merged: seq<Span>, done: nat)
    requires done < |all| && Sorted((a, b) => ComesFirst(a, b), all) && Spaced(merged)
    requires forall i | 0 <= i < done :: Covers(merged, all[i].offset)
    requires merged != [] ==> merged[|merged| - 1].end < all[done].offset
    ensures forall o | o in all && o.offset == all[done].offset :: o.length <= all[done].length
  {
    forall j | 0 <= j < |all| ensures all[j].offset == all[done].offset ==> all[j].length <= all[done].length {
      if j < done {
        EarlierOffsets(all, merged, done, j);
      } else if j > done {
        assert ComesFirst(all[done], all[j]);
      }
    }
  }

  /** Each merged span carries the pattern of the longest signal starting at its start. */
  lemma SpansAreNamed(signals: seq<Signal>)
    requires forall i | 0 <= i < |signals| :: signals[i].length > 0
    ensures forall i | 0 <= i < |MergeSpans(signals)| :: Named(signals, MergeSpans(signals)[i])
  {
    InOrderKeeps(signals);
    var all := InOrder(signals);
    forall i | 0 <= i < |all| ensures all[i].length > 0 {
      assert all[i] in all;
    }
    PrefixNames(all, |all|);
    assert all[..|all|] == all;
    forall i | 0 <= i < |MergeSpans(signals)| ensures Named(signals, MergeSpans(signals)[i]) {
      hide NamesSoFar, MergeInto;
      var who :| NamedBy(all, MergeSpans(signals)[i], who);
      assert NamedBy(signals, MergeSpans(signals)[i], who);
    }
  }

  // ------------------------------------------------------------------
  // What a marker tells
  // ------------------------------------------------------------------

  /** A marker tells which pattern was found, where, and over how many characters. */
  lemma MarkersTellApart(pattern: string, offset: nat, length: nat, other: string, start: nat, size: nat, nonce: string)
    requires Marker(pattern, offset, length, nonce) == Marker(other, start, size, nonce)
    ensures pattern == other && offset == start && length == size
  {
    var front := "[ts-sentry:" + nonce + " instruction-shaped text removed: ";
    var s, t := front + pattern + "@" + Dec(offset) + "+" + Dec(length), front + other + "@" + Dec(start) + "+" + Dec(size);
    assert Marker(pattern, offset, length, nonce) == s + "]" && Marker(other, start, size, nonce) == t + "]";
    assert s == (s + "]")[..|s + "]"| - 1] == (t + "]")[..|t + "]"| - 1] == t;
    var x, y := front + pattern + "@" + Dec(offset), front + other + "@" + Dec(start);
    NumeralsEnd(x, '+', length, y, '+', size);
    NumeralsEnd(front + pattern, '@', offset, front + other, '@', start);
    assert pattern == (front + pattern)[|front|..] == (front + other)[|front|..] == other;
  }
}
