/** Anchor ids for one document's headings (data/policy_corpus.py). Stripping and lower-casing a heading are
    Unicode operations and stay one parameter, fold; what is made of the folded heading is not. */
module Anchors {
  import opened Prelude

  // ------------------------------------------------------------------
  // Slugs
  // ------------------------------------------------------------------

  predicate IsSlugChar(c: char) { 'a' <= c <= 'z' || IsDigit(c) }

  /** The thirty-six characters that survive. */
  lemma SlugCharsAre(c: char)
    ensures IsSlugChar(c) <==> 97 <= c as int <= 122 || 48 <= c as int <= 57
  {
  }

  // How many characters at the front are all of one sort.
  function Run(s: string, sort: bool): (n: nat)
    ensures n <= |s| && (forall i | 0 <= i < n :: IsSlugChar(s[i]) == sort)
    ensures n < |s| ==> IsSlugChar(s[n]) != sort
  {
    if s == "" || IsSlugChar(s[0]) != sort then 0 else 1 + Run(s[1..], sort)
  }

  /** Every run of other characters becomes one hyphen. */
  function Collapsed(s: string): string
    decreases |s|
  {
    if s == "" then ""
    else if IsSlugChar(s[0]) then [s[0]] + Collapsed(s[1..])
    else "-" + Collapsed(s[Run(s, false)..])
  }

  function TrimLeft(s: string): string { if s != "" && s[0] == '-' then TrimLeft(s[1..]) else s }

  function TrimRight(s: string): string {
    if s != "" && s[|s| - 1] == '-' then TrimRight(s[..|s| - 1]) else s
  }

  /** slugify_heading, given the folded heading; a heading that leaves nothing is refused. */
  function Slugify(folded: string): Option<string> {
    var slug := TrimRight(TrimLeft(Collapsed(folded)));
    if slug == "" then None else Some(slug)
  }

  /** The maximal runs of letters and digits, in order. */
  function Words(s: string): (r: seq<string>)
    ensures forall w | w in r :: IsWord(w)
    decreases |s|
  {
    if s == "" then []
    else if IsSlugChar(s[0]) then [s[..Run(s, true)]] + Words(s[Run(s, true)..])
    else Words(s[1..])
  }

  predicate IsWord(w: string) { w != "" && forall i | 0 <= i < |w| :: IsSlugChar(w[i]) }

  function Hyphenated(words: seq<string>): string {
    if words == [] then "" else if |words| == 1 then words[0] else words[0] + "-" + Hyphenated(words[1..])
  }

  lemma {:induction false} CollapseWord(s: string, n: nat)
    requires n <= |s| && forall i | 0 <= i < n :: IsSlugChar(s[i])
    ensures Collapsed(s) == s[..n] + Collapsed(s[n..])
  {
    if n > 0 {
      CollapseWord(s[1..], n - 1);
      assert s[1..][n - 1..] == s[n..] && [s[0]] + s[1..][..n - 1] == s[..n];
    } else {
      assert s[n..] == s;
    }
  }

  lemma {:induction false} SkipGap(s: string, n: nat)
    requires n <= |s| && forall i | 0 <= i < n :: !IsSlugChar(s[i])
    ensures Words(s) == Words(s[n..])
  {
    if n > 0 {
      SkipGap(s[1..], n - 1);
      assert s[1..][n - 1..] == s[n..];
    } else {
      assert s[n..] == s;
    }
  }

  // Where the words stand in the collapsed text: a hyphen may be left at either end.
  ghost predicate Framed(s: string, lead: string, trail: string) {
    && Collapsed(s) == lead + Hyphenated(Words(s)) + trail
    && lead == (if s != "" && !IsSlugChar(s[0]) then "-" else "")
    && trail in {"", "-"} && (Words(s) == [] ==> trail == "")
  }

  lemma {:induction false} CollapsedIs(s: string) returns (lead: string, trail: string)
    ensures Framed(s, lead, trail)
    decreases |s|
  {
    lead, trail := "", "";
    if s != "" && IsSlugChar(s[0]) {
      var n := Run(s, true);
      var inner, after := CollapsedIs(s[n..]);
      trail := FrameWord(s, inner, after);
    } else if s != "" {
      var n := Run(s, false);
      var inner, after := CollapsedIs(s[n..]);
      FrameGap(s, inner, after);
      lead, trail := "-", after;
    }
  }

  lemma FrameWord(s: string, inner: string, after: string) returns (trail: string)
    requires s != "" && IsSlugChar(s[0]) && Framed(s[Run(s, true)..], inner, after)
    ensures Framed(s, "", trail)
  {
    var n := Run(s, true);
    var rest := s[n..];
    CollapseWord(s, n);
    NoWordsIn(rest);
    assert Words(s) == [s[..n]] + Words(rest) && Words(s)[1..] == Words(rest);
    hide Run, Collapsed, Words;
    trail := if Words(rest) == [] then inner else after;
    Joined(s[..n], Words(rest), inner, after);
  }

  // One word in front of what is framed already.
  lemma Joined(word: string, words: seq<string>, inner: string, after: string)
    requires inner in {"", "-"} && (words == [] ==> after == "") && (words != [] ==> inner == "-")
    ensures var trail := if words == [] then inner else after;
            word + (inner + Hyphenated(words) + after) == "" + Hyphenated([word] + words) + trail
  {
    assert ([word] + words)[1..] == words;
    if words == [] {
      assert word + (inner + "" + "") == word + inner;
    } else {
      assert word + ("-" + Hyphenated(words) + after) == word + "-" + Hyphenated(words) + after;
    }
  }

  lemma NoWordsIn(s: string)
    ensures Words(s) != [] ==> s != ""
  {
  }

  lemma FrameGap(s: string, inner: string, after: string)
    requires s != "" && !IsSlugChar(s[0]) && Framed(s[Run(s, false)..], inner, after)
    ensures Framed(s, "-", after)
  {
    var n := Run(s, false);
    SkipGap(s, n);
    assert Collapsed(s) == "-" + Collapsed(s[n..]);
    assert inner == "";
    hide Collapsed, Words, Hyphenated, Run;
    Prefixed(Hyphenated(Words(s)), after);
  }

  lemma Prefixed(middle: string, after: string)
    ensures "-" + ("" + middle + after) == "-" + middle + after
  {
  }

  lemma {:induction false} HyphenatedEnds(words: seq<string>)
    requires forall w | w in words :: IsWord(w)
    ensures words != [] ==>
              var t := Hyphenated(words); t != "" && IsSlugChar(t[0]) && IsSlugChar(t[|t| - 1])
    ensures forall i | 0 <= i < |Hyphenated(words)| :: Hyphenated(words)[i] == '-' || IsSlugChar(Hyphenated(words)[i])
  {
    if |words| > 1 {
      HyphenatedEnds(words[1..]);
      assert IsWord(words[0]);
    } else if |words| == 1 {
      assert words[0] in words;
    }
  }

  lemma TrimmedIs(lead: string, middle: string, trail: string)
    requires lead in {"", "-"} && trail in {"", "-"}
    requires if middle == "" then trail == "" else IsSlugChar(middle[0]) && IsSlugChar(middle[|middle| - 1])
    ensures TrimRight(TrimLeft(lead + middle + trail)) == middle
  {
    var all := lead + middle + trail;
    if lead == "-" {
      assert all[1..] == middle + trail;
    } else {
      assert all == middle + trail;
    }
    assert TrimLeft(all) == middle + trail;
    if trail == "-" {
      assert (middle + trail)[..|middle|] == middle;
    } else {
      assert middle + trail == middle;
    }
  }

  /** A slug is its heading's words with one hyphen between each two; a heading is refused exactly when it
      has no word. */
  lemma SlugIsItsWords(folded: string)
    ensures Slugify(folded) == if Words(folded) == [] then None else Some(Hyphenated(Words(folded)))
  {
    var lead, trail := CollapsedIs(folded);
    HyphenatedEnds(Words(folded));
    TrimmedIs(lead, Hyphenated(Words(folded)), trail);
  }

  // The word up to the first hyphen can be told from the rest.
  lemma FirstHyphen(a: string, s: string, b: string, t: string)
    requires IsWord(a) && IsWord(b) && a + "-" + s == b + "-" + t
    ensures a == b && s == t
  {
    var x, y := a + "-" + s, b + "-" + t;
    assert x[|a|] == '-' && y[|b|] == '-';
    assert forall i | 0 <= i < |a| :: x[i] == a[i];
    assert forall i | 0 <= i < |b| :: y[i] == b[i];
    assert |a| == |b|;
    assert a == x[..|a|] == y[..|b|] == b;
    assert s == x[|a| + 1..] == y[|b| + 1..] == t;
  }

  lemma NoHyphen(a: string, b: string, t: string)
    requires IsWord(a)
    ensures a != b + "-" + t
  {
    assert (b + "-" + t)[|b|] == '-';
  }

  lemma {:induction false} HyphenatedInjective(v: seq<string>, w: seq<string>)
    requires v != [] && w != [] && Hyphenated(v) == Hyphenated(w)
    requires (forall x | x in v :: IsWord(x)) && (forall x | x in w :: IsWord(x))
    ensures v == w
  {
    assert v[0] in v && w[0] in w;
    if |v| > 1 && |w| > 1 {
      FirstHyphen(v[0], Hyphenated(v[1..]), w[0], Hyphenated(w[1..]));
      HyphenatedInjective(v[1..], w[1..]);
      assert v == [v[0]] + v[1..] && w == [w[0]] + w[1..];
    } else if |v| > 1 {
      NoHyphen(w[0], v[0], Hyphenated(v[1..]));
    } else if |w| > 1 {
      NoHyphen(v[0], w[0], Hyphenated(w[1..]));
    }
  }

  /** Two headings have the same slug exactly when they have the same words: what stands between the
      words, and before and after them, is lost and nothing else is. */
  lemma SameSlugIff(a: string, b: string)
    ensures Slugify(a) == Slugify(b) <==> Words(a) == Words(b)
  {
    SlugIsItsWords(a);
    SlugIsItsWords(b);
    HyphenatedEnds(Words(a));
    HyphenatedEnds(Words(b));
    if Slugify(a) == Slugify(b) && Words(a) != [] {
      HyphenatedInjective(Words(a), Words(b));
    }
  }

  // ------------------------------------------------------------------
  // Anchors
  // ------------------------------------------------------------------

  /** How many times x occurs. */
  function Occurrences(s: seq<string>, x: string): nat {
    if s == [] then 0 else (if s[|s| - 1] == x then 1 else 0) + Occurrences(s[..|s| - 1], x)
  }

  function Numbered(slug: string, n: nat): string { slug + "-" + Dec(n) }

  /** The anchor of the heading at i: its slug, numbered from the second heading of that slug on. */
  function AnchorAt(slugs: seq<string>, i: nat): string
    requires i < |slugs|
  {
    var n := Occurrences(slugs[..i + 1], slugs[i]);
    if n == 1 then slugs[i] else Numbered(slugs[i], n)
  }

  function AnchorIds(slugs: seq<string>): seq<string> {
    seq(|slugs|, i requires 0 <= i < |slugs| => AnchorAt(slugs, i))
  }

  // The slugs of the headings, or the first heading without one.
  function Slugs(headings: seq<string>, fold: string -> string): Result<seq<string>, string> {
    if headings == [] then Ok([])
    else
      match Slugs(headings[..|headings| - 1], fold)
      case Err(h) => Err(h)
      case Ok(before) =>
        var last := headings[|headings| - 1];
        match Slugify(fold(last))
        case None => Err(last)
        case Some(slug) => Ok(before + [slug])
  }

  function AnchorsFor(headings: seq<string>, fold: string -> string): Result<seq<string>, string> {
    match Slugs(headings, fold)
    case Err(h) => Err(h)
    case Ok(slugs) => Ok(AnchorIds(slugs))
  }

  lemma {:induction false} SlugsPrefix(headings: seq<string>, fold: string -> string, i: nat)
    requires i <= |headings|
    ensures Slugs(headings[..i], fold).Err? ==> Slugs(headings, fold) == Slugs(headings[..i], fold)
    decreases |headings| - i
  {
    if i == |headings| {
      assert headings[..i] == headings;
    } else {
      assert headings[..i + 1][..i] == headings[..i];
      SlugsPrefix(headings, fold, i + 1);
    }
  }

  lemma AnchorsAppend(slugs: seq<string>, slug: string)
    ensures AnchorIds(slugs + [slug]) == AnchorIds(slugs) + [AnchorAt(slugs + [slug], |slugs|)]
  {
    forall i: nat | i < |slugs| ensures AnchorAt(slugs + [slug], i) == AnchorAt(slugs, i) {
      assert (slugs + [slug])[..i + 1] == slugs[..i + 1];
    }
  }

  // The dictionary holds every slug's count so far.
  ghost predicate Counted(seen: map<string, nat>, slugs: seq<string>) {
    forall x :: Occurrences(slugs, x) == if x in seen then seen[x] else 0
  }

  lemma CountOne(seen: map<string, nat>, slugs: seq<string>, slug: string)
    requires Counted(seen, slugs)
    ensures var n := (if slug in seen then seen[slug] else 0) + 1;
            && Counted(seen[slug := n], slugs + [slug])
            && AnchorIds(slugs + [slug]) == AnchorIds(slugs) + [if n == 1 then slug else Numbered(slug, n)]
  {
    var grown := slugs + [slug];
    assert grown[..|slugs|] == slugs && grown[..|grown|] == grown;
    forall x ensures Occurrences(grown, x) == Occurrences(slugs, x) + if x == slug then 1 else 0 {
    }
    AnchorsAppend(slugs, slug);
    hide Occurrences;
  }

  lemma SlugsStep(headings: seq<string>, fold: string -> string, i: nat)
    requires i < |headings| && Slugs(headings[..i], fold).Ok?
    ensures Slugify(fold(headings[i])).None? ==> Slugs(headings, fold) == Err(headings[i])
    ensures Slugify(fold(headings[i])).Some? ==>
              Slugs(headings[..i + 1], fold) == Ok(Slugs(headings[..i], fold).value + [Slugify(fold(headings[i])).value])
  {
    assert headings[..i + 1][..i] == headings[..i];
    SlugsPrefix(headings, fold, i + 1);
  }

  /** The loop, counting occurrences in a dictionary. */
  method AnchorIdsFor(headings: seq<string>, fold: string -> string)
    returns (r: Result<seq<string>, string>)
    ensures r == AnchorsFor(headings, fold)
  {
    var seen: map<string, nat> := map[];
    var anchors: seq<string> := [];
    ghost var slugs: seq<string> := [];
    assert Counted(seen, slugs);
    for i := 0 to |headings|
      invariant Slugs(headings[..i], fold) == Ok(slugs) && anchors == AnchorIds(slugs)
      invariant Counted(seen, slugs)
    {
      hide Counted, Slugs, AnchorIds;
      SlugsStep(headings, fold, i);
      var found := Slugify(fold(headings[i]));
      if found.None? {
        return Err(headings[i]);
      }
      var slug := found.value;
      CountOne(seen, slugs, slug);
      slugs := slugs + [slug];
      seen := seen[slug := (if slug in seen then seen[slug] else 0) + 1];
      anchors := anchors + [if seen[slug] == 1 then slug else Numbered(slug, seen[slug])];
    }
    assert headings[..|headings|] == headings;
    r := Ok(anchors);
  }

  /** What an anchor has to look like to be cited. */
  predicate Citable(anchor: string) {
    anchor != "" && IsSlugChar(anchor[0]) && forall i | 0 <= i < |anchor| :: IsSlugChar(anchor[i]) || anchor[i] == '-'
  }

  lemma {:induction false} SlugsAreCitable(headings: seq<string>, fold: string -> string)
    requires Slugs(headings, fold).Ok?
    ensures |Slugs(headings, fold).value| == |headings|
    ensures forall i | 0 <= i < |headings| ::
              Slugify(fold(headings[i])) == Some(Slugs(headings, fold).value[i]) && Citable(Slugs(headings, fold).value[i])
  {
    if headings != [] {
      var last := headings[|headings| - 1];
      SlugsAreCitable(headings[..|headings| - 1], fold);
      SlugIsItsWords(fold(last));
      HyphenatedEnds(Words(fold(last)));
    }
  }

  /** There is one anchor for each heading and each can be cited, unless some heading has no word, which
      the derivation refuses. */
  lemma AnchorsAreCitable(headings: seq<string>, fold: string -> string)
    ensures AnchorsFor(headings, fold).Ok? <==> forall h | h in headings :: Words(fold(h)) != []
    ensures AnchorsFor(headings, fold).Ok? ==>
              && |AnchorsFor(headings, fold).value| == |headings|
              && forall i | 0 <= i < |headings| :: Citable(AnchorsFor(headings, fold).value[i])
  {
    RefusedIff(headings, fold);
    if AnchorsFor(headings, fold).Ok? {
      SlugsAreCitable(headings, fold);
    }
  }

  lemma {:induction false} RefusedIff(headings: seq<string>, fold: string -> string)
    ensures Slugs(headings, fold).Ok? <==> forall h | h in headings :: Words(fold(h)) != []
  {
    if headings != [] {
      var n := |headings| - 1;
      RefusedIff(headings[..n], fold);
      SlugIsItsWords(fold(headings[n]));
      HyphenatedEnds(Words(fold(headings[n])));
      assert headings == headings[..n] + [headings[n]];
    }
  }

  // ------------------------------------------------------------------
  // Stability
  // ------------------------------------------------------------------

  lemma {:induction false} OccurrencesAppend(a: seq<string>, b: seq<string>, x: string)
    ensures Occurrences(a + b, x) == Occurrences(a, x) + Occurrences(b, x)
    decreases |b|
  {
    if b == [] {
      assert a + b == a;
    } else {
      assert (a + b)[..|a + b| - 1] == a + b[..|b| - 1];
      OccurrencesAppend(a, b[..|b| - 1], x);
    }
  }

  /** Inserting a heading with a fresh slug, anywhere, leaves every other anchor as it was. */
  lemma FreshHeadingShiftsNothing(slugs: seq<string>, added: string, at: nat)
    requires at <= |slugs| && added !in slugs
    ensures AnchorIds(slugs[..at] + [added] + slugs[at..])
         == AnchorIds(slugs)[..at] + [added] + AnchorIds(slugs)[at..]
  {
    var grown := slugs[..at] + [added] + slugs[at..];
    var expected := AnchorIds(slugs)[..at] + [added] + AnchorIds(slugs)[at..];
    forall i: nat | i < |grown| ensures AnchorIds(grown)[i] == expected[i] {
      FreshAnchor(slugs, added, at, i);
      hide AnchorAt;
    }
  }

  lemma FreshAnchor(slugs: seq<string>, added: string, at: nat, i: nat)
    requires at <= |slugs| && added !in slugs && i < |slugs| + 1
    ensures var grown := slugs[..at] + [added] + slugs[at..];
            AnchorAt(grown, i) == if i < at then AnchorAt(slugs, i) else if i == at then added else AnchorAt(slugs, i - 1)
  {
    var grown := slugs[..at] + [added] + slugs[at..];
    if i < at {
      assert grown[..i + 1] == slugs[..i + 1];
    } else if i == at {
      assert grown[..i + 1] == slugs[..at] + [added];
      OccurrencesAppend(slugs[..at], [added], added);
      Absent(slugs[..at], added);
      assert Occurrences([added], added) == 1;
    } else {
      var x, back := slugs[i - 1], slugs[at..i];
      assert grown[i] == x && grown[..i + 1] == slugs[..at] + [added] + back;
      assert slugs[..i] == slugs[..at] + back;
      OccurrencesAppend(slugs[..at] + [added], back, x);
      OccurrencesAppend(slugs[..at], [added], x);
      OccurrencesAppend(slugs[..at], back, x);
      assert Occurrences([added], x) == 0;
    }
  }

  lemma {:induction false} Absent(s: seq<string>, x: string)
    ensures x !in s <==> Occurrences(s, x) == 0
  {
    if s != [] {
      Absent(s[..|s| - 1], x);
      assert s == s[..|s| - 1] + [s[|s| - 1]];
    }
  }

  // ------------------------------------------------------------------
  // Uniqueness
  // ------------------------------------------------------------------

  /** A slug that some repeated slug's number already spells. */
  ghost predicate SpelledTwice(slugs: seq<string>) {
    exists slug, k: nat :: slug in slugs && 2 <= k <= Occurrences(slugs, slug) && Numbered(slug, k) in slugs
  }

  // A number has no hyphen, so where it was attached is plain.
  lemma NumberedInjective(a: string, m: nat, b: string, n: nat)
    requires Numbered(a, m) == Numbered(b, n)
    ensures a == b && m == n
  {
    assert Numbered(a, m) == a + ['-'] + Dec(m) && Numbered(b, n) == b + ['-'] + Dec(n);
    NumeralsEnd(a, '-', m, b, '-', n);
  }

  lemma OccurrencesGrow(slugs: seq<string>, i: nat, j: nat)
    requires i < j < |slugs| && slugs[i] == slugs[j]
    ensures 0 < Occurrences(slugs[..i + 1], slugs[i]) < Occurrences(slugs[..j + 1], slugs[j])
  {
    var x := slugs[i];
    assert slugs[..i + 1][..i] == slugs[..i] && slugs[..j + 1][..j] == slugs[..j];
    assert slugs[..j] == slugs[..i + 1] + slugs[i + 1..j];
    OccurrencesAppend(slugs[..i + 1], slugs[i + 1..j], x);
  }

  // Each occurrence number up to the count belongs to some position.
  lemma {:induction false} NthOccurrence(slugs: seq<string>, x: string, k: nat)
    requires 1 <= k <= Occurrences(slugs, x)
    ensures exists i :: 0 <= i < |slugs| && slugs[i] == x && Occurrences(slugs[..i + 1], x) == k
    decreases |slugs|
  {
    var last := |slugs| - 1;
    if k <= Occurrences(slugs[..last], x) {
      NthOccurrence(slugs[..last], x, k);
      var i :| 0 <= i < last && slugs[..last][i] == x && Occurrences(slugs[..last][..i + 1], x) == k;
      assert slugs[..last][..i + 1] == slugs[..i + 1];
      assert slugs[i] == x;
    } else {
      assert slugs[..last + 1] == slugs;
      assert slugs[last] == x;
    }
  }

  lemma WithinCount(slugs: seq<string>, i: nat)
    requires i < |slugs|
    ensures 1 <= Occurrences(slugs[..i + 1], slugs[i]) <= Occurrences(slugs, slugs[i])
  {
    CountsItself(slugs, i);
    hide Occurrences;
    assert slugs == slugs[..i + 1] + slugs[i + 1..];
    OccurrencesAppend(slugs[..i + 1], slugs[i + 1..], slugs[i]);
  }

  lemma CountsItself(slugs: seq<string>, i: nat)
    requires i < |slugs|
    ensures 1 <= Occurrences(slugs[..i + 1], slugs[i])
  {
    assert slugs[..i + 1][|slugs[..i + 1]| - 1] == slugs[i];
  }

  lemma ClashIsCollision(slugs: seq<string>, i: nat, j: nat)
    requires i < j < |slugs| && AnchorAt(slugs, i) == AnchorAt(slugs, j)
    ensures SpelledTwice(slugs)
  {
    var m, n := Occurrences(slugs[..i + 1], slugs[i]), Occurrences(slugs[..j + 1], slugs[j]);
    WithinCount(slugs, i);
    WithinCount(slugs, j);
    hide Occurrences;
    if slugs[i] == slugs[j] {
      OccurrencesGrow(slugs, i, j);
    }
    if m > 1 && n > 1 {
      NumberedInjective(slugs[i], m, slugs[j], n);
    } else if n > 1 {
      assert slugs[j] in slugs && slugs[i] in slugs && Numbered(slugs[j], n) == slugs[i];
    } else if m > 1 {
      assert slugs[i] in slugs && slugs[j] in slugs && Numbered(slugs[i], m) == slugs[j];
    }
  }

  lemma CollisionClashes(slugs: seq<string>)
    requires SpelledTwice(slugs)
    ensures !Distinct(AnchorIds(slugs))
  {
    var slug: string, k: nat :|
      slug in slugs && 2 <= k <= Occurrences(slugs, slug) && Numbered(slug, k) in slugs;
    NthOccurrence(slugs, slug, k);
    var i :| 0 <= i < |slugs| && slugs[i] == slug && Occurrences(slugs[..i + 1], slug) == k;
    var other := Numbered(slug, k);
    Absent(slugs, other);
    NthOccurrence(slugs, other, 1);
    var j :| 0 <= j < |slugs| && slugs[j] == other && Occurrences(slugs[..j + 1], other) == 1;
    hide Occurrences;
    assert AnchorIds(slugs)[i] == other == AnchorIds(slugs)[j];
    assert |other| > |slug|;
  }

  /** "Unique within a document" holds exactly when no heading's slug is another, repeated slug with
      one of its own occurrence numbers attached. */
  lemma AnchorsUniqueIff(slugs: seq<string>)
    ensures Distinct(AnchorIds(slugs)) <==> !SpelledTwice(slugs)
  {
    if SpelledTwice(slugs) {
      CollisionClashes(slugs);
    }
    if !Distinct(AnchorIds(slugs)) {
      var i: nat, j: nat :| i < j < |slugs| && AnchorIds(slugs)[i] == AnchorIds(slugs)[j];
      ClashIsCollision(slugs, i, j);
    }
  }

  /** Headings "Examples", "Examples" and "Examples 2" share an anchor, however else headings are folded. */
  lemma AnchorsCanCollide(fold: string -> string)
    requires fold("Examples") == "examples" && fold("Examples 2") == "examples 2"
    ensures AnchorsFor(["Examples", "Examples", "Examples 2"], fold) == Ok(["examples", "examples-2", "examples-2"])
  {
    hide Slugify;
    var headings := ["Examples", "Examples", "Examples 2"];
    ExampleSlugs();
    SlugsGrow([], "Examples", fold);
    SlugsGrow(["Examples"], "Examples", fold);
    SlugsGrow(["Examples", "Examples"], "Examples 2", fold);
    hide Slugs;
    assert [] + ["Examples"] == ["Examples"];
    assert ["Examples"] + ["Examples"] == ["Examples", "Examples"];
    assert ["Examples", "Examples"] + ["Examples 2"] == headings;
    var slugs := ["examples", "examples", "examples-2"];
    assert [] + ["examples"] + ["examples"] + ["examples-2"] == slugs;
    assert Slugs(headings, fold) == Ok(slugs);
    ExampleAnchors();
    hide AnchorAt;
    assert AnchorIds(slugs) == ["examples", "examples-2", "examples-2"];
  }

  lemma SlugsGrow(headings: seq<string>, last: string, fold: string -> string)
    requires Slugify(fold(last)).Some?
    ensures Slugs([], fold) == Ok([])
    ensures Slugs(headings, fold).Ok? ==>
              Slugs(headings + [last], fold) == Ok(Slugs(headings, fold).value + [Slugify(fold(last)).value])
  {
    hide Slugify;
    assert (headings + [last])[..|headings|] == headings;
  }

  lemma {:induction false} WordFirst(w: string, rest: string)
    requires IsWord(w) && (rest != "" ==> !IsSlugChar(rest[0]))
    ensures Words(w + rest) == [w] + Words(rest)
  {
    var s := w + rest;
    assert forall i | 0 <= i < |w| :: s[i] == w[i] && IsSlugChar(s[i]);
    assert |w| < |s| ==> s[|w|] == rest[0] && !IsSlugChar(s[|w|]);
    var n := Run(s, true);
    assert n == |w| && s[..n] == w && s[n..] == rest;
  }

  lemma ExampleWords()
    ensures Words("examples") == ["examples"] && Words("examples 2") == ["examples", "2"]
  {
    var long, short := "examples", "2";
    assert IsWord(long) && IsWord(short);
    WordFirst(long, "");
    WordFirst(long, " 2");
    WordFirst(short, "");
    assert !IsSlugChar(" 2"[0]) && " 2"[1..] == short;
    assert Words(" 2") == Words(short);
    assert Words("") == [];
    hide Words;
    assert long + "" == long && short + "" == short && long + " 2" == "examples 2";
    assert [long] + [] == [long] && [short] + [] == [short] && [long] + [short] == ["examples", "2"];
  }

  lemma ExampleSlugs()
    ensures Slugify("examples") == Some("examples") && Slugify("examples 2") == Some("examples-2")
  {
    ExampleWords();
    hide Words, Slugify;
    SlugIsItsWords("examples");
    SlugIsItsWords("examples 2");
    assert ["examples", "2"][1..] == ["2"];
    assert "examples" + "-" + "2" == "examples-2";
  }

  lemma ExampleAnchors()
    ensures var slugs := ["examples", "examples", "examples-2"];
            AnchorAt(slugs, 0) == "examples" && AnchorAt(slugs, 1) == AnchorAt(slugs, 2) == "examples-2"
  {
    var slugs := ["examples", "examples", "examples-2"];
    assert slugs[..1] == ["examples"];
    assert slugs[..2] == ["examples"] + ["examples"] && slugs[..3] == slugs[..2] + ["examples-2"];
    OccurrencesAppend(["examples"], ["examples"], "examples");
    assert Occurrences(["examples"], "examples") == 1;
    OccurrencesAppend(slugs[..2], ["examples-2"], "examples-2");
    OccurrencesAppend(["examples"], ["examples"], "examples-2");
    assert |"examples"| == 8 && |"examples-2"| == 10;
    assert Occurrences(["examples"], "examples-2") == 0;
    assert Occurrences(["examples-2"], "examples-2") == 1;
    assert Dec(2) == "2";
    assert Numbered("examples", 2) == "examples-2";
  }
}
