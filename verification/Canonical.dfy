/** Separator-joined encoding of flat field lists, and digests over it
    (governance/canonical.py). */
module Canonical {
  import opened Prelude

  const SEPARATOR: char := '\U{1F}'

  predicate Clean(s: string) { SEPARATOR !in s }

  /** A string no field separator occurs in. */
  type Text = s: string | Clean(s) witness ""

  predicate IsHexDigit(c: char) { IsDigit(c) || 'a' <= c <= 'f' }

  // Sixty-four lower-case hex digits: what a digest is documented to be.
  predicate IsDigest(s: string) { |s| == 64 && forall i | 0 <= i < |s| :: IsHexDigit(s[i]) }

  // The pattern's "$" also matches just before one final newline.
  predicate MatchesSha256Hex(s: string) {
    && (|s| == 64 || (|s| == 65 && s[64] == '\n'))
    && (forall i | 0 <= i < 64 :: IsHexDigit(s[i]))
  }

  /** Exactly the digests are accepted, and the digests followed by one newline. */
  lemma AcceptedIff(s: string)
    ensures MatchesSha256Hex(s) <==> exists d :: IsDigest(d) && (s == d || s == d + "\n")
  {
    if MatchesSha256Hex(s) {
      var d := s[..64];
      assert IsDigest(d) && (s == d || s == d + "\n");
    }
  }

  /** What is accepted is a digest exactly when it does not end in a newline; and every digest with a
      newline behind it is accepted without being one. */
  lemma NewlineSlipsThrough(s: string)
    ensures MatchesSha256Hex(s) ==> (IsDigest(s) <==> s[|s| - 1] != '\n')
    ensures IsDigest(s) ==> MatchesSha256Hex(s + "\n") && !IsDigest(s + "\n")
  {
    if MatchesSha256Hex(s) {
      assert IsHexDigit(s[63]);
    }
  }

  function Repeat(c: char, n: nat): (s: string)
    ensures |s| == n && forall i | 0 <= i < n :: s[i] == c
  {
    seq(n, _ => c)
  }

  /** What require_sha256_hex lets through. */
  type Hex = s: string | MatchesSha256Hex(s) witness Repeat('0', 64)

  lemma HexIsClean(h: Hex)
    ensures Clean(h)
  {
    forall i | 0 <= i < |h| ensures h[i] != SEPARATOR {
      if i < 64 {
        assert IsHexDigit(h[i]);
      }
    }
  }

  /** SHA-256 over a string: any function whose values are hex digests. */
  type Hasher = string -> Hex

  predicate AllClean(fields: seq<string>) { forall i | 0 <= i < |fields| :: Clean(fields[i]) }

  function Join(fields: seq<string>): string {
    if fields == [] then ""
    else if |fields| == 1 then fields[0]
    else fields[0] + [SEPARATOR] + Join(fields[1..])
  }

  // Index of the first field carrying the separator, or the number of fields.
  function FirstDirty(fields: seq<string>): nat {
    if fields == [] || !Clean(fields[0]) then 0 else 1 + FirstDirty(fields[1..])
  }

  /** join_fields: refuses at the first field carrying the separator, else joins. */
  function JoinFields(fields: seq<string>): Result<string, nat> {
    var k := FirstDirty(fields);
    if k < |fields| then Err(k) else Ok(Join(fields))
  }

  lemma {:induction false} FirstDirtyMeaning(fields: seq<string>)
    ensures FirstDirty(fields) <= |fields|
    ensures AllClean(fields[..FirstDirty(fields)])
    ensures FirstDirty(fields) < |fields| ==> !Clean(fields[FirstDirty(fields)])
  {
    if fields == [] || !Clean(fields[0]) {
    } else {
      FirstDirtyMeaning(fields[1..]);
      var k := FirstDirty(fields[1..]);
      assert fields[..k + 1] == [fields[0]] + fields[1..][..k];
    }
  }

  /** The encoding succeeds exactly on clean fields, and an error names the first bad one. */
  lemma JoinFieldsMeaning(fields: seq<string>)
    ensures JoinFields(fields).Ok? <==> AllClean(fields)
    ensures JoinFields(fields).Ok? ==> JoinFields(fields).value == Join(fields)
    ensures JoinFields(fields).Err? ==>
              var k := JoinFields(fields).error;
              k < |fields| && !Clean(fields[k]) && AllClean(fields[..k])
  {
    FirstDirtyMeaning(fields);
    var k := FirstDirty(fields);
    if k == |fields| {
      assert fields[..k] == fields;
    }
  }

  // Cutting at the first separator is unambiguous.
  lemma FirstCut(a: string, x: string, b: string, y: string)
    requires Clean(a) && Clean(b)
    requires a + [SEPARATOR] + x == b + [SEPARATOR] + y
    ensures a == b && x == y
  {
    var s, t := a + [SEPARATOR] + x, b + [SEPARATOR] + y;
    assert s[|a|] == SEPARATOR && t[|b|] == SEPARATOR;
    assert |a| == |b|;
    assert a == s[..|a|] == t[..|b|] == b;
    assert x == s[|a| + 1..] == t[|b| + 1..] == y;
  }

  // The separator occurs in an encoding exactly when there are at least two fields.
  lemma JoinShows(f: seq<string>)
    requires AllClean(f) && f != []
    ensures SEPARATOR in Join(f) <==> |f| > 1
  {
    if |f| > 1 {
      assert Join(f)[|f[0]|] == SEPARATOR;
    }
  }

  lemma {:induction false} JoinInjective(f: seq<string>, g: seq<string>)
    requires AllClean(f) && AllClean(g) && f != [] && g != []
    requires Join(f) == Join(g)
    ensures f == g
    decreases |f|
  {
    JoinShows(f);
    JoinShows(g);
    if |f| > 1 {
      FirstCut(f[0], Join(f[1..]), g[0], Join(g[1..]));
      JoinInjective(f[1..], g[1..]);
      assert f == [f[0]] + f[1..] && g == [g[0]] + g[1..];
    }
  }

  /** Two clean field lists encode alike exactly when they are equal, up to the one
      ambiguity the encoding has: no fields and one empty field both give "". */
  lemma JoinDecodable(f: seq<string>, g: seq<string>)
    requires AllClean(f) && AllClean(g)
    ensures Join(f) == Join(g) <==> f == g || (f == [] && g == [""]) || (f == [""] && g == [])
  {
    if Join(f) == Join(g) && f != [] && g != [] {
      JoinInjective(f, g);
    } else if Join(f) == Join(g) && f != g {
      var h := if f == [] then g else f;
      JoinShows(h);
      assert h == [h[0]];
    }
  }

  /** digest_fields over fields already known to be clean. */
  function Digest(h: Hasher, fields: seq<string>): Hex
    requires AllClean(fields)
  {
    h(Join(fields))
  }
}
