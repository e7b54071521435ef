/** The fenced block: one escaped JSON object per line between two fence lines that carry a nonce
    derived from the content (orchestrator/firewall.py). */
module Fences {
  import opened Prelude
  import opened Canonical
  import opened Json
  import opened Redaction

  datatype CaseRecord = CaseRecord(recordId: string, source: string, text: string)

  // sort_keys puts the three names in this order.
  function Fields(r: CaseRecord): Members {
    [("record_id", r.recordId), ("source", r.source), ("text", r.text)]
  }

  /** One record, as one line. */
  function Line(r: CaseRecord): string { EscapeLineBreaks(DumpObject(Fields(r))) }

  function Lines(records: seq<CaseRecord>): seq<string> {
    seq(|records|, i requires 0 <= i < |records| => Line(records[i]))
  }

  function JoinLines(lines: seq<string>): string {
    if lines == [] then ""
    else if |lines| == 1 then lines[0]
    else lines[0] + "\n" + JoinLines(lines[1..])
  }

  function Body(records: seq<CaseRecord>): string { JoinLines(Lines(records)) }

  // ------------------------------------------------------------------
  // Every record is one line
  // ------------------------------------------------------------------

  /** The characters str.splitlines breaks at. */
  predicate IsBreak(c: char) {
    || c in {'\n', '\r', '\U{0B}', '\U{0C}', '\U{1C}', '\U{1D}', '\U{1E}'}
    || c in {'\U{85}', '\U{2028}', '\U{2029}'}
  }

  // No control character, and none of the three breaks beyond ASCII.
  predicate QuietChar(c: char) { c >= ' ' && c !in {'\U{85}', '\U{2028}', '\U{2029}'} }

  predicate Quiet(s: string) { forall i | 0 <= i < |s| :: QuietChar(s[i]) }

  lemma QuietConcat(a: string, b: string)
    requires Quiet(a) && Quiet(b)
    ensures Quiet(a + b)
  {
  }

  lemma {:induction false} EncodedIsQuiet(s: string)
    ensures Quiet(Encoded(s))
  {
    if s != "" {
      EncodedIsQuiet(s[1..]);
      EncodedCharIs(s[0]);
      UnicodeEscapeIsQuiet(s[0]);
      QuietConcat(EncodedChar(s[0]), Encoded(s[1..]));
    }
  }

  lemma UnicodeEscapeIsQuiet(c: char)
    ensures c as nat < 0x1_0000 ==> Quiet(UnicodeEscape(c as nat))
    ensures c !in {'\U{85}', '\U{2028}', '\U{2029}'} ==> Quiet(JsonChar(c))
  {
    if c as nat < 0x1_0000 {
      UnicodeEscapeIsPlain(c as nat);
    }
  }

  /** Whatever a record holds, its line holds no line break of any kind, no field separator, and opens
      with a brace. */
  lemma LineIsQuiet(r: CaseRecord)
    ensures Quiet(Line(r)) && Line(r) != "" && Line(r)[0] == '{'
    ensures forall i | 0 <= i < |Line(r)| :: !IsBreak(Line(r)[i]) && Line(r)[i] != SEPARATOR
  {
    var ms := Fields(r);
    PassOverObject(ms);
    QuietMembers(ms);
    hide EncodedMembers, Fields;
    QuietConcat("{", EncodedMembers(ms));
    QuietConcat("{" + EncodedMembers(ms), "}");
  }

  lemma {:induction false} QuietMembers(ms: Members)
    ensures Quiet(EncodedMembers(ms))
  {
    if ms != [] {
      QuietMember(ms[0]);
      if |ms| > 1 {
        QuietMembers(ms[1..]);
        QuietConcat(EncodedMember(ms[0]), ", ");
        QuietConcat(EncodedMember(ms[0]) + ", ", EncodedMembers(ms[1..]));
      }
    }
  }

  lemma QuietMember(m: (string, string))
    ensures Quiet(EncodedMember(m))
  {
    EncodedIsQuiet(m.0);
    EncodedIsQuiet(m.1);
    hide Encoded;
  }

  lemma {:induction false} JoinedLinesAreClean(lines: seq<string>)
    requires AllClean(lines)
    ensures Clean(JoinLines(lines))
    decreases |lines|
  {
    if |lines| > 1 {
      JoinedLinesAreClean(lines[1..]);
    }
  }

  /** The body never carries the reserved separator, so deriving its nonce cannot be refused for it. */
  lemma BodyIsClean(records: seq<CaseRecord>)
    ensures Clean(Body(records))
  {
    forall i | 0 <= i < |records| ensures Clean(Lines(records)[i]) {
      LineIsQuiet(records[i]);
    }
    JoinedLinesAreClean(Lines(records));
  }

  // ------------------------------------------------------------------
  // The nonce
  // ------------------------------------------------------------------

  predicate Occurs(needle: string, hay: string) {
    exists at :: 0 <= at <= |hay| && OccursAt(needle, hay, at)
  }

  const FENCE_DOMAIN := "ts-sentry/case-data-fence/v1"
  const NONCE_LENGTH: nat := 32
  const ATTEMPTS: nat := 64

  datatype FirewallError = DuplicateId(recordId: string) | SeparatorInContent | NoNonce

  function Candidate(h: Hasher, counter: nat, body: string): string
    requires AllClean([FENCE_DOMAIN, Dec(counter), body])
  {
    Digest(h, [FENCE_DOMAIN, Dec(counter), body])[..NONCE_LENGTH]
  }

  lemma NonceFieldsClean(counter: nat, body: string)
    requires Clean(body)
    ensures AllClean([FENCE_DOMAIN, Dec(counter), body])
  {
    var d := Dec(counter);
    forall i | 0 <= i < |d| ensures d[i] != SEPARATOR {
      assert IsDigit(d[i]);
    }
  }

  // The first attempt, from one on, whose token the body does not contain.
  function NonceFrom(h: Hasher, body: string, counter: nat): Result<string, FirewallError>
    requires Clean(body)
    decreases ATTEMPTS - counter
  {
    if counter >= ATTEMPTS then Err(NoNonce)
    else
      NonceFieldsClean(counter, body);
      var nonce := Candidate(h, counter, body);
      if Occurs(nonce, body) then NonceFrom(h, body, counter + 1) else Ok(nonce)
  }

  /** _derive_nonce. */
  function DerivedNonce(h: Hasher, body: string): Result<string, FirewallError> {
    if Clean(body) then NonceFrom(h, body, 0) else Err(SeparatorInContent)
  }

  method DeriveNonce(h: Hasher, body: string) returns (r: Result<string, FirewallError>)
    ensures r == DerivedNonce(h, body)
  {
    if !Clean(body) {
      return Err(SeparatorInContent);
    }
    for counter := 0 to ATTEMPTS
      invariant NonceFrom(h, body, 0) == NonceFrom(h, body, counter)
    {
      NonceFieldsClean(counter, body);
      var nonce := Candidate(h, counter, body);
      if !Occurs(nonce, body) {
        return Ok(nonce);
      }
    }
    r := Err(NoNonce);
  }

  // Thirty-two hex digits.
  predicate NonceShaped(s: string) { |s| == NONCE_LENGTH && forall i | 0 <= i < |s| :: IsHexDigit(s[i]) }

  lemma {:induction false} NonceIsAbsent(h: Hasher, body: string, counter: nat)
    requires Clean(body) && NonceFrom(h, body, counter).Ok?
    ensures NonceShaped(NonceFrom(h, body, counter).value) && !Occurs(NonceFrom(h, body, counter).value, body)
    decreases ATTEMPTS - counter
  {
    NonceFieldsClean(counter, body);
    if Occurs(Candidate(h, counter, body), body) {
      NonceIsAbsent(h, body, counter + 1);
    }
  }

  // From one attempt on, this is the first whose token the body does not contain.
  ghost predicate FirstFree(h: Hasher, body: string, counter: nat, k: nat) {
    && counter <= k && !Occurs(Token(h, k, body), body)
    && forall j: nat | counter <= j < k :: Occurs(Token(h, j, body), body)
  }

  lemma {:induction false} FirstAttempt(h: Hasher, body: string, counter: nat) returns (k: nat)
    requires Clean(body) && counter <= 64
    ensures counter <= k <= 64 && forall j: nat | counter <= j < k :: Occurs(Token(h, j, body), body)
    ensures k < 64 ==> !Occurs(Token(h, k, body), body) && NonceFrom(h, body, counter) == Ok(Token(h, k, body))
    ensures k == 64 ==> NonceFrom(h, body, counter) == Err(NoNonce)
    decreases 64 - counter
  {
    k := counter;
    if counter < 64 {
      TokenIsCandidate(h, counter, body);
      hide Token, Occurs, Candidate;
      if Occurs(Token(h, counter, body), body) {
        k := FirstAttempt(h, body, counter + 1);
      }
    }
  }

  /** Where a nonce comes from: the first 32 digits of the digest of domain, attempt and body, for the first of 64
      attempts whose token the body does not contain. A body with a separator in it has none. */
  lemma NonceOrigin(h: Hasher, body: string)
    ensures !Clean(body) ==> DerivedNonce(h, body) == Err(SeparatorInContent)
    ensures Clean(body) && DerivedNonce(h, body).Ok? ==>
              exists k: nat :: k < 64 && FirstFree(h, body, 0, k) && DerivedNonce(h, body).value == Token(h, k, body)
    ensures Clean(body) && DerivedNonce(h, body).Err? ==>
              DerivedNonce(h, body).error == NoNonce && forall j: nat | j < 64 :: Occurs(Token(h, j, body), body)
  {
    if Clean(body) {
      var k := FirstAttempt(h, body, 0);
      hide Token, Occurs, NonceFrom;
      assert k < 64 ==> FirstFree(h, body, 0, k);
    }
  }

  function Token(h: Hasher, k: nat, body: string): string {
    var u := [SEPARATOR];
    h("ts-sentry/case-data-fence/v1" + u + (Dec(k) + u + body))[..32]
  }

  lemma TokenIsCandidate(h: Hasher, k: nat, body: string)
    requires Clean(body)
    ensures AllClean([FENCE_DOMAIN, Dec(k), body]) && Token(h, k, body) == Candidate(h, k, body)
  {
    NonceFieldsClean(k, body);
    var f := [FENCE_DOMAIN, Dec(k), body];
    assert f[1..] == [Dec(k), body] && f[1..][1..] == [body];
    assert Join([body]) == body;
    assert Join(f[1..]) == Dec(k) + [SEPARATOR] + body;
  }

  /** Each attempt, and each body, digests a string of its own. */
  lemma AttemptsDiffer(k: nat, body: string, j: nat, other: string)
    requires Clean(body) && Clean(other) && Join([FENCE_DOMAIN, Dec(k), body]) == Join([FENCE_DOMAIN, Dec(j), other])
    ensures k == j && body == other
  {
    NonceFieldsClean(k, body);
    NonceFieldsClean(j, other);
    var f, g := [FENCE_DOMAIN, Dec(k), body], [FENCE_DOMAIN, Dec(j), other];
    JoinInjective(f, g);
    assert f[1] == g[1] && f[2] == g[2];
    DecInjective(k, j);
  }

  // ------------------------------------------------------------------
  // The block
  // ------------------------------------------------------------------

  datatype InertBlock = InertBlock(nonce: string, records: seq<CaseRecord>)

  // The first record id that an earlier record already has.
  function FirstRepeat(records: seq<CaseRecord>, seen: set<string>): Option<string> {
    if records == [] then None
    else if records[0].recordId in seen then Some(records[0].recordId)
    else FirstRepeat(records[1..], seen + {records[0].recordId})
  }

  /** InertBlock.wrap: refuses a repeated id, otherwise fences with a derived nonce. */
  function Wrapped(h: Hasher, records: seq<CaseRecord>): Result<InertBlock, FirewallError> {
    match FirstRepeat(records, {})
    case Some(id) => Err(DuplicateId(id))
    case None =>
      match DerivedNonce(h, Body(records))
      case Err(e) => Err(e)
      case Ok(nonce) => Ok(InertBlock(nonce, records))
  }

  method Wrap(h: Hasher, records: seq<CaseRecord>) returns (r: Result<InertBlock, FirewallError>)
    ensures r == Wrapped(h, records)
  {
    var seen: set<string> := {};
    for i := 0 to |records|
      invariant FirstRepeat(records, {}) == FirstRepeat(records[i..], seen)
    {
      assert records[i..][1..] == records[i + 1..];
      if records[i].recordId in seen {
        return Err(DuplicateId(records[i].recordId));
      }
      seen := seen + {records[i].recordId};
    }
    assert records[|records|..] == [];
    var nonce := DeriveNonce(h, Body(records));
    r := match nonce case Err(e) => Err(e) case Ok(n) => Ok(InertBlock(n, records));
  }

  function Ids(records: seq<CaseRecord>): seq<string> {
    seq(|records|, i requires 0 <= i < |records| => records[i].recordId)
  }

  lemma {:induction false} RepeatsMeaning(records: seq<CaseRecord>, seen: set<string>)
    ensures FirstRepeat(records, seen) == None <==>
              Distinct(Ids(records)) && forall i | 0 <= i < |records| :: records[i].recordId !in seen
    decreases |records|
  {
    if records != [] {
      var rest, more := records[1..], seen + {records[0].recordId};
      RepeatsMeaning(rest, more);
      assert Ids(records) == [records[0].recordId] + Ids(rest);
      assert forall i | 0 < i < |records| :: records[i] == rest[i - 1];
      if Distinct(Ids(records)) {
        forall i | 0 <= i < |rest| ensures rest[i].recordId == Ids(records)[i + 1] != Ids(records)[0] {
        }
      }
      if FirstRepeat(rest, more) == None && records[0].recordId !in seen {
        forall i, j | 0 <= i < j < |records| ensures Ids(records)[i] != Ids(records)[j] {
          assert rest[j - 1].recordId !in more;
          assert i > 0 ==> Ids(rest)[i - 1] != Ids(rest)[j - 1];
        }
      }
    }
  }

  /** Wrapping is refused only for a repeated id or when all 64 candidate tokens occur in the content;
      never for the separator. A block it returns has a nonce its own body does not contain. */
  lemma WrapIsSafe(h: Hasher, records: seq<CaseRecord>)
    ensures Wrapped(h, records).Err? ==>
              Wrapped(h, records).error != SeparatorInContent &&
              (Wrapped(h, records).error.DuplicateId? <==> !Distinct(Ids(records)))
    ensures Wrapped(h, records).Ok? ==>
              var b := Wrapped(h, records).value;
              && b.records == records && Distinct(Ids(records))
              && NonceShaped(b.nonce) && !Occurs(b.nonce, Body(records))
  {
    BodyIsClean(records);
    RepeatsMeaning(records, {});
    if Wrapped(h, records).Ok? {
      NonceIsAbsent(h, Body(records), 0);
    }
    OnlyNoNonce(h, Body(records), 0);
  }

  lemma {:induction false} RepeatAt(records: seq<CaseRecord>, seen: set<string>) returns (j: nat)
    requires FirstRepeat(records, seen).Some?
    ensures j < |records| && FirstRepeat(records, seen) == Some(records[j].recordId)
    ensures FirstRepeat(records[..j], seen) == None
    ensures records[j].recordId in seen || exists i :: 0 <= i < j && records[i].recordId == records[j].recordId
    decreases |records|
  {
    if records[0].recordId in seen {
      j := 0;
      assert records[..0] == [];
    } else {
      var k := RepeatAt(records[1..], seen + {records[0].recordId});
      j := k + 1;
      assert records[..j][1..] == records[1..][..k];
      if i :| 0 <= i < k && records[1..][i].recordId == records[j].recordId {
        assert records[i + 1].recordId == records[j].recordId;
      } else {
        assert records[j].recordId in seen || records[0].recordId == records[j].recordId;
      }
    }
  }

  /** The id a refusal names is the first that comes up a second time. */
  lemma RefusedForTheFirstRepeat(h: Hasher, records: seq<CaseRecord>, id: string)
    requires Wrapped(h, records) == Err(DuplicateId(id))
    ensures exists j :: 0 <= j < |records| && records[j].recordId == id && Distinct(Ids(records[..j])) && id in Ids(records[..j])
  {
    BodyIsClean(records);
    OnlyNoNonce(h, Body(records), 0);
    var j := RepeatAt(records, {});
    RepeatsMeaning(records[..j], {});
    var i :| 0 <= i < j && records[i].recordId == records[j].recordId;
    assert Ids(records[..j])[i] == id;
  }

  // Whether one of the attempts from one on gives a token the body does not contain.
  ghost predicate TokenFrom(h: Hasher, body: string, counter: nat)
    requires Clean(body)
  {
    exists k: nat :: counter <= k < ATTEMPTS && Absent(h, body, k)
  }

  predicate Absent(h: Hasher, body: string, k: nat)
    requires Clean(body)
  {
    NonceFieldsClean(k, body);
    !Occurs(Candidate(h, k, body), body)
  }

  lemma {:induction false} NonceIffToken(h: Hasher, body: string, counter: nat)
    requires Clean(body)
    ensures NonceFrom(h, body, counter).Ok? <==> TokenFrom(h, body, counter)
    decreases ATTEMPTS - counter
  {
    if counter < ATTEMPTS {
      NonceIffToken(h, body, counter + 1);
      assert Absent(h, body, counter) <==> NonceFrom(h, body, counter) == Ok(Candidate(h, counter, body)) by {
        NonceFieldsClean(counter, body);
        if Occurs(Candidate(h, counter, body), body) && NonceFrom(h, body, counter).Ok? {
          NonceIsAbsent(h, body, counter + 1);
        }
      }
    }
  }

  /** Records can be wrapped exactly when their ids are distinct and some attempt gives a token their
      body does not contain. */
  lemma WrapsIff(h: Hasher, records: seq<CaseRecord>)
    ensures Clean(Body(records))
    ensures Wrapped(h, records).Ok? <==> Distinct(Ids(records)) && TokenFrom(h, Body(records), 0)
  {
    BodyIsClean(records);
    RepeatsMeaning(records, {});
    NonceIffToken(h, Body(records), 0);
  }

  lemma {:induction false} OnlyNoNonce(h: Hasher, body: string, counter: nat)
    requires Clean(body)
    ensures NonceFrom(h, body, counter).Err? ==> NonceFrom(h, body, counter).error == NoNonce
    decreases ATTEMPTS - counter
  {
    if counter < ATTEMPTS {
      NonceFieldsClean(counter, body);
      if Occurs(Candidate(h, counter, body), body) {
        OnlyNoNonce(h, body, counter + 1);
      }
    }
  }

  const OPEN_PREFIX := "-----BEGIN TS-SENTRY CASE DATA"
  const CLOSE_PREFIX := "-----END TS-SENTRY CASE DATA"

  function FenceOpen(nonce: string): string { OPEN_PREFIX + " " + nonce + "-----" }

  function FenceClose(nonce: string): string { CLOSE_PREFIX + " " + nonce + "-----" }

  function Fenced(nonce: string, body: string): string { JoinLines([FenceOpen(nonce), body, FenceClose(nonce)]) }

  /** The verbatim block. */
  function Render(b: InertBlock): string { Fenced(b.nonce, Body(b.records)) }

  function SignalsOf(id: string, signals: seq<Signal>): seq<Signal> {
    if signals == [] then []
    else (if signals[0].recordId == id then [signals[0]] else []) + SignalsOf(id, signals[1..])
  }

  // Every signal lies inside the text of the record it names.
  ghost predicate Scanned(records: seq<CaseRecord>, signals: seq<Signal>) {
    forall i | 0 <= i < |records| :: InText(SignalsOf(records[i].recordId, signals), |records[i].text|)
  }

  ghost function RedactedRecords(b: InertBlock, signals: seq<Signal>): seq<CaseRecord>
    requires Scanned(b.records, signals)
  {
    seq(|b.records|, i requires 0 <= i < |b.records| =>
      var r := b.records[i];
      r.(text := Redacted(r.text, SignalsOf(r.recordId, signals), b.nonce)))
  }

  /** The copy a model sees. */
  ghost function RenderRedacted(b: InertBlock, signals: seq<Signal>): string
    requires Scanned(b.records, signals)
  {
    Fenced(b.nonce, Body(RedactedRecords(b, signals)))
  }

  // ------------------------------------------------------------------
  // Reading a block back
  // ------------------------------------------------------------------

  function FirstBreak(s: string): (n: nat)
    ensures n <= |s| && (n < |s| ==> IsBreak(s[n]))
  {
    if s == "" || IsBreak(s[0]) then 0 else 1 + FirstBreak(s[1..])
  }

  // A carriage return takes a newline right after it along.
  function Width(s: string, n: nat): (w: nat)
    requires n < |s|
    ensures 1 <= w <= 2 && n + w <= |s|
  {
    if s[n] == '\r' && n + 1 < |s| && s[n + 1] == '\n' then 2 else 1
  }

  // What follows the first line and its break.
  function AfterFirst(s: string): (rest: string)
    requires FirstBreak(s) < |s|
    ensures |rest| < |s|
  {
    s[FirstBreak(s) + Width(s, FirstBreak(s))..]
  }

  /** str.splitlines(). */
  function SplitLines(s: string): seq<string>
    decreases |s|
  {
    if s == "" then []
    else if FirstBreak(s) == |s| then [s]
    else [s[..FirstBreak(s)]] + SplitLines(AfterFirst(s))
  }

  predicate OneLine(s: string) { forall i | 0 <= i < |s| :: !IsBreak(s[i]) }

  lemma {:induction false} FirstBreakAfter(line: string, rest: string)
    requires OneLine(line)
    ensures FirstBreak(line + rest) == |line| + FirstBreak(rest)
  {
    if line != "" {
      assert (line + rest)[1..] == line[1..] + rest;
      FirstBreakAfter(line[1..], rest);
    } else {
      assert line + rest == rest;
    }
  }

  lemma SplitFirst(line: string, rest: string)
    requires OneLine(line)
    ensures SplitLines(line + "\n" + rest) == [line] + SplitLines(rest)
  {
    var s := line + "\n" + rest;
    CutAtNewline(line, rest);
    hide FirstBreak, AfterFirst, OneLine;
    assert s[..|line|] == line;
  }

  lemma CutAtNewline(line: string, rest: string)
    requires OneLine(line)
    ensures var s := line + "\n" + rest; FirstBreak(s) == |line| && AfterFirst(s) == rest
  {
    var s := line + "\n" + rest;
    assert s == line + ("\n" + rest);
    FirstBreakAfter(line, "\n" + rest);
    assert FirstBreak("\n" + rest) == 0;
    assert s[|line|] == '\n' && s[|line| + 1..] == rest;
  }

  /** The ten characters a line ends at. */
  lemma BreaksByCode(c: char)
    ensures IsBreak(c) <==> c as int in {10, 11, 12, 13, 28, 29, 30, 133, 8232, 8233}
  {
  }

  /** A line ends at the first of them; a carriage return and a newline right after it end one line, not two. */
  lemma LineEnds(line: string, c: char, rest: string)
    requires OneLine(line) && IsBreak(c)
    ensures c != '\r' || rest == "" || rest[0] != '\n' ==> SplitLines(line + [c] + rest) == [line] + SplitLines(rest)
    ensures c == '\r' ==> SplitLines(line + [c] + (['\n'] + rest)) == [line] + SplitLines(rest)
  {
    EndsAt(line, c, rest);
    if c == '\r' {
      EndsAt(line, c, ['\n'] + rest);
      var s := line + [c] + (['\n'] + rest);
      assert s[|line| + 2..] == rest;
    }
    assert (line + [c] + rest)[|line| + 1..] == rest;
  }

  lemma EndsAt(line: string, c: char, rest: string)
    requires OneLine(line) && IsBreak(c)
    ensures var s := line + [c] + rest;
            && FirstBreak(s) == |line| && s[|line|] == c && s[..|line|] == line
            && SplitLines(s) == [line] + SplitLines(s[|line| + Width(s, |line|)..])
            && (rest != "" ==> s[|line| + 1] == rest[0])
  {
    var s := line + [c] + rest;
    assert s == line + ([c] + rest);
    FirstBreakAfter(line, [c] + rest);
    assert FirstBreak([c] + rest) == 0;
  }

  /** Joining break-free lines, the last one not empty, and splitting again gives the same lines. */
  lemma {:induction false} SplitJoined(lines: seq<string>)
    requires lines != [] && lines[|lines| - 1] != "" && forall i | 0 <= i < |lines| :: OneLine(lines[i])
    ensures SplitLines(JoinLines(lines)) == lines
    decreases |lines|
  {
    if |lines| == 1 {
      FirstBreakAfter(lines[0], "");
      assert lines[0] + "" == lines[0];
    } else {
      SplitJoined(lines[1..]);
      SplitFirst(lines[0], JoinLines(lines[1..]));
      assert lines == [lines[0]] + lines[1..];
    }
  }

  datatype ParseError = NotABlock | BadRecord(line: string)

  function LoadAll(lines: seq<string>): Result<seq<map<string, string>>, ParseError> {
    if lines == [] then Ok([])
    else if lines[0] == "" then LoadAll(lines[1..])
    else
      match LoadObject(lines[0])
      case None => Err(BadRecord(lines[0]))
      case Some(o) =>
        match LoadAll(lines[1..])
        case Err(e) => Err(e)
        case Ok(os) => Ok([o] + os)
  }

  /** parse_block_records: the lines between the first and the last, empty ones skipped. */
  function ParseBlock(rendered: string): Result<seq<map<string, string>>, ParseError> {
    var lines := SplitLines(rendered);
    if |lines| < 2 then Err(NotABlock) else LoadAll(lines[1..|lines| - 1])
  }

  /** What is no block: a text of fewer than two lines. Two lines are a block without records. */
  lemma BlocksHaveTwoFences(rendered: string)
    ensures ParseBlock(rendered) == Err(NotABlock) <==> |SplitLines(rendered)| < 2
    ensures |SplitLines(rendered)| == 2 ==> ParseBlock(rendered) == Ok([])
  {
    var lines := SplitLines(rendered);
    if |lines| >= 2 {
      NotNotABlock(lines[1..|lines| - 1]);
    }
  }

  lemma {:induction false} NotNotABlock(lines: seq<string>)
    ensures LoadAll(lines) != Err(NotABlock)
  {
    if lines != [] {
      NotNotABlock(lines[1..]);
    }
  }

  function Objects(records: seq<CaseRecord>): seq<map<string, string>> {
    seq(|records|, i requires 0 <= i < |records| => MapOf(Fields(records[i])))
  }

  lemma LoadOne(line: string, o: map<string, string>, rest: seq<string>)
    requires line != "" && LoadObject(line) == Some(o)
    ensures LoadAll([line] + rest) == match LoadAll(rest) case Err(e) => Err(e) case Ok(os) => Ok([o] + os)
  {
    hide LoadObject;
    assert ([line] + rest)[1..] == rest;
  }

  lemma LineLoads(r: CaseRecord)
    ensures Line(r) != "" && LoadObject(Line(r)) == Some(MapOf(Fields(r)))
  {
    LineIsQuiet(r);
    ObjectRoundTrip(Fields(r));
    hide Fields, MapOf, LoadObject, Quiet;
  }

  lemma FirstRecord(records: seq<CaseRecord>)
    ensures records == [] ==> Lines(records) == [] && Objects(records) == []
    ensures records != [] ==>
              && Lines(records) == [Line(records[0])] + Lines(records[1..])
              && Objects(records) == [MapOf(Fields(records[0]))] + Objects(records[1..])
  {
    hide Line, Fields, MapOf;
  }

  lemma {:induction false} LoadLines(records: seq<CaseRecord>)
    ensures LoadAll(Lines(records)) == Ok(Objects(records))
  {
    hide Fields, MapOf, LoadObject, Line, Lines, Objects;
    FirstRecord(records);
    if records != [] {
      LoadLines(records[1..]);
      LineLoads(records[0]);
      hide LoadAll;
      LoadOne(Line(records[0]), MapOf(Fields(records[0])), Lines(records[1..]));
    }
  }

  // The body's own lines: the records', or one empty line for no records.
  function BodyLines(records: seq<CaseRecord>): seq<string> {
    if records == [] then [""] else Lines(records)
  }

  lemma {:induction false} JoinSplice(front: string, middle: seq<string>, last: string)
    requires middle != []
    ensures JoinLines([front] + middle + [last]) == front + "\n" + JoinLines(middle) + "\n" + last
    decreases |middle|
  {
    var all := [front] + middle + [last];
    assert all[1..] == middle + [last];
    if |middle| == 1 {
      assert (middle + [last])[1..] == [last];
      assert JoinLines(middle + [last]) == middle[0] + "\n" + last;
      assert front + "\n" + (middle[0] + "\n" + last) == front + "\n" + middle[0] + "\n" + last;
    } else {
      assert middle + [last] == [middle[0]] + middle[1..] + [last];
      JoinSplice(middle[0], middle[1..], last);
      assert JoinLines(middle + [last]) == middle[0] + "\n" + JoinLines(middle[1..]) + "\n" + last;
      assert front + "\n" + (middle[0] + "\n" + JoinLines(middle[1..]) + "\n" + last)
          == front + "\n" + (middle[0] + "\n" + JoinLines(middle[1..])) + "\n" + last;
    }
  }

  lemma FenceLines(nonce: string)
    requires NonceShaped(nonce)
    ensures OneLine(FenceOpen(nonce)) && OneLine(FenceClose(nonce)) && FenceClose(nonce) != ""
    ensures FenceOpen(nonce)[0] == '-' && FenceClose(nonce)[0] == '-'
  {
    forall i | 0 <= i < |nonce| ensures !IsBreak(nonce[i]) {
      assert IsHexDigit(nonce[i]);
    }
    LiteralsAreLines();
  }

  lemma LiteralsAreLines()
    ensures OneLine(OPEN_PREFIX) && OneLine(CLOSE_PREFIX) && OneLine("-----")
  {
  }

  /** A rendered block splits into exactly the fences and one line per record, whatever the records
      hold, and no line between the fences can be mistaken for one. */
  lemma BlockLines(nonce: string, records: seq<CaseRecord>)
    requires NonceShaped(nonce)
    ensures SplitLines(Fenced(nonce, Body(records))) == BlockParts(nonce, records)
    ensures forall i | 0 <= i < |BodyLines(records)| :: BodyLines(records)[i] == "" || BodyLines(records)[i][0] == '{'
  {
    BlockIsJoined(nonce, records);
    BodyLinesAre(records);
    hide BlockParts, Fenced, Body, SplitLines, JoinLines, OneLine;
    SplitJoined(BlockParts(nonce, records));
  }

  /** Both fences carry the block's nonce: a rendered block begins and ends with exactly these lines. */
  lemma FencesCarryNonce(nonce: string, records: seq<CaseRecord>)
    requires NonceShaped(nonce)
    ensures var lines := SplitLines(Fenced(nonce, Body(records)));
            && |lines| >= 2
            && lines[0] == "-----BEGIN TS-SENTRY CASE DATA " + nonce + "-----"
            && lines[|lines| - 1] == "-----END TS-SENTRY CASE DATA " + nonce + "-----"
  {
    BlockLines(nonce, records);
    hide SplitLines, Fenced, Body, BodyLines;
    assert OPEN_PREFIX + " " == "-----BEGIN TS-SENTRY CASE DATA ";
    assert CLOSE_PREFIX + " " == "-----END TS-SENTRY CASE DATA ";
  }

  function BlockParts(nonce: string, records: seq<CaseRecord>): seq<string> {
    [FenceOpen(nonce)] + BodyLines(records) + [FenceClose(nonce)]
  }

  lemma BlockIsJoined(nonce: string, records: seq<CaseRecord>)
    requires NonceShaped(nonce)
    ensures var all := BlockParts(nonce, records);
            && JoinLines(all) == Fenced(nonce, Body(records))
            && |all| >= 2 && all[|all| - 1] != "" && forall i | 0 <= i < |all| :: OneLine(all[i])
  {
    FenceLines(nonce);
    var open, close, middle := FenceOpen(nonce), FenceClose(nonce), BodyLines(records);
    BodyLinesAre(records);
    SpliceBody(open, middle, close);
    hide FenceOpen, FenceClose, Body, BodyLines, JoinLines, OneLine;
    WrappedLines(open, middle, close);
  }

  lemma WrappedLines(open: string, middle: seq<string>, close: string)
    requires OneLine(open) && OneLine(close) && forall i | 0 <= i < |middle| :: OneLine(middle[i])
    ensures var all := [open] + middle + [close]; forall i | 0 <= i < |all| :: OneLine(all[i])
  {
    hide OneLine;
    var all := [open] + middle + [close];
    forall i | 0 <= i < |all| ensures OneLine(all[i]) {
      assert 0 < i < |all| - 1 ==> all[i] == middle[i - 1];
    }
  }

  lemma SpliceBody(open: string, middle: seq<string>, close: string)
    requires middle != []
    ensures JoinLines([open, JoinLines(middle), close]) == JoinLines([open] + middle + [close])
  {
    var body := JoinLines(middle);
    assert [open, body, close] == [open] + [body] + [close];
    JoinOne(body);
    hide JoinLines;
    JoinSplice(open, middle, close);
    JoinSplice(open, [body], close);
  }

  lemma JoinOne(line: string)
    ensures JoinLines([line]) == line
  {
  }

  lemma BodyLinesAre(records: seq<CaseRecord>)
    ensures BodyLines(records) != [] && JoinLines(BodyLines(records)) == Body(records)
    ensures forall i | 0 <= i < |BodyLines(records)| ::
              OneLine(BodyLines(records)[i]) && (BodyLines(records)[i] == "" || BodyLines(records)[i][0] == '{')
  {
    forall i | 0 <= i < |records| ensures OneLine(Line(records[i])) && Line(records[i])[0] == '{' {
      LineIsQuiet(records[i]);
    }
    hide Line;
  }

  /** Reading a rendered block back gives the records' objects, in order, one for one. */
  lemma FenceRoundTrip(nonce: string, records: seq<CaseRecord>)
    requires NonceShaped(nonce)
    ensures ParseBlock(Fenced(nonce, Body(records))) == Ok(Objects(records))
  {
    BlockLines(nonce, records);
    var lines := SplitLines(Fenced(nonce, Body(records)));
    assert lines[1..|lines| - 1] == BodyLines(records);
    hide Fenced, SplitLines, LoadObject;
    LoadLines(records);
    if records == [] {
      assert [""][1..] == Lines(records) == [];
      assert LoadAll([""]) == LoadAll(Lines(records));
    }
  }

  /** A record back from its object. */
  function RecordOf(o: map<string, string>): Option<CaseRecord> {
    if "record_id" in o && "source" in o && "text" in o then Some(CaseRecord(o["record_id"], o["source"], o["text"]))
    else None
  }

  lemma RecordRecovered(r: CaseRecord)
    ensures RecordOf(MapOf(Fields(r))) == Some(r)
  {
    var ms := Fields(r);
    assert ms[..2] == [ms[0], ms[1]] && ms[..2][..1] == [ms[0]] && ms[..2][..1][..0] == [];
    assert MapOf([ms[0]]) == map[][ms[0].0 := ms[0].1];
    assert MapOf([ms[0], ms[1]]) == map[][ms[0].0 := ms[0].1][ms[1].0 := ms[1].1];
    var names := ["record_id", "source", "text"];
    assert names[0][0] == 'r' && names[1][0] == 's' && names[2][0] == 't';
  }

  /** Both copies of a wrapped block read back exactly: the verbatim copy to the records it fenced,
      the model's copy to the redacted ones, neither with a record more or less. */
  lemma BlocksReadBack(h: Hasher, records: seq<CaseRecord>, signals: seq<Signal>)
    requires Wrapped(h, records).Ok? && Scanned(records, signals)
    ensures var b := Wrapped(h, records).value;
            && b.records == records
            && ParseBlock(Render(b)) == Ok(Objects(records))
            && ParseBlock(RenderRedacted(b, signals)) == Ok(Objects(RedactedRecords(b, signals)))
            && (forall i | 0 <= i < |records| :: RecordOf(Objects(records)[i]) == Some(records[i]))
  {
    WrapIsSafe(h, records);
    var b := Wrapped(h, records).value;
    FenceRoundTrip(b.nonce, records);
    FenceRoundTrip(b.nonce, RedactedRecords(b, signals));
    forall i | 0 <= i < |records| ensures RecordOf(Objects(records)[i]) == Some(records[i]) {
      RecordRecovered(records[i]);
    }
  }

  // ------------------------------------------------------------------
  // The whole user message
  // ------------------------------------------------------------------

  datatype ComposeError = InstructionHoldsNonce | InstructionHoldsFence(prefix: string)

  // Why an instruction may not stand in front of a block, if it may not.
  function ComposeRefusal(instruction: string, nonce: string): Option<ComposeError> {
    if Occurs(nonce, instruction) then Some(InstructionHoldsNonce)
    else if Occurs(OPEN_PREFIX, instruction) then Some(InstructionHoldsFence(OPEN_PREFIX))
    else if Occurs(CLOSE_PREFIX, instruction) then Some(InstructionHoldsFence(CLOSE_PREFIX))
    else None
  }

  /** compose_user_content: the instruction, then the model's copy of the block; refused when the
      instruction carries the nonce or a fence prefix. */
  ghost function Composed(instruction: string, b: InertBlock, signals: seq<Signal>): Result<string, ComposeError>
    requires Scanned(b.records, signals)
  {
    match ComposeRefusal(instruction, b.nonce)
    case Some(e) => Err(e)
    case None => Ok(instruction + "\n\n" + RenderRedacted(b, signals) + "\n")
  }

  /** Why an instruction is refused: for the nonce before anything else, then for the opening prefix, then for the
      closing one. */
  lemma ComposeReasons(instruction: string, nonce: string)
    ensures var r := ComposeRefusal(instruction, nonce);
            var begins, ends := "-----BEGIN TS-SENTRY CASE DATA", "-----END TS-SENTRY CASE DATA";
            && (r == Some(InstructionHoldsNonce) <==> Occurs(nonce, instruction))
            && (r == Some(InstructionHoldsFence(begins)) <==> !Occurs(nonce, instruction) && Occurs(begins, instruction))
            && (r == Some(InstructionHoldsFence(ends)) <==>
                  !Occurs(nonce, instruction) && !Occurs(begins, instruction) && Occurs(ends, instruction))
            && (r == None <==> !Occurs(nonce, instruction) && !Occurs(begins, instruction) && !Occurs(ends, instruction))
  {
    hide Occurs;
    assert OPEN_PREFIX[5] == 'B' && CLOSE_PREFIX[5] == 'E';
  }

  /** The block adds no field separator to a message: it holds one exactly when the instruction does. */
  lemma ComposedIsClean(instruction: string, b: InertBlock, signals: seq<Signal>)
    requires NonceShaped(b.nonce) && Scanned(b.records, signals) && Composed(instruction, b, signals).Ok?
    ensures Clean(Composed(instruction, b, signals).value) <==> Clean(instruction)
  {
    var records := RedactedRecords(b, signals);
    BodyIsClean(records);
    FencesAreClean(b.nonce);
    hide RedactedRecords, Body, FenceOpen, FenceClose, Occurs;
    assert Clean(Fenced(b.nonce, Body(records))) by {
      JoinedLinesAreClean([FenceOpen(b.nonce), Body(records), FenceClose(b.nonce)]);
    }
    hide Fenced;
    CleanConcat(instruction, "\n\n");
    CleanConcat(instruction + "\n\n", Fenced(b.nonce, Body(records)));
    CleanConcat(instruction + "\n\n" + Fenced(b.nonce, Body(records)), "\n");
  }

  lemma CleanConcat(a: string, b: string)
    ensures Clean(a + b) <==> Clean(a) && Clean(b)
  {
    forall c | c in a ensures c in a + b {
    }
    forall c | c in b ensures c in a + b {
      var i :| 0 <= i < |b| && b[i] == c;
      assert (a + b)[|a| + i] == c;
    }
  }

  lemma FencesAreClean(nonce: string)
    requires NonceShaped(nonce)
    ensures Clean(FenceOpen(nonce)) && Clean(FenceClose(nonce))
  {
    forall i | 0 <= i < |nonce| ensures nonce[i] != SEPARATOR {
      assert IsHexDigit(nonce[i]);
    }
    PrefixesAreClean();
  }

  lemma PrefixesAreClean()
    ensures Clean(OPEN_PREFIX) && Clean(CLOSE_PREFIX) && Clean("-----")
  {
  }

  /** A newline always ends a line, so splitting distributes over it. */
  lemma {:induction false} SplitAtNewline(a: string, b: string)
    ensures SplitLines(a + "\n" + b) == SplitLines(a + "\n") + SplitLines(b)
    decreases |a|
  {
    hide SplitLines, FirstBreak, AfterFirst;
    var t := a + "\n";
    SameCut(a, b);
    SplitStep(t + b);
    SplitStep(t);
    if AfterFirst(t) == "" {
      NoLines();
      assert "" + b == b;
    } else {
      var rest := a[|a| + 1 - |AfterFirst(t)|..];
      SplitAtNewline(rest, b);
      assert AfterFirst(t) + b == rest + "\n" + b;
      Reassociate([t[..FirstBreak(t)]], SplitLines(rest + "\n"), SplitLines(b));
    }
  }

  // Text after a newline does not move the first cut before it.
  lemma SameCut(a: string, b: string)
    ensures var t := a + "\n";
            && FirstBreak(t + b) == FirstBreak(t) <= |a|
            && (t + b)[..FirstBreak(t)] == t[..FirstBreak(t)]
            && AfterFirst(t + b) == AfterFirst(t) + b
            && (AfterFirst(t) != "" ==> AfterFirst(t) == a[|a| + 1 - |AfterFirst(t)|..] + "\n")
  {
    var t := a + "\n";
    assert t[|a|] == '\n';
    BreakByThen(t, |a|);
    FirstBreakStays(t, b);
    WidthStays(t, b, FirstBreak(t));
    hide FirstBreak, Width;
    var cut := FirstBreak(t) + Width(t, FirstBreak(t));
    assert (t + b)[cut..] == t[cut..] + b;
    if cut < |t| {
      assert t[cut..] == a[cut..] + "\n";
    }
  }

  lemma Reassociate(a: seq<string>, b: seq<string>, c: seq<string>)
    ensures a + (b + c) == (a + b) + c
  {
  }

  lemma NoLines()
    ensures SplitLines("") == []
  {
  }

  lemma SplitStep(s: string)
    requires FirstBreak(s) < |s|
    ensures SplitLines(s) == [s[..FirstBreak(s)]] + SplitLines(AfterFirst(s))
  {
    hide FirstBreak, AfterFirst;
  }

  lemma WidthStays(t: string, b: string, n: nat)
    requires n < |t| && t[|t| - 1] == '\n'
    ensures Width(t + b, n) == Width(t, n) && (t + b)[..n] == t[..n]
  {
  }

  lemma {:induction false} BreakByThen(s: string, k: nat)
    requires k < |s| && IsBreak(s[k])
    ensures FirstBreak(s) <= k
  {
    if !IsBreak(s[0]) {
      BreakByThen(s[1..], k - 1);
    }
  }

  lemma {:induction false} FirstBreakStays(s: string, more: string)
    requires FirstBreak(s) < |s|
    ensures FirstBreak(s + more) == FirstBreak(s)
  {
    if !IsBreak(s[0]) {
      assert (s + more)[1..] == s[1..] + more;
      FirstBreakStays(s[1..], more);
    }
  }

  /** Every line of a text is a piece of it. */
  lemma {:induction false} LinesArePieces(s: string, i: nat)
    requires i < |SplitLines(s)|
    ensures Occurs(SplitLines(s)[i], s)
    decreases |s|
  {
    hide FirstBreak, AfterFirst;
    if FirstBreak(s) == |s| {
      assert OccursAt(s, s, 0);
    } else if i == 0 {
      assert OccursAt(s[..FirstBreak(s)], s, 0);
    } else {
      var rest := AfterFirst(s);
      LinesArePieces(rest, i - 1);
      RestIsPiece(s);
      hide SplitLines, Occurs;
      SplitStep(s);
      OccursInside(SplitLines(rest)[i - 1], s[..|s| - |rest|], rest, "");
      assert s[..|s| - |rest|] + rest + "" == s;
    }
  }

  lemma RestIsPiece(s: string)
    requires FirstBreak(s) < |s|
    ensures s == s[..|s| - |AfterFirst(s)|] + AfterFirst(s)
  {
    hide FirstBreak;
  }

  // A needle without newlines cannot reach into trailing ones.
  lemma NotInTheNewlines(needle: string, s: string)
    requires needle != "" && '\n' !in needle
    ensures Occurs(needle, s + "\n\n") ==> Occurs(needle, s)
  {
    var t := s + "\n\n";
    if Occurs(needle, t) {
      var at :| 0 <= at <= |t| && OccursAt(needle, t, at);
      var last := at + |needle| - 1;
      assert t[last] == needle[|needle| - 1] && needle[|needle| - 1] in needle;
      if at <= |s| {
        forall k | 0 <= k < |needle| ensures t[at + k] == needle[k] {
          assert needle[k] == t[at..at + |needle|][k];
        }
        assert last < |s|;
        assert s[at..at + |needle|] == needle;
        assert OccursAt(needle, s, at);
      }
    }
  }

  lemma {:induction false} SplitTrailing(lines: seq<string>)
    requires lines != [] && forall i | 0 <= i < |lines| :: OneLine(lines[i])
    ensures SplitLines(JoinLines(lines) + "\n") == lines
    decreases |lines|
  {
    if |lines| == 1 {
      SplitFirst(lines[0], "");
      assert lines[0] + "\n" + "" == lines[0] + "\n";
    } else {
      SplitTrailing(lines[1..]);
      SplitFirst(lines[0], JoinLines(lines[1..]) + "\n");
      assert lines[0] + "\n" + (JoinLines(lines[1..]) + "\n") == JoinLines(lines) + "\n";
      assert lines == [lines[0]] + lines[1..];
    }
  }

  /** In a composed message the fence lines are the block's own two: the instruction's lines hold no
      fence prefix and no nonce, and every line between the fences is a record. */
  lemma ComposedFences(instruction: string, b: InertBlock, signals: seq<Signal>)
    requires NonceShaped(b.nonce) && Scanned(b.records, signals) && Composed(instruction, b, signals).Ok?
    ensures var before, body := SplitLines(instruction + "\n\n"), BodyLines(RedactedRecords(b, signals));
            && SplitLines(Composed(instruction, b, signals).value)
                 == before + BlockParts(b.nonce, RedactedRecords(b, signals))
            && (forall i | 0 <= i < |before| ::
                  !Occurs(OPEN_PREFIX, before[i]) && !Occurs(CLOSE_PREFIX, before[i]) && !Occurs(b.nonce, before[i]))
            && (forall i | 0 <= i < |body| :: body[i] == "" || body[i][0] == '{')
  {
    BlockLines(b.nonce, RedactedRecords(b, signals));
    InstructionLines(instruction, b.nonce);
    hide SplitLines, RedactedRecords, BodyLines, Fenced, Body, Occurs, BlockParts;
    ComposedSplits(instruction, b.nonce, RedactedRecords(b, signals));
  }

  lemma ComposedSplits(instruction: string, nonce: string, records: seq<CaseRecord>)
    requires NonceShaped(nonce)
    ensures SplitLines(instruction + "\n\n" + Fenced(nonce, Body(records)) + "\n")
         == SplitLines(instruction + "\n\n") + BlockParts(nonce, records)
  {
    BlockTrails(nonce, records);
    hide SplitLines, Fenced, Body, BlockParts;
    var block := Fenced(nonce, Body(records));
    SplitAtNewline(instruction + "\n", block + "\n");
    assert instruction + "\n" + "\n" == instruction + "\n\n";
    assert instruction + "\n\n" + (block + "\n") == instruction + "\n\n" + block + "\n";
  }

  lemma InstructionLines(instruction: string, nonce: string)
    requires NonceShaped(nonce)
    requires !Occurs(nonce, instruction) && !Occurs(OPEN_PREFIX, instruction) && !Occurs(CLOSE_PREFIX, instruction)
    ensures var before := SplitLines(instruction + "\n\n");
            forall i | 0 <= i < |before| ::
              !Occurs(OPEN_PREFIX, before[i]) && !Occurs(CLOSE_PREFIX, before[i]) && !Occurs(nonce, before[i])
  {
    NoNewlineInFences(nonce);
    hide SplitLines, Occurs;
    var before := SplitLines(instruction + "\n\n");
    forall i | 0 <= i < |before|
      ensures !Occurs(OPEN_PREFIX, before[i]) && !Occurs(CLOSE_PREFIX, before[i]) && !Occurs(nonce, before[i])
    {
      LinesArePieces(instruction + "\n\n", i);
      LineLacks(OPEN_PREFIX, before[i], instruction);
      LineLacks(CLOSE_PREFIX, before[i], instruction);
      LineLacks(nonce, before[i], instruction);
    }
  }

  lemma LineLacks(needle: string, line: string, instruction: string)
    requires needle != "" && '\n' !in needle && Occurs(line, instruction + "\n\n")
    ensures Occurs(needle, line) ==> Occurs(needle, instruction)
  {
    hide Occurs;
    if Occurs(needle, line) {
      OccursThrough(needle, line, instruction + "\n\n");
      NotInTheNewlines(needle, instruction);
    }
  }

  lemma NoNewlineInFences(nonce: string)
    requires NonceShaped(nonce)
    ensures nonce != "" && '\n' !in nonce && '\n' !in OPEN_PREFIX && '\n' !in CLOSE_PREFIX
  {
    forall i | 0 <= i < |nonce| ensures nonce[i] != '\n' {
      assert IsHexDigit(nonce[i]);
    }
  }

  // A final newline adds no line to a block.
  lemma BlockTrails(nonce: string, records: seq<CaseRecord>)
    requires NonceShaped(nonce)
    ensures SplitLines(Fenced(nonce, Body(records)) + "\n") == BlockParts(nonce, records)
  {
    BlockIsJoined(nonce, records);
    hide BlockParts, Fenced, Body, SplitLines, JoinLines, OneLine;
    SplitTrailing(BlockParts(nonce, records));
  }

  // ------------------------------------------------------------------
  // Markers cannot be forged
  // ------------------------------------------------------------------

  lemma OccursInside(needle: string, a: string, b: string, c: string)
    requires Occurs(needle, b)
    ensures Occurs(needle, a + b + c)
  {
    var at :| 0 <= at <= |b| && OccursAt(needle, b, at);
    assert (a + b + c)[|a| + at..|a| + at + |needle|] == b[at..at + |needle|];
    assert OccursAt(needle, a + b + c, |a| + at);
  }

  lemma {:induction false} HexEncodesAsItself(s: string)
    requires forall i | 0 <= i < |s| :: IsHexDigit(s[i])
    ensures Encoded(s) == s
  {
    if s != "" {
      HexEncodesAsItself(s[1..]);
      EncodedCharIs(s[0]);
      assert IsHexDigit(s[0]);
      assert s == [s[0]] + s[1..];
    }
  }

  // Encoding keeps hex substrings visible.
  lemma EncodingShowsHex(needle: string, s: string)
    requires NonceShaped(needle) && Occurs(needle, s)
    ensures Occurs(needle, Encoded(s))
  {
    var at :| 0 <= at <= |s| && OccursAt(needle, s, at);
    var a, c := s[..at], s[at + |needle|..];
    assert s == a + needle + c;
    RewriteAppend(EncodedChar, a + needle, c);
    RewriteAppend(EncodedChar, a, needle);
    HexEncodesAsItself(needle);
    assert OccursAt(needle, needle, 0);
    OccursInside(needle, Encoded(a), needle, Encoded(c));
  }

  lemma {:induction false} LineOccurs(needle: string, lines: seq<string>, i: nat)
    requires i < |lines| && Occurs(needle, lines[i])
    ensures Occurs(needle, JoinLines(lines))
    decreases |lines|
  {
    if |lines| > 1 {
      if i == 0 {
        OccursInside(needle, "", lines[0], "\n" + JoinLines(lines[1..]));
        assert "" + lines[0] + ("\n" + JoinLines(lines[1..])) == JoinLines(lines);
      } else {
        LineOccurs(needle, lines[1..], i - 1);
        OccursInside(needle, lines[0] + "\n", JoinLines(lines[1..]), "");
        assert lines[0] + "\n" + JoinLines(lines[1..]) + "" == JoinLines(lines);
      }
    }
  }

  lemma {:induction false} ValueShows(needle: string, ms: Members, i: nat)
    requires i < |ms| && Occurs(needle, Encoded(ms[i].1))
    ensures Occurs(needle, EncodedMembers(ms))
    decreases |ms|
  {
    hide Encoded, EncodedMember, Occurs;
    if i == 0 {
      ValueInMember(needle, ms[0]);
      var after := if |ms| == 1 then "" else ", " + EncodedMembers(ms[1..]);
      OccursInside(needle, "", EncodedMember(ms[0]), after);
      assert "" + EncodedMember(ms[0]) + after == EncodedMembers(ms);
    } else {
      ValueShows(needle, ms[1..], i - 1);
      OccursInside(needle, EncodedMember(ms[0]) + ", ", EncodedMembers(ms[1..]), "");
      assert EncodedMember(ms[0]) + ", " + EncodedMembers(ms[1..]) + "" == EncodedMembers(ms);
    }
  }

  lemma ValueInMember(needle: string, m: (string, string))
    requires Occurs(needle, Encoded(m.1))
    ensures Occurs(needle, EncodedMember(m))
  {
    hide Encoded, Occurs;
    var before := EncodedQuoted(m.0) + ": " + ['"'];
    OccursInside(needle, before, Encoded(m.1), ['"']);
    assert before + Encoded(m.1) + ['"'] == EncodedMember(m);
  }

  lemma RecordShows(needle: string, r: CaseRecord, k: nat)
    requires NonceShaped(needle) && k < 3 && Occurs(needle, Fields(r)[k].1)
    ensures Occurs(needle, Line(r))
  {
    var ms := Fields(r);
    EncodingShowsHex(needle, ms[k].1);
    ValueShows(needle, ms, k);
    PassOverObject(ms);
    hide Occurs, EncodedMembers, Fields;
    OccursInside(needle, "{", EncodedMembers(ms), "}");
  }

  /** No record of a wrapped block holds the block's own nonce in its id, its source or its text. */
  lemma ContentLacksNonce(h: Hasher, records: seq<CaseRecord>, i: nat, k: nat)
    requires Wrapped(h, records).Ok? && i < |records| && k < 3
    ensures !Occurs(Wrapped(h, records).value.nonce, Fields(records[i])[k].1)
  {
    WrapIsSafe(h, records);
    var nonce := Wrapped(h, records).value.nonce;
    if Occurs(nonce, Fields(records[i])[k].1) {
      RecordShows(nonce, records[i], k);
      LineOccurs(nonce, Lines(records), i);
      assert false;
    }
  }

  lemma MarkerShowsNonce(pattern: string, offset: nat, length: nat, nonce: string)
    ensures Occurs(nonce, Marker(pattern, offset, length, nonce))
  {
    var front := "[ts-sentry:";
    var back := " instruction-shaped text removed: " + pattern + "@" + Dec(offset) + "+" + Dec(length) + "]";
    assert OccursAt(nonce, nonce, 0);
    OccursInside(nonce, front, nonce, back);
    assert Marker(pattern, offset, length, nonce) == front + nonce + back;
  }

  // A piece of a text without the needle is without it.
  lemma PieceLacks(needle: string, s: string, a: nat, b: nat)
    requires a <= b <= |s|
    ensures Occurs(needle, s[a..b]) ==> Occurs(needle, s)
  {
    if Occurs(needle, s[a..b]) {
      OccursInside(needle, s[..a], s[a..b], s[b..]);
      assert s == s[..a] + s[a..b] + s[b..];
    }
  }

  lemma {:induction false} GapsLack(needle: string, text: string, spans: seq<Span>, cursor: nat, j: nat)
    requires Cuttable(spans, cursor, |text|) && !Occurs(needle, text) && j <= |spans|
    ensures !Occurs(needle, Gaps(text, spans, cursor)[j])
    decreases |spans|
  {
    if j == 0 {
      PieceLacks(needle, text, cursor, if spans == [] then |text| else spans[0].start);
      assert text[cursor..|text|] == text[cursor..];
    } else {
      GapsLack(needle, text, spans[1..], spans[0].end, j - 1);
    }
  }

  /** Where the marker with this index starts in the redacted text. */
  function MarkerStart(gaps: seq<string>, fills: seq<string>, j: nat): nat
    requires |gaps| == |fills| + 1 && j < |fills|
  {
    if j == 0 then |gaps[0]| else |gaps[0]| + |fills[0]| + MarkerStart(gaps[1..], fills[1..], j - 1)
  }

  lemma {:induction false} MarkerStands(gaps: seq<string>, fills: seq<string>, j: nat)
    requires |gaps| == |fills| + 1 && j < |fills|
    ensures OccursAt(fills[j], Interleave(gaps, fills), MarkerStart(gaps, fills, j))
    decreases j
  {
    var whole := Interleave(gaps, fills);
    var front, tail := gaps[0] + fills[0], Interleave(gaps[1..], fills[1..]);
    assert whole == front + tail;
    if j == 0 {
      assert whole[|gaps[0]|..|front|] == fills[0];
    } else {
      MarkerStands(gaps[1..], fills[1..], j - 1);
      var at := MarkerStart(gaps[1..], fills[1..], j - 1);
      assert whole[|front| + at..|front| + at + |fills[j]|] == tail[at..at + |fills[j]|];
    }
  }

  // A needle of hex digits does not reach over any other character.
  lemma NotAcross(needle: string, s: string, at: nat, k: nat)
    requires OccursAt(needle, s, at) && (forall i | 0 <= i < |needle| :: IsHexDigit(needle[i]))
    requires k < |s| && !IsHexDigit(s[k])
    ensures k < at || at + |needle| <= k
  {
    assert forall m | at <= m < at + |needle| :: s[m] == s[at..at + |needle|][m - at] == needle[m - at];
    assert forall m | at <= m < at + |needle| :: IsHexDigit(s[m]);
  }

  lemma OccursInPart(needle: string, a: string, b: string, c: string, at: nat)
    requires OccursAt(needle, a + b + c, at) && |a| <= at && at + |needle| <= |a| + |b|
    ensures OccursAt(needle, b, at - |a|)
  {
    assert b[at - |a|..at - |a| + |needle|] == (a + b + c)[at..at + |needle|];
  }

  predicate Bracketed(s: string) { |s| >= 2 && !IsHexDigit(s[0]) && !IsHexDigit(s[|s| - 1]) }

  // With no needle in any gap, one that occurs lies inside a fill.
  lemma {:induction false} InsideAFill(needle: string, gaps: seq<string>, fills: seq<string>, at: nat) returns (j: nat)
    requires |gaps| == |fills| + 1 && needle != "" && (forall i | 0 <= i < |needle| :: IsHexDigit(needle[i]))
    requires forall i | 0 <= i < |gaps| :: !Occurs(needle, gaps[i])
    requires forall i | 0 <= i < |fills| :: Bracketed(fills[i])
    requires OccursAt(needle, Interleave(gaps, fills), at)
    ensures j < |fills|
    ensures MarkerStart(gaps, fills, j) <= at && at + |needle| <= MarkerStart(gaps, fills, j) + |fills[j]|
    decreases |fills|
  {
    assert !Occurs(needle, gaps[0]);
    if fills == [] {
      assert false;
    } else {
      var gap, fill, tail := gaps[0], fills[0], Interleave(gaps[1..], fills[1..]);
      var whole := gap + fill + tail;
      assert Bracketed(fill) && whole[|gap|] == fill[0] && whole[|gap| + |fill| - 1] == fill[|fill| - 1];
      NotAcross(needle, whole, at, |gap|);
      NotAcross(needle, whole, at, |gap| + |fill| - 1);
      assert gap + (fill + tail) == whole;
      if at < |gap| {
        InFront(needle, gap, fill + tail, at);
        assert false;
      } else if at < |gap| + |fill| {
        j := 0;
      } else {
        OccursInPart(needle, gap + fill, tail, "", at);
        assert gap + fill + tail + "" == whole;
        var k := InsideAFill(needle, gaps[1..], fills[1..], at - |gap + fill|);
        j := k + 1;
      }
    }
  }

  lemma InFront(needle: string, a: string, b: string, at: nat)
    requires OccursAt(needle, a + b, at) && at + |needle| <= |a|
    ensures Occurs(needle, a)
  {
    assert "" + a + b == a + b;
    OccursInPart(needle, "", a, b, at);
  }

  lemma MarkersAreBracketed(spans: seq<Span>, nonce: string)
    requires Straight(spans)
    ensures forall j | 0 <= j < |spans| :: Bracketed(Markers(spans, nonce)[j])
  {
  }

  // Stated of one text: wherever the nonce occurs in its redacted copy, a marker that was put there has it.
  ghost predicate OnlyInMarkers(text: string, spans: seq<Span>, nonce: string)
    requires Cuttable(spans, 0, |text|) && Straight(spans)
  {
    var gaps, markers := Gaps(text, spans, 0), Markers(spans, nonce);
    && (forall j | 0 <= j < |spans| ::
          OccursAt(markers[j], Interleave(gaps, markers), MarkerStart(gaps, markers, j)))
    && (forall at: nat | OccursAt(nonce, Interleave(gaps, markers), at) ::
          exists j :: 0 <= j < |spans| && MarkerStart(gaps, markers, j) <= at
                      && at + |nonce| <= MarkerStart(gaps, markers, j) + |markers[j]|)
  }

  /** No stretch of case content and marker together spells the nonce either: every occurrence of it in the
      model's copy of a text lies inside a marker that the firewall put there. */
  lemma NonceOnlyInMarkers(h: Hasher, records: seq<CaseRecord>, signals: seq<Signal>, i: nat)
    requires Wrapped(h, records).Ok? && Scanned(records, signals) && i < |records|
    ensures var spans := MergeSpans(SignalsOf(records[i].recordId, signals));
            && Cuttable(spans, 0, |records[i].text|) && Straight(spans)
            && OnlyInMarkers(records[i].text, spans, Wrapped(h, records).value.nonce)
  {
    WrapIsSafe(h, records);
    MarkersCannotBeForged(h, records, signals, i);
    var nonce, text := Wrapped(h, records).value.nonce, records[i].text;
    hide Wrapped, SignalsOf, MergeSpans, Occurs, Interleave, MarkerStart;
    NonceInMarkers(text, MergeSpans(SignalsOf(records[i].recordId, signals)), nonce);
  }

  lemma NonceInMarkers(text: string, spans: seq<Span>, nonce: string)
    requires Cuttable(spans, 0, |text|) && Straight(spans) && NonceShaped(nonce)
    requires forall j | 0 <= j <= |spans| :: !Occurs(nonce, Gaps(text, spans, 0)[j])
    ensures OnlyInMarkers(text, spans, nonce)
  {
    MarkersAreBracketed(spans, nonce);
    hide Occurs, OccursAt, Marker, Interleave, MarkerStart, Bracketed;
    var gaps, markers := Gaps(text, spans, 0), Markers(spans, nonce);
    forall j | 0 <= j < |spans|
      ensures OccursAt(markers[j], Interleave(gaps, markers), MarkerStart(gaps, markers, j))
    {
      MarkerStands(gaps, markers, j);
    }
    forall at: nat | OccursAt(nonce, Interleave(gaps, markers), at)
      ensures exists j :: 0 <= j < |spans| && MarkerStart(gaps, markers, j) <= at
                          && at + |nonce| <= MarkerStart(gaps, markers, j) + |markers[j]|
    {
      var j := InsideAFill(nonce, gaps, markers, at);
    }
  }

  /** Genuine markers are decidable: in the model's copy of a text every marker carries the block's
      nonce and no stretch of case content between them does, so content cannot plant a marker. */
  lemma MarkersCannotBeForged(h: Hasher, records: seq<CaseRecord>, signals: seq<Signal>, i: nat)
    requires Wrapped(h, records).Ok? && Scanned(records, signals) && i < |records|
    ensures var nonce, text := Wrapped(h, records).value.nonce, records[i].text;
            var own := SignalsOf(records[i].recordId, signals);
            var spans := MergeSpans(own);
            && (forall pattern, offset, length :: !Occurs(Marker(pattern, offset, length, nonce), text))
            && Cuttable(spans, 0, |text|) && Straight(spans)
            && (forall j | 0 <= j < |spans| :: Occurs(nonce, Markers(spans, nonce)[j]))
            && (forall j | 0 <= j <= |spans| :: !Occurs(nonce, Gaps(text, spans, 0)[j]))
  {
    ContentLacksNonce(h, records, i, 2);
    var nonce, text := Wrapped(h, records).value.nonce, records[i].text;
    var own := SignalsOf(records[i].recordId, signals);
    assert Fields(records[i])[2].1 == text;
    hide Wrapped, SignalsOf, Fields;
    NoForgedMarker(text, own, nonce);
  }

  lemma NoForgedMarker(text: string, own: seq<Signal>, nonce: string)
    requires InText(own, |text|) && !Occurs(nonce, text)
    ensures var spans := MergeSpans(own);
            && (forall pattern, offset, length :: !Occurs(Marker(pattern, offset, length, nonce), text))
            && Cuttable(spans, 0, |text|) && Straight(spans)
            && (forall j | 0 <= j < |spans| :: Occurs(nonce, Markers(spans, nonce)[j]))
            && (forall j | 0 <= j <= |spans| :: !Occurs(nonce, Gaps(text, spans, 0)[j]))
  {
    MergedFits(own, |text|);
    MarkersCarry(MergeSpans(own), nonce);
    GapsAreFree(text, MergeSpans(own), nonce);
    hide Occurs, Marker;
    forall pattern, offset, length ensures !Occurs(Marker(pattern, offset, length, nonce), text) {
      MarkerShowsNonce(pattern, offset, length, nonce);
      OccursThrough(nonce, Marker(pattern, offset, length, nonce), text);
    }
  }

  lemma MarkersCarry(spans: seq<Span>, nonce: string)
    requires Straight(spans)
    ensures forall j | 0 <= j < |spans| :: Occurs(nonce, Markers(spans, nonce)[j])
  {
    hide Occurs, Marker;
    forall j | 0 <= j < |spans| ensures Occurs(nonce, Markers(spans, nonce)[j]) {
      MarkerShowsNonce(spans[j].pattern, spans[j].start, spans[j].end - spans[j].start, nonce);
    }
  }

  lemma GapsAreFree(text: string, spans: seq<Span>, nonce: string)
    requires Cuttable(spans, 0, |text|) && !Occurs(nonce, text)
    ensures forall j | 0 <= j <= |spans| :: !Occurs(nonce, Gaps(text, spans, 0)[j])
  {
    hide Occurs, Cuttable, Gaps;
    forall j | 0 <= j <= |spans| ensures !Occurs(nonce, Gaps(text, spans, 0)[j]) {
      GapsLack(nonce, text, spans, 0, j);
    }
  }

  lemma OccursThrough(needle: string, middle: string, hay: string)
    requires Occurs(needle, middle)
    ensures Occurs(middle, hay) ==> Occurs(needle, hay)
  {
    if Occurs(middle, hay) {
      var at :| 0 <= at <= |hay| && OccursAt(middle, hay, at);
      OccursInside(needle, hay[..at], middle, hay[at + |middle|..]);
      assert hay == hay[..at] + middle + hay[at + |middle|..];
    }
  }

  // ------------------------------------------------------------------
  // The model's copy is redacted
  // ------------------------------------------------------------------

  /** Whether a signal naming this record covers the character. */
  ghost predicate Flagged(signals: seq<Signal>, id: string, x: nat) {
    exists s :: s in signals && s.recordId == id && s.offset <= x < s.offset + s.length
  }

  /** The characters of a record's text that no signal naming it covers, in order. */
  ghost function Untouched(text: string, signals: seq<Signal>, id: string, from: nat): string
    requires from <= |text|
    decreases |text| - from
  {
    if from == |text| then ""
    else (if Flagged(signals, id, from) then "" else [text[from]]) + Untouched(text, signals, id, from + 1)
  }

  // Named after the longest signal, of those naming the record, that starts where the span starts.
  ghost predicate NamedFor(signals: seq<Signal>, id: string, span: Span) {
    exists who :: who in signals && who.recordId == id && who.offset == span.start && who.pattern == span.pattern
                  && forall o | o in signals && o.recordId == id && o.offset == span.start :: o.length <= who.length
  }

  /** A text in which each maximal flagged stretch gave way to one marker, and nothing else changed. */
  ghost predicate RedactedBy(shown: string, text: string, signals: seq<Signal>, id: string, nonce: string, spans: seq<Span>) {
    && Spaced(spans) && Cuttable(spans, 0, |text|) && Straight(spans)
    && (forall x: nat :: Covers(spans, x) <==> Flagged(signals, id, x))
    && (forall j | 0 <= j < |spans| :: NamedFor(signals, id, spans[j]))
    && shown == Interleave(Gaps(text, spans, 0), Markers(spans, nonce))
    && Concat(Gaps(text, spans, 0)) == Untouched(text, signals, id, 0)
  }

  /** A block that reads back as the records in order, ids and sources untouched and texts redacted. */
  ghost predicate ShowsRedacted(block: string, records: seq<CaseRecord>, signals: seq<Signal>, nonce: string) {
    && ParseBlock(block).Ok? && |ParseBlock(block).value| == |records|
    && forall i | 0 <= i < |records| ::
         var shown := RecordOf(ParseBlock(block).value[i]);
         && shown.Some? && shown.value.recordId == records[i].recordId && shown.value.source == records[i].source
         && exists spans :: RedactedBy(shown.value.text, records[i].text, signals, records[i].recordId, nonce, spans)
  }

  lemma {:induction false} SignalsOfAre(id: string, signals: seq<Signal>, s: Signal)
    ensures s in SignalsOf(id, signals) <==> s in signals && s.recordId == id
  {
    if signals != [] {
      SignalsOfAre(id, signals[1..], s);
      assert signals == [signals[0]] + signals[1..];
    }
  }

  lemma FlaggedIsSignalled(signals: seq<Signal>, id: string, x: nat)
    ensures Flagged(signals, id, x) <==> Signalled(SignalsOf(id, signals), x)
  {
    var own := SignalsOf(id, signals);
    if Flagged(signals, id, x) {
      var s :| s in signals && s.recordId == id && s.offset <= x < s.offset + s.length;
      SignalsOfAre(id, signals, s);
      var i :| 0 <= i < |own| && own[i] == s;
      assert Redaction.Hits(own[i], x);
    }
    if Signalled(own, x) {
      var i :| 0 <= i < |own| && Redaction.Hits(own[i], x);
      SignalsOfAre(id, signals, own[i]);
    }
  }

  lemma {:induction false} UntouchedIsKept(text: string, signals: seq<Signal>, id: string, from: nat)
    requires from <= |text|
    ensures Untouched(text, signals, id, from) == Kept(text, SignalsOf(id, signals), from)
    decreases |text| - from
  {
    if from < |text| {
      FlaggedIsSignalled(signals, id, from);
      UntouchedIsKept(text, signals, id, from + 1);
    }
  }

  lemma NamedForItsOwn(signals: seq<Signal>, id: string, span: Span)
    requires Named(SignalsOf(id, signals), span)
    ensures NamedFor(signals, id, span)
  {
    var own := SignalsOf(id, signals);
    var who :| NamedBy(own, span, who);
    SignalsOfAre(id, signals, who);
    forall o | o in signals && o.recordId == id && o.offset == span.start ensures o.length <= who.length {
      SignalsOfAre(id, signals, o);
    }
  }

  lemma RedactedIsBy(text: string, signals: seq<Signal>, id: string, nonce: string)
    requires InText(SignalsOf(id, signals), |text|)
    ensures RedactedBy(Redacted(text, SignalsOf(id, signals), nonce), text, signals, id, nonce, MergeSpans(SignalsOf(id, signals)))
  {
    var own := SignalsOf(id, signals);
    var spans := MergeSpans(own);
    RedactionConserves(text, own, nonce);
    MergedFits(own, |text|);
    MergedSpansCover(own);
    SpansAreNamed(own);
    UntouchedIsKept(text, signals, id, 0);
    hide SignalsOf, MergeSpans, Spaced, Named, Redacted, Untouched, Kept, Covers;
    forall x: nat ensures Covers(spans, x) <==> Flagged(signals, id, x) {
      FlaggedIsSignalled(signals, id, x);
    }
    forall j | 0 <= j < |spans| ensures NamedFor(signals, id, spans[j]) {
      NamedForItsOwn(signals, id, spans[j]);
    }
  }

  /** The copy a model sees: read back, it has every record in order under its own id and source, and in each
      text exactly the stretches that some signal naming that record covers gave way to a marker with the
      block's nonce, one marker each. */
  lemma ModelCopyIsRedacted(h: Hasher, records: seq<CaseRecord>, signals: seq<Signal>)
    requires Wrapped(h, records).Ok? && Scanned(records, signals)
    ensures var b := Wrapped(h, records).value;
            b.records == records && ShowsRedacted(RenderRedacted(b, signals), records, signals, b.nonce)
  {
    BlocksReadBack(h, records, signals);
    var b := Wrapped(h, records).value;
    var redacted := RedactedRecords(b, signals);
    hide Wrapped, RenderRedacted, ParseBlock, RedactedBy, SignalsOf, MergeSpans, Redacted;
    forall i | 0 <= i < |records|
      ensures var shown := RecordOf(Objects(redacted)[i]);
              && shown.Some? && shown.value.recordId == records[i].recordId && shown.value.source == records[i].source
              && exists spans :: RedactedBy(shown.value.text, records[i].text, signals, records[i].recordId, b.nonce, spans)
    {
      RecordRecovered(redacted[i]);
      hide RecordOf, MapOf, Fields;
      RedactedIsBy(records[i].text, signals, records[i].recordId, b.nonce);
    }
  }

  /** And that copy is what a message carries: the instruction first, then a block that shows the records
      redacted, with nothing of them outside it. */
  lemma ComposedShowsRedacted(h: Hasher, records: seq<CaseRecord>, signals: seq<Signal>, instruction: string)
    requires Wrapped(h, records).Ok? && Scanned(records, signals)
    requires Composed(instruction, Wrapped(h, records).value, signals).Ok?
    ensures var b := Wrapped(h, records).value;
            exists block :: Composed(instruction, b, signals).value == instruction + "\n\n" + block + "\n"
                            && ShowsRedacted(block, records, signals, b.nonce)
  {
    ModelCopyIsRedacted(h, records, signals);
    hide Wrapped, RenderRedacted, ShowsRedacted;
  }
}
