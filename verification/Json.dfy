/** The JSON of one case record: what json.dumps writes with ensure_ascii off, the firewall's second
    escaping pass over it, and json.loads for objects of strings (orchestrator/firewall.py; string
    grammar as in section 7 of RFC 8259). */
module Json {
  import opened Prelude
  import opened Canonical

  function HexDigit(n: nat): char
    requires n < 16
  {
    if n < 10 then '0' + n as char else 'a' + (n - 10) as char
  }

  /** \uXXXX for a code unit. */
  function UnicodeEscape(n: nat): string
    requires n < 0x1_0000
  {
    ['\\', 'u', HexDigit(n / 4096), HexDigit(n / 256 % 16), HexDigit(n / 16 % 16), HexDigit(n % 16)]
  }

  /** json.dumps, one character of a string value. */
  function JsonChar(c: char): string {
    if c == '"' then ['\\', '"']
    else if c == '\\' then ['\\', '\\']
    else if c == '\n' then ['\\', 'n']
    else if c == '\r' then ['\\', 'r']
    else if c == '\t' then ['\\', 't']
    else if c == '\U{0C}' then ['\\', 'f']
    else if c == '\U{08}' then ['\\', 'b']
    else if c < ' ' then UnicodeEscape(c as nat)
    else [c]
  }

  /** The characters the second pass replaces. */
  predicate ResidualBreak(c: char) {
    c in {'\U{0B}', '\U{0C}', '\U{1C}', '\U{1D}', '\U{1E}', '\U{85}', '\U{2028}', '\U{2029}'}
  }

  function BreakChar(c: char): string {
    if ResidualBreak(c) then UnicodeEscape(c as nat) else [c]
  }

  /** A character-by-character rewriting of a string. */
  function Rewrite(f: char -> string, s: string): string {
    if s == "" then "" else f(s[0]) + Rewrite(f, s[1..])
  }

  lemma {:induction false} RewriteAppend(f: char -> string, s: string, t: string)
    ensures Rewrite(f, s + t) == Rewrite(f, s) + Rewrite(f, t)
  {
    if s == "" {
      assert s + t == t;
    } else {
      assert (s + t)[1..] == s[1..] + t;
      RewriteAppend(f, s[1..], t);
    }
  }

  function JsonString(s: string): string { Rewrite(JsonChar, s) }

  /** _escape_line_breaks. */
  function EscapeLineBreaks(s: string): string { Rewrite(BreakChar, s) }

  // Both passes, one character.
  function EncodedChar(c: char): string { EscapeLineBreaks(JsonChar(c)) }

  function Encoded(s: string): string { Rewrite(EncodedChar, s) }

  lemma {:induction false} TwoPasses(s: string)
    ensures EscapeLineBreaks(JsonString(s)) == Encoded(s)
  {
    if s != "" {
      TwoPasses(s[1..]);
      RewriteAppend(BreakChar, JsonChar(s[0]), JsonString(s[1..]));
    }
  }

  // A string of characters the pass leaves alone.
  lemma {:induction false} Unbroken(s: string)
    requires forall i | 0 <= i < |s| :: !ResidualBreak(s[i])
    ensures EscapeLineBreaks(s) == s
  {
    if s != "" {
      Unbroken(s[1..]);
      assert s == [s[0]] + s[1..];
    }
  }

  lemma UnicodeEscapeIsPlain(n: nat)
    requires n < 0x1_0000
    ensures var e := UnicodeEscape(n); e[..2] == ['\\', 'u'] && forall i | 2 <= i < 6 :: IsHexDigit(e[i])
  {
  }

  /** What the two passes make of one character: json.dumps has already dealt with every control
      character, so only NEL, LS and PS are left for the second pass. */
  lemma EncodedCharIs(c: char)
    ensures EncodedChar(c) == if c in {'\U{85}', '\U{2028}', '\U{2029}'} then UnicodeEscape(c as nat) else JsonChar(c)
  {
    if c in {'\U{85}', '\U{2028}', '\U{2029}'} {
      var e := UnicodeEscape(c as nat);
      assert JsonChar(c) == [c];
      assert [c][1..] == "";
      assert EscapeLineBreaks([c]) == BreakChar(c) + EscapeLineBreaks("");
    } else {
      if c < ' ' {
        UnicodeEscapeIsPlain(c as nat);
      }
      Unbroken(JsonChar(c));
    }
  }

  // ------------------------------------------------------------------
  // Reading strings
  // ------------------------------------------------------------------

  function HexValue(c: char): Option<nat> {
    if '0' <= c <= '9' then Some(c as nat - '0' as nat)
    else if 'a' <= c <= 'f' then Some(c as nat - 'a' as nat + 10)
    else if 'A' <= c <= 'F' then Some(c as nat - 'A' as nat + 10)
    else None
  }

  function Hex4(s: string): Option<nat>
    requires |s| >= 4
  {
    var a, b, c, d := HexValue(s[0]), HexValue(s[1]), HexValue(s[2]), HexValue(s[3]);
    if a.Some? && b.Some? && c.Some? && d.Some? then Some(4096 * a.value + 256 * b.value + 16 * c.value + d.value)
    else None
  }

  /** One character of a string, written plainly or as an escape, and what follows it. */
  function ReadChar(s: string): (r: Option<(char, string)>)
    ensures r.Some? ==> |r.value.1| < |s|
  {
    if s == "" || s[0] == '"' || s[0] < ' ' then None
    else if s[0] != '\\' then Some((s[0], s[1..]))
    else if |s| < 2 then None
    else if s[1] == 'u' then
      if |s| < 6 then None
      else
        match Hex4(s[2..6])
        case Some(n) => if n < 0xD800 || 0xE000 <= n < 0x1_0000 then Some((n as char, s[6..])) else None
        case None => None
    else
      match ShortEscape(s[1])
      case Some(c) => Some((c, s[2..]))
      case None => None
  }

  function ShortEscape(c: char): Option<char> {
    if c == '"' || c == '\\' || c == '/' then Some(c)
    else if c == 'n' then Some('\n')
    else if c == 'r' then Some('\r')
    else if c == 't' then Some('\t')
    else if c == 'f' then Some('\U{0C}')
    else if c == 'b' then Some('\U{08}')
    else None
  }

  /** The rest of a string literal, after its opening quote. */
  function ReadString(s: string): (r: Option<(string, string)>)
    ensures r.Some? ==> |r.value.1| < |s|
    decreases |s|
  {
    if s != "" && s[0] == '"' then Some(("", s[1..]))
    else
      match ReadChar(s)
      case None => None
      case Some(read) =>
        match ReadString(read.1)
        case None => None
        case Some(more) => Some(([read.0] + more.0, more.1))
  }

  /** Every four-digit escape is read as its character, surrogate codes excepted, which stand for none here. */
  lemma ReadUnicodeEscape(n: nat, rest: string)
    requires n < 0x1_0000
    ensures n < 0xD800 || n >= 0xE000 ==> ReadChar(UnicodeEscape(n) + rest) == Some((n as char, rest))
    ensures 0xD800 <= n < 0xE000 ==> ReadChar(UnicodeEscape(n) + rest) == None
  {
    var e, s := UnicodeEscape(n), UnicodeEscape(n) + rest;
    assert s[2..6] == e[2..6] && s[6..] == rest;
    ReadHex4(n);
    hide Hex4;
  }

  /** Hex digits are read in either case, and nothing else is one. */
  lemma HexDigitsEitherCase(c: char)
    ensures HexValue(c) == (if c in "0123456789" then Some(c as nat - 48)
                            else if c in "abcdef" then Some(c as nat - 87)
                            else if c in "ABCDEF" then Some(c as nat - 55)
                            else None)
  {
    var digits, lower, upper := "0123456789", "abcdef", "ABCDEF";
    if '0' <= c <= '9' {
      assert digits[c as nat - 48] == c;
    } else if 'a' <= c <= 'f' {
      assert lower[c as nat - 97] == c;
    } else if 'A' <= c <= 'F' {
      assert upper[c as nat - 65] == c;
    }
  }

  lemma ReadHexDigit(d: nat)
    requires d < 16
    ensures HexValue(HexDigit(d)) == Some(d)
  {
  }

  lemma FourDigits(n: nat)
    ensures n == 4096 * (n / 4096) + 256 * (n / 256 % 16) + 16 * (n / 16 % 16) + n % 16
  {
    var m := n / 16;
    var k := m / 16;
    assert n == 16 * m + n % 16 && m == 16 * k + m % 16 && k == 16 * (k / 16) + k % 16;
    assert k == n / 256 && k / 16 == n / 4096;
  }

  lemma ReadHex4(n: nat)
    requires n < 0x1_0000
    ensures Hex4(UnicodeEscape(n)[2..6]) == Some(n)
  {
    hide HexDigit, HexValue;
    var a, b, c, d := n / 4096, n / 256 % 16, n / 16 % 16, n % 16;
    ReadHexDigit(a);
    ReadHexDigit(b);
    ReadHexDigit(c);
    ReadHexDigit(d);
    FourDigits(n);
    assert UnicodeEscape(n)[2..6] == [HexDigit(a), HexDigit(b), HexDigit(c), HexDigit(d)];
  }

  /** One encoded character reads back as itself, and never looks like the closing quote. */
  lemma ReadEncodedChar(c: char, rest: string)
    ensures EncodedChar(c) != "" && EncodedChar(c)[0] != '"'
    ensures ReadChar(EncodedChar(c) + rest) == Some((c, rest))
  {
    EncodedCharIs(c);
    if c in {'\U{85}', '\U{2028}', '\U{2029}'} {
      ReadUnicodeEscape(c as nat, rest);
    } else if c < ' ' && c !in {'\n', '\r', '\t', '\U{0C}', '\U{08}'} {
      ReadUnicodeEscape(c as nat, rest);
    } else {
      var e := JsonChar(c);
      assert (e + rest)[|e|..] == rest;
    }
  }

  /** Any text at all, encoded and closed, reads back as itself. */
  lemma {:induction false} ReadEncoded(s: string, rest: string)
    ensures ReadString(Encoded(s) + ['"'] + rest) == Some((s, rest))
    decreases |s|
  {
    var all := Encoded(s) + ['"'] + rest;
    if s == "" {
      assert all[1..] == rest;
    } else {
      var after := Encoded(s[1..]) + ['"'] + rest;
      assert all == EncodedChar(s[0]) + after;
      ReadEncodedChar(s[0], after);
      ReadEncoded(s[1..], rest);
      assert [s[0]] + s[1..] == s;
    }
  }

  // ------------------------------------------------------------------
  // Objects of strings
  // ------------------------------------------------------------------

  type Members = seq<(string, string)>

  function Quoted(s: string): string { ['"'] + JsonString(s) + ['"'] }

  function Member(m: (string, string)): string { Quoted(m.0) + ": " + Quoted(m.1) }

  function MemberList(ms: Members): string {
    if ms == [] then ""
    else if |ms| == 1 then Member(ms[0])
    else Member(ms[0]) + ", " + MemberList(ms[1..])
  }

  /** json.dumps of an object whose members are strings, in the order given. */
  function DumpObject(ms: Members): string { "{" + MemberList(ms) + "}" }

  function MapOf(ms: Members): map<string, string> {
    if ms == [] then map[] else MapOf(ms[..|ms| - 1])[ms[|ms| - 1].0 := ms[|ms| - 1].1]
  }

  predicate IsWhitespace(c: char) { c == ' ' || c == '\t' || c == '\n' || c == '\r' }

  function SkipSpace(s: string): (r: string)
    ensures |r| <= |s|
  {
    if s != "" && IsWhitespace(s[0]) then SkipSpace(s[1..]) else s
  }

  // The text after one expected character, spaces before it skipped.
  function Expect(c: char, s: string): (r: Option<string>)
    ensures r.Some? ==> |r.value| < |s|
  {
    var t := SkipSpace(s);
    if t != "" && t[0] == c then Some(t[1..]) else None
  }

  function ReadMember(s: string): (r: Option<((string, string), string)>)
    ensures r.Some? ==> |r.value.1| < |s|
  {
    match Expect('"', s)
    case None => None
    case Some(a) =>
      match ReadString(a)
      case None => None
      case Some(key) =>
        match Expect(':', key.1)
        case None => None
        case Some(b) =>
          match Expect('"', b)
          case None => None
          case Some(c) =>
            match ReadString(c)
            case None => None
            case Some(value) => Some(((key.0, value.0), value.1))
  }

  // Members up to the closing brace; a later member of the same name wins.
  function ReadMembers(s: string, found: map<string, string>): (r: Option<(map<string, string>, string)>)
    decreases |s|
  {
    match ReadMember(s)
    case None => None
    case Some(m) =>
      var now := found[m.0.0 := m.0.1];
      match Expect(',', m.1)
      case Some(more) => ReadMembers(more, now)
      case None =>
        match Expect('}', m.1)
        case Some(rest) => Some((now, rest))
        case None => None
  }

  /** json.loads of an object whose values are strings; anything else is refused. */
  function LoadObject(s: string): Option<map<string, string>> {
    match Expect('{', s)
    case None => None
    case Some(inside) =>
      match Expect('}', inside)
      case Some(rest) => if SkipSpace(rest) == "" then Some(map[]) else None
      case None =>
        match ReadMembers(inside, map[])
        case None => None
        case Some(r) => if SkipSpace(r.1) == "" then Some(r.0) else None
  }

  // ------------------------------------------------------------------
  // The second pass over a whole object
  // ------------------------------------------------------------------

  function EncodedQuoted(s: string): string { ['"'] + Encoded(s) + ['"'] }

  function EncodedMember(m: (string, string)): string { EncodedQuoted(m.0) + ": " + EncodedQuoted(m.1) }

  function EncodedMembers(ms: Members): string {
    if ms == [] then ""
    else if |ms| == 1 then EncodedMember(ms[0])
    else EncodedMember(ms[0]) + ", " + EncodedMembers(ms[1..])
  }

  function EncodedObject(ms: Members): string { "{" + EncodedMembers(ms) + "}" }

  lemma PassOverQuoted(s: string)
    ensures EscapeLineBreaks(Quoted(s)) == EncodedQuoted(s)
  {
    TwoPasses(s);
    Unbroken(['"']);
    RewriteAppend(BreakChar, ['"'] + JsonString(s), ['"']);
    RewriteAppend(BreakChar, ['"'], JsonString(s));
  }

  lemma PassOverMember(m: (string, string))
    ensures EscapeLineBreaks(Member(m)) == EncodedMember(m)
  {
    PassOverQuoted(m.0);
    PassOverQuoted(m.1);
    Unbroken(": ");
    RewriteAppend(BreakChar, Quoted(m.0) + ": ", Quoted(m.1));
    RewriteAppend(BreakChar, Quoted(m.0), ": ");
  }

  lemma {:induction false} PassOverMembers(ms: Members)
    ensures EscapeLineBreaks(MemberList(ms)) == EncodedMembers(ms)
  {
    if ms != [] {
      PassOverMember(ms[0]);
      if |ms| > 1 {
        PassOverMembers(ms[1..]);
        Unbroken(", ");
        RewriteAppend(BreakChar, Member(ms[0]) + ", ", MemberList(ms[1..]));
        RewriteAppend(BreakChar, Member(ms[0]), ", ");
      }
    }
  }

  /** The second pass touches string contents only: it commutes with the object's structure. */
  lemma PassOverObject(ms: Members)
    ensures EscapeLineBreaks(DumpObject(ms)) == EncodedObject(ms)
  {
    PassOverMembers(ms);
    Unbroken("{");
    Unbroken("}");
    RewriteAppend(BreakChar, "{" + MemberList(ms), "}");
    RewriteAppend(BreakChar, "{", MemberList(ms));
  }

  // ------------------------------------------------------------------
  // The round trip
  // ------------------------------------------------------------------

  lemma ExpectHere(c: char, rest: string)
    requires !IsWhitespace(c)
    ensures Expect(c, [c] + rest) == Some(rest)
    ensures Expect(c, [' ', c] + rest) == Some(rest)
    ensures forall d | d != c :: Expect(d, [c] + rest) == None
  {
    assert ([' ', c] + rest)[1..] == [c] + rest;
    assert ([c] + rest)[1..] == rest;
  }

  lemma ReadEncodedMember(m: (string, string), rest: string)
    ensures ReadMember(EncodedMember(m) + rest) == Some((m, rest))
    ensures ReadMember([' '] + EncodedMember(m) + rest) == Some((m, rest))
    ensures Expect('}', EncodedMember(m) + rest) == None
  {
    hide Encoded, ReadString, Expect;
    var last := Encoded(m.1) + ['"'] + rest;
    var value := ['"'] + last;
    var middle := [':', ' '] + value;
    var key := Encoded(m.0) + ['"'] + middle;
    assert EncodedMember(m) + rest == ['"'] + key;
    assert [' '] + EncodedMember(m) + rest == [' ', '"'] + key;
    ExpectHere('"', key);
    ReadEncoded(m.0, middle);
    assert middle == [':'] + ([' '] + value);
    ExpectHere(':', [' '] + value);
    assert [' '] + value == [' ', '"'] + last;
    ExpectHere('"', last);
    ReadEncoded(m.1, rest);
  }

  // Members that follow others are led by a space.
  function Lead(first: bool): string { if first then "" else " " }

  lemma {:induction false} ReadEncodedMembers(ms: Members, found: map<string, string>, first: bool, rest: string)
    requires ms != []
    ensures ReadMembers(Lead(first) + EncodedMembers(ms) + "}" + rest, found) == Some((Overlay(found, ms), rest))
    decreases |ms|
  {
    hide ReadMember, Expect, EncodedMember;
    var now := found[ms[0].0 := ms[0].1];
    if |ms| == 1 {
      var close := "}" + rest;
      ReadEncodedMember(ms[0], close);
      assert EncodedMembers(ms) + "}" + rest == EncodedMember(ms[0]) + close;
      assert Lead(true) + EncodedMembers(ms) + "}" + rest == EncodedMember(ms[0]) + close;
      assert Lead(false) + EncodedMembers(ms) + "}" + rest == [' '] + EncodedMember(ms[0]) + close;
      ExpectHere('}', rest);
      assert Overlay(now, ms[1..]) == now;
    } else {
      var others := Lead(false) + EncodedMembers(ms[1..]) + "}" + rest;
      var comma := [','] + others;
      ReadEncodedMember(ms[0], comma);
      assert EncodedMembers(ms) + "}" + rest == EncodedMember(ms[0]) + comma;
      assert Lead(true) + EncodedMembers(ms) + "}" + rest == EncodedMember(ms[0]) + comma;
      assert Lead(false) + EncodedMembers(ms) + "}" + rest == [' '] + EncodedMember(ms[0]) + comma;
      ExpectHere(',', others);
      ReadEncodedMembers(ms[1..], now, false, rest);
    }
  }

  function Overlay(found: map<string, string>, ms: Members): map<string, string>
    decreases |ms|
  {
    if ms == [] then found else Overlay(found[ms[0].0 := ms[0].1], ms[1..])
  }

  lemma {:induction false} OverlayIsMapOf(found: map<string, string>, ms: Members)
    ensures Overlay(found, ms) == found + MapOf(ms)
    decreases |ms|
  {
    if ms != [] {
      var last := |ms| - 1;
      OverlayLast(found, ms);
      OverlayIsMapOf(found, ms[..last]);
    }
  }

  lemma {:induction false} OverlayLast(found: map<string, string>, ms: Members)
    requires ms != []
    ensures var last := |ms| - 1;
            Overlay(found, ms) == Overlay(found, ms[..last])[ms[last].0 := ms[last].1]
    decreases |ms|
  {
    if |ms| > 1 {
      assert ms[1..][..|ms| - 2] == ms[..|ms| - 1][1..];
      OverlayLast(found[ms[0].0 := ms[0].1], ms[1..]);
    }
  }

  /** Whatever the keys and values hold, an object of strings put through json.dumps and the second
      pass is read back by json.loads as the same object. */
  lemma ObjectRoundTrip(ms: Members)
    ensures LoadObject(EscapeLineBreaks(DumpObject(ms))) == Some(MapOf(ms))
  {
    PassOverObject(ms);
    hide EscapeLineBreaks, DumpObject, ReadMembers, EncodedMembers, MapOf, Expect;
    var s := EncodedObject(ms);
    assert s == ['{'] + (EncodedMembers(ms) + "}");
    ExpectHere('{', EncodedMembers(ms) + "}");
    if ms == [] {
      NoMembers();
      ExpectHere('}', "");
    } else {
      assert EncodedMembers(ms) + "}" == Lead(true) + EncodedMembers(ms) + "}" + "";
      ReadEncodedMembers(ms, map[], true, "");
      OverlayIsMapOf(map[], ms);
      NotClosedYet(ms);
      assert map[] + MapOf(ms) == MapOf(ms);
    }
  }

  lemma NoMembers()
    ensures EncodedMembers([]) + "}" == ['}'] + "" && MapOf([]) == map[]
  {
  }

  lemma NotClosedYet(ms: Members)
    requires ms != []
    ensures Expect('}', EncodedMembers(ms) + "}") == None
  {
    var rest := if |ms| == 1 then "}" else ", " + EncodedMembers(ms[1..]) + "}";
    assert EncodedMembers(ms) + "}" == EncodedMember(ms[0]) + rest;
    ReadEncodedMember(ms[0], rest);
  }
}
