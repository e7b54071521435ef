/** Shared vocabulary: optional values, results, and decimal rendering. */
module Prelude {

  datatype Option<+T> = None | Some(value: T)

  datatype Result<+T, +E> = Ok(value: T) | Err(error: E)

  function Min(a: int, b: int): int { if a <= b then a else b }

  function Max(a: int, b: int): int { if a <= b then b else a }

  predicate IsDigit(c: char) { '0' <= c <= '9' }

  function DigitChar(d: nat): char
    requires d < 10
  {
    '0' + d as char
  }

  /** Python's str() of a non-negative integer. */
  function Dec(n: nat): (s: string)
    ensures s != "" && forall i | 0 <= i < |s| :: IsDigit(s[i])
  {
    if n < 10 then [DigitChar(n)] else Dec(n / 10) + [DigitChar(n % 10)]
  }

  /** Reading a numeral back. */
  function Undec(s: string): nat
    requires forall i | 0 <= i < |s| :: IsDigit(s[i])
  {
    if s == "" then 0
    else
      var last := s[|s| - 1];
      assert IsDigit(last);
      10 * Undec(s[..|s| - 1]) + (last as int - '0' as int)
  }

  lemma {:induction false} UndecDec(n: nat)
    ensures Undec(Dec(n)) == n
  {
    if n < 10 {
      assert Dec(n)[..0] == "";
    } else {
      var s := Dec(n);
      UndecDec(n / 10);
      assert s[..|s| - 1] == Dec(n / 10);
    }
  }

  lemma DecInjective(m: nat, n: nat)
    requires Dec(m) == Dec(n)
    ensures m == n
  {
    UndecDec(m);
    UndecDec(n);
  }

  // A numeral ends where something else begins.
  lemma NumeralsEnd(a: string, c: char, m: nat, b: string, d: char, n: nat)
    requires !IsDigit(c) && !IsDigit(d) && a + [c] + Dec(m) == b + [d] + Dec(n)
    ensures a == b && c == d && m == n
  {
    var s, t := a + [c] + Dec(m), b + [d] + Dec(n);
    assert s[|a|] == c && t[|b|] == d;
    assert forall i | |a| < i < |s| :: s[i] == Dec(m)[i - |a| - 1] && IsDigit(s[i]);
    assert forall i | |b| < i < |t| :: t[i] == Dec(n)[i - |b| - 1] && IsDigit(t[i]);
    assert |a| == |b|;
    assert a == s[..|a|] == t[..|b|] == b;
    assert Dec(m) == s[|a| + 1..] == t[|b| + 1..] == Dec(n);
    DecInjective(m, n);
  }

  predicate Distinct<T(==)>(s: seq<T>) {
    forall i, j | 0 <= i < j < |s| :: s[i] != s[j]
  }

  lemma {:induction false} DistinctCounts<T>(s: seq<T>)
    ensures Distinct(s) <==> forall x | x in s :: multiset(s)[x] == 1
  {
    if s != [] {
      var rest := s[1..];
      DistinctCounts(rest);
      assert s == [s[0]] + rest;
      if Distinct(s) {
        forall x | x in s ensures multiset(s)[x] == 1 {
          assert x == s[0] ==> x !in rest;
          assert x in rest <==> x in multiset(rest);
        }
      }
      if forall x | x in s :: multiset(s)[x] == 1 {
        assert multiset(s)[s[0]] == 1;
        assert s[0] !in multiset(rest);
        forall x | x in rest ensures multiset(rest)[x] == 1 {
          assert x in s && x in multiset(rest);
        }
        forall i, j | 0 <= i < j < |s| ensures s[i] != s[j] {
          assert s[j] == rest[j - 1] && (i > 0 ==> s[i] == rest[i - 1]);
        }
      }
    }
  }

  /** Strings as they are sorted. */
  predicate Precedes(s: string, t: string) {
    if t == "" then false
    else if s == "" then true
    else s[0] < t[0] || (s[0] == t[0] && Precedes(s[1..], t[1..]))
  }

  /** Whether one sequence stands in another at a position. */
  predicate OccursAt<T(==)>(needle: seq<T>, hay: seq<T>, at: nat) {
    at + |needle| <= |hay| && hay[at..at + |needle|] == needle
  }
}
