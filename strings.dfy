/** The handful of JavaScript string operations the core relies on
    (`trim`, `startsWith`, `includes`, `toLowerCase`, `padStart`,
    `String(n)`, and global single-character and whitespace-run replacement),
    written over `seq<char>`. Character classes are the ASCII ones: the JavaScript
    `\s` class and `trim` also treat a few Unicode spaces as whitespace, and
    `toLowerCase` folds non-ASCII letters, which this module does not. */
module Strings {

  predicate IsDigit(c: char) {
    '0' <= c <= '9'
  }

  predicate IsAsciiLetter(c: char) {
    'a' <= c <= 'z' || 'A' <= c <= 'Z'
  }

  /** ASCII approximation of the JavaScript `\s` class. */
  predicate IsWhitespace(c: char) {
    c == ' ' || c == '\t' || c == '\n' || c == '\r' || c == '\U{000B}' || c == '\U{000C}'
  }

  predicate AllDigits(s: string) {
    forall i :: 0 <= i < |s| ==> IsDigit(s[i])
  }

  predicate IsBlank(s: string) {
    forall i :: 0 <= i < |s| ==> IsWhitespace(s[i])
  }

  predicate StartsWith(s: string, prefix: string) {
    |prefix| <= |s| && s[..|prefix|] == prefix
  }

  // ---------------------------------------------------------------------------
  // trim

  function TrimStart(s: string): (r: string)
    ensures |r| <= |s|
    ensures s != [] && IsWhitespace(s[0]) ==> |r| < |s|
    decreases |s|
  {
    if s != [] && IsWhitespace(s[0]) then TrimStart(s[1..]) else s
  }

  function TrimEnd(s: string): string
    decreases |s|
  {
    if s != [] && IsWhitespace(s[|s| - 1]) then TrimEnd(s[..|s| - 1]) else s
  }

  /** `s.trim()`: whitespace removed at both ends. */
  function Trim(s: string): string {
    TrimEnd(TrimStart(s))
  }

  lemma {:induction false} TrimStartEmpty(s: string)
    ensures TrimStart(s) == [] <==> IsBlank(s)
    decreases |s|
  {
    if s != [] && IsWhitespace(s[0]) {
      TrimStartEmpty(s[1..]);
      forall i | 0 < i < |s| ensures s[i] == s[1..][i - 1] { }
    } else if s != [] {
      assert !IsWhitespace(s[0]);
    }
  }

  lemma {:induction false} TrimEndEmpty(s: string)
    ensures TrimEnd(s) == [] <==> IsBlank(s)
    decreases |s|
  {
    if s != [] && IsWhitespace(s[|s| - 1]) {
      var t := s[..|s| - 1];
      TrimEndEmpty(t);
      forall i | 0 <= i < |t| ensures s[i] == t[i] { }
    } else if s != [] {
      assert !IsWhitespace(s[|s| - 1]);
    }
  }

  lemma {:induction false} TrimStartHead(s: string)
    ensures TrimStart(s) != [] ==> !IsWhitespace(TrimStart(s)[0])
    decreases |s|
  {
    if s != [] && IsWhitespace(s[0]) {
      TrimStartHead(s[1..]);
    }
  }

  /** `!s.trim()` holds exactly for strings made of whitespace only (the empty one included). */
  lemma TrimEmptyIffBlank(s: string)
    ensures Trim(s) == [] <==> IsBlank(s)
  {
    TrimStartEmpty(s);
    TrimStartHead(s);
    TrimEndEmpty(TrimStart(s));
    var t := TrimStart(s);
    if t != [] {
      assert !IsWhitespace(t[0]);
      assert !IsBlank(t);
    }
  }

  // ---------------------------------------------------------------------------
  // includes

  /** `needle` is found in `hay` starting at index `i`. */
  predicate OccursAt(hay: string, needle: string, i: int) {
    0 <= i && i + |needle| <= |hay| && hay[i..i + |needle|] == needle
  }

  /** `hay.includes(needle)`. */
  function Includes(hay: string, needle: string): bool
    decreases |hay|
  {
    StartsWith(hay, needle) || (hay != [] && Includes(hay[1..], needle))
  }

  lemma {:induction false} IncludesIff(hay: string, needle: string)
    ensures Includes(hay, needle) <==> exists i :: OccursAt(hay, needle, i)
    decreases |hay|
  {
    if StartsWith(hay, needle) {
      assert OccursAt(hay, needle, 0);
    } else if hay == [] {
      assert forall i :: !OccursAt(hay, needle, i);
    } else {
      var tail := hay[1..];
      IncludesIff(tail, needle);
      forall i | 0 <= i
        ensures OccursAt(tail, needle, i) <==> OccursAt(hay, needle, i + 1)
      {
        if i + |needle| <= |tail| {
          assert tail[i..i + |needle|] == hay[i + 1..i + 1 + |needle|];
        }
      }
      if exists i :: OccursAt(hay, needle, i) {
        var i :| OccursAt(hay, needle, i);
        assert i != 0;
        assert OccursAt(tail, needle, i - 1);
      }
    }
  }

  /** Every string includes the empty string, so an empty search term keeps every row. */
  lemma IncludesEmpty(hay: string)
    ensures Includes(hay, "")
  {
    assert StartsWith(hay, "");
  }

  // ---------------------------------------------------------------------------
  // toLowerCase (ASCII letters only)

  function LowerChar(c: char): char {
    if 'A' <= c <= 'Z' then (c as int + 32) as char else c
  }

  function ToLower(s: string): (r: string)
    ensures |r| == |s|
    ensures forall i :: 0 <= i < |s| ==> r[i] == LowerChar(s[i])
  {
    seq(|s|, i requires 0 <= i < |s| => LowerChar(s[i]))
  }

  /** `term` matches `hay` at index `i` when letters are compared without regard to case. */
  predicate MatchesAtIgnoringCase(hay: string, term: string, i: int) {
    0 <= i && i + |term| <= |hay|
    && forall k :: 0 <= k < |term| ==> LowerChar(hay[i + k]) == LowerChar(term[k])
  }

  predicate ContainsIgnoringCase(hay: string, term: string) {
    exists i | 0 <= i <= |hay| :: MatchesAtIgnoringCase(hay, term, i)
  }

  /** `hay.toLowerCase().includes(term.toLowerCase())` is a case-insensitive substring test. */
  lemma SearchIgnoresCase(hay: string, term: string)
    ensures Includes(ToLower(hay), ToLower(term)) <==> ContainsIgnoringCase(hay, term)
  {
    var h, t := ToLower(hay), ToLower(term);
    IncludesIff(h, t);
    forall i ensures OccursAt(h, t, i) <==> MatchesAtIgnoringCase(hay, term, i) {
      if 0 <= i && i + |t| <= |h| {
        if h[i..i + |t|] == t {
          forall k | 0 <= k < |term| ensures LowerChar(hay[i + k]) == LowerChar(term[k]) {
            assert h[i..i + |t|][k] == h[i + k];
          }
        }
        if MatchesAtIgnoringCase(hay, term, i) {
          assert h[i..i + |t|] == t;
        }
      }
    }
  }

  // ---------------------------------------------------------------------------
  // String(n) and padStart

  function DigitChar(d: int): char
    requires 0 <= d < 10
  {
    ('0' as int + d) as char
  }

  /** Decimal notation of a natural number, without leading zeros. */
  function NatToString(n: nat): string
    decreases n
  {
    if n < 10 then [DigitChar(n)] else NatToString(n / 10) + [DigitChar(n % 10)]
  }

  /** `String(n)` for an integer `n`. */
  function IntToString(n: int): string {
    if n < 0 then "-" + NatToString(-n) else NatToString(n)
  }

  /** The number a string of decimal digits denotes (leading zeros allowed). */
  function DigitsValue(s: string): nat
    requires AllDigits(s)
    decreases |s|
  {
    if s == [] then 0 else DigitsValue(s[..|s| - 1]) * 10 + (s[|s| - 1] as int - '0' as int)
  }

  lemma {:induction false} NatToStringValue(n: nat)
    ensures AllDigits(NatToString(n))
    ensures DigitsValue(NatToString(n)) == n
    decreases n
  {
    if n >= 10 {
      NatToStringValue(n / 10);
      var s := NatToString(n);
      assert s[..|s| - 1] == NatToString(n / 10);
    }
  }

  function Repeat(c: char, n: nat): (r: string)
    ensures |r| == n
    ensures forall i :: 0 <= i < n ==> r[i] == c
  {
    seq(n, _ => c)
  }

  /** `s.padStart(width, c)` for a one-character pad string: never truncates. */
  function PadStart(s: string, width: nat, c: char): string {
    if |s| >= width then s else Repeat(c, width - |s|) + s
  }

  lemma {:induction false} LeadingZerosValue(z: nat, s: string)
    requires AllDigits(s)
    ensures AllDigits(Repeat('0', z) + s)
    ensures DigitsValue(Repeat('0', z) + s) == DigitsValue(s)
    decreases |s| + z
  {
    var t := Repeat('0', z) + s;
    if s == [] {
      assert t == Repeat('0', z);
      if z > 0 {
        assert t[..|t| - 1] == Repeat('0', z - 1) + [];
        LeadingZerosValue(z - 1, []);
      }
    } else {
      var init := s[..|s| - 1];
      assert t[..|t| - 1] == Repeat('0', z) + init;
      LeadingZerosValue(z, init);
    }
  }

  // ---------------------------------------------------------------------------
  // global replacement of one character, and of whitespace runs

  /** `s.replace(/c/g, d)` for single characters. */
  function ReplaceChar(s: string, c: char, d: char): (r: string)
    ensures |r| == |s|
    ensures forall i :: 0 <= i < |s| ==> r[i] == if s[i] == c then d else s[i]
  {
    seq(|s|, i requires 0 <= i < |s| => if s[i] == c then d else s[i])
  }

  /** `s.replace(/\s+/g, sep)`: every maximal run of whitespace becomes one `sep`. */
  function ReplaceWhitespaceRuns(s: string, sep: string): string
    decreases |s|
  {
    if s == [] then []
    else if IsWhitespace(s[0]) then sep + ReplaceWhitespaceRuns(TrimStart(s), sep)
    else [s[0]] + ReplaceWhitespaceRuns(s[1..], sep)
  }
}
