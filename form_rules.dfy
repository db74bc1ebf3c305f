/** The field rules the admin forms share: required text, a minimum name
    length, the Indonesian phone pattern and the e-mail pattern. Each pattern is
    given twice: once as the regular expression decides it, and once as the
    rule in plain terms that it is meant to implement, with a lemma that the two agree. */
module FormRules {
  import opened Wrappers
  import opened Strings
  import PdfGenerator

  const NameTooShort: string := "Name must be at least 3 characters"
  const InvalidPhone: string := "Invalid phone number format (e.g., 08123456789)"
  const InvalidEmail: string := "Invalid email format"

  /** `/^\d+$/.test(s)`. */
  predicate IsNumeric(s: string) {
    s != "" && AllDigits(s)
  }

  lemma NumericNotBlank(s: string)
    ensures IsNumeric(s) ==> !IsBlank(s)
  {
    if IsNumeric(s) {
      assert IsDigit(s[0]);
    }
  }

  /** `!value.trim()` decides a required field; `value.length < 3` is on the untrimmed value. */
  function NameError(name: string, requiredMessage: string): (r: Option<string>)
    requires requiredMessage != NameTooShort
    ensures r == Some(requiredMessage) <==> IsBlank(name)
    ensures r == Some(NameTooShort) <==> !IsBlank(name) && |name| < 3
    ensures r == None <==> !IsBlank(name) && |name| >= 3
  {
    TrimEmptyIffBlank(name);
    if Trim(name) == "" then Some(requiredMessage)
    else if |name| < 3 then Some(NameTooShort)
    else None
  }

  // ---------------------------------------------------------------------------
  // Phone numbers: /^(\+?62|0)[0-9]{9,12}$/ after removing /[\s-]/g

  /** `value.replace(/[\s-]/g, "")`. */
  function StripSeparators(s: string): string
    decreases |s|
  {
    if s == [] then []
    else (if IsWhitespace(s[0]) || s[0] == '-' then [] else [s[0]]) + StripSeparators(s[1..])
  }

  /** A blank value has nothing left once separators are removed. */
  lemma {:induction false} StripSeparatorsBlank(s: string)
    ensures IsBlank(s) ==> StripSeparators(s) == ""
    decreases |s|
  {
    if s != [] && IsBlank(s) {
      assert IsWhitespace(s[0]);
      StripSeparatorsBlank(s[1..]);
    }
  }

  /** Separators are not phone characters, so the sender's normaliser sees the same digits. */
  lemma {:induction false} StripSeparatorsThenPhone(s: string)
    ensures PdfGenerator.StripPhone(StripSeparators(s)) == PdfGenerator.StripPhone(s)
    decreases |s|
  {
    if s != [] {
      StripSeparatorsThenPhone(s[1..]);
      var h := if IsWhitespace(s[0]) || s[0] == '-' then [] else [s[0]];
      PdfGenerator.StripPhoneAppend(h, StripSeparators(s[1..]));
      if h == [] {
        assert StripSeparators(s) == StripSeparators(s[1..]);
      }
    }
  }

  /** The subscriber part: 9 to 12 digits. */
  predicate Subscriber(t: string) {
    9 <= |t| <= 12 && AllDigits(t)
  }

  /** The regular expression, alternative by alternative. */
  predicate MatchesPhone(s: string) {
    || (StartsWith(s, "+62") && Subscriber(s[3..]))
    || (StartsWith(s, "62") && Subscriber(s[2..]))
    || (StartsWith(s, "0") && Subscriber(s[1..]))
  }

  /** The pattern as described: a trunk prefix `62`, `+62` or `0`, then 9 to 12 digits. */
  predicate PhoneSplit(s: string, k: int) {
    0 <= k <= |s| && (s[..k] == "62" || s[..k] == "+62" || s[..k] == "0") && Subscriber(s[k..])
  }

  predicate IsPhoneNumber(s: string) {
    exists k | 0 <= k <= |s| :: PhoneSplit(s, k)
  }

  lemma MatchesPhoneIff(s: string)
    ensures MatchesPhone(s) <==> IsPhoneNumber(s)
  {
    if MatchesPhone(s) {
      if StartsWith(s, "+62") && Subscriber(s[3..]) {
        assert PhoneSplit(s, 3);
      } else if StartsWith(s, "62") && Subscriber(s[2..]) {
        assert PhoneSplit(s, 2);
      } else {
        assert PhoneSplit(s, 1);
      }
    }
    if exists k :: PhoneSplit(s, k) {
      var k :| PhoneSplit(s, k);
      assert |s[..k]| == k;
      assert StartsWith(s, s[..k]);
    }
  }

  function PhoneError(value: string): (r: Option<string>)
    ensures r == None <==> IsPhoneNumber(StripSeparators(value))
    ensures r.Some? ==> r.value == InvalidPhone
  {
    var s := StripSeparators(value);
    MatchesPhoneIff(s);
    if MatchesPhone(s) then None else Some(InvalidPhone)
  }

  /** A number the pattern accepts has only digits and `+`. */
  lemma MatchesPhoneChars(s: string)
    requires MatchesPhone(s)
    ensures PdfGenerator.PhoneChars(s)
  {
    forall i | 0 <= i < |s| ensures PdfGenerator.IsPhoneChar(s[i]) {
      if StartsWith(s, "+62") {
        if i >= 3 { assert s[i] == s[3..][i - 3]; }
      } else if StartsWith(s, "62") {
        if i >= 2 { assert s[i] == s[2..][i - 2]; }
      } else {
        if i >= 1 { assert s[i] == s[1..][i - 1]; }
      }
    }
  }

  /** An accepted number reaches the messaging network as `62` and 9 to 12 digits,
      whatever separators it was typed with. */
  lemma AcceptedPhoneNormalises(value: string)
    requires MatchesPhone(StripSeparators(value))
    ensures var wire := PdfGenerator.FormatPhoneNumber(value);
      StartsWith(wire, "62") && Subscriber(wire[2..])
  {
    var s := StripSeparators(value);
    StripSeparatorsThenPhone(value);
    MatchesPhoneChars(s);
    PdfGenerator.StripPhoneKeeps(s);
    PdfGenerator.FormatPhoneCases(value);
    var wire := PdfGenerator.FormatPhoneNumber(value);
    if StartsWith(s, "+62") {
      assert wire == s[1..];
      assert wire[2..] == s[3..];
    } else if StartsWith(s, "62") {
      assert wire == s;
    } else {
      assert wire == "62" + s[1..];
      assert wire[2..] == s[1..];
    }
  }

  // ---------------------------------------------------------------------------
  // E-mail addresses: /^[^\s@]+@[^\s@]+\.[^\s@]+$/

  /** A run the pattern's `[^\s@]+` matches. */
  predicate Atom(t: string) {
    t != "" && forall i :: 0 <= i < |t| ==> !IsWhitespace(t[i]) && t[i] != '@'
  }

  /** One way the regular expression can match: local part, `@`, domain label, `.`, rest. */
  predicate EmailSplit(s: string, at: int, dot: int) {
    0 <= at < dot < |s| && s[at] == '@' && s[dot] == '.'
    && Atom(s[..at]) && Atom(s[at + 1..dot]) && Atom(s[dot + 1..])
  }

  /** The regular expression matches when some split works (it backtracks over the dots). */
  predicate MatchesEmail(s: string) {
    exists at, dot | 0 <= at < dot < |s| :: EmailSplit(s, at, dot)
  }

  /** The rule as described: no whitespace, exactly one `@`, a non-empty local part,
      and a `.` inside the domain with text on both sides. */
  predicate EmailShape(s: string) {
    && (forall i :: 0 <= i < |s| ==> !IsWhitespace(s[i]))
    && exists at | 0 <= at < |s| :: OnlyAt(s, at) && 0 < at && DotInside(s, at)
  }

  predicate OnlyAt(s: string, at: int) {
    0 <= at < |s| && s[at] == '@' && forall k :: 0 <= k < |s| && s[k] == '@' ==> k == at
  }

  predicate DotInside(s: string, at: int) {
    exists dot | 0 <= at + 1 < dot < |s| - 1 :: s[dot] == '.'
  }

  lemma EmailSplitShape(s: string, at: int, dot: int)
    requires EmailSplit(s, at, dot)
    ensures forall i :: 0 <= i < |s| ==> !IsWhitespace(s[i])
    ensures OnlyAt(s, at) && 0 < at && DotInside(s, at)
  {
    var a, b, c := s[..at], s[at + 1..dot], s[dot + 1..];
    forall i | 0 <= i < |s|
      ensures !IsWhitespace(s[i]) && (s[i] == '@' ==> i == at)
    {
      if i < at {
        assert s[i] == a[i];
      } else if at < i < dot {
        assert s[i] == b[i - at - 1];
      } else if dot < i {
        assert s[i] == c[i - dot - 1];
      }
    }
    assert at + 1 < dot < |s| - 1;
  }

  lemma ShapeEmailSplit(s: string, at: int, dot: int)
    requires forall i :: 0 <= i < |s| ==> !IsWhitespace(s[i])
    requires OnlyAt(s, at) && 0 < at && at + 1 < dot < |s| - 1 && s[dot] == '.'
    ensures EmailSplit(s, at, dot)
  {
    var a, b, c := s[..at], s[at + 1..dot], s[dot + 1..];
    forall i | 0 <= i < |a| ensures !IsWhitespace(a[i]) && a[i] != '@' {
      assert a[i] == s[i];
    }
    forall i | 0 <= i < |b| ensures !IsWhitespace(b[i]) && b[i] != '@' {
      assert b[i] == s[at + 1 + i];
    }
    forall i | 0 <= i < |c| ensures !IsWhitespace(c[i]) && c[i] != '@' {
      assert c[i] == s[dot + 1 + i];
    }
  }

  /** The regular expression and the rule in plain terms accept the same addresses. */
  lemma MatchesEmailIff(s: string)
    ensures MatchesEmail(s) <==> EmailShape(s)
  {
    if MatchesEmail(s) {
      var at, dot :| 0 <= at < dot < |s| && EmailSplit(s, at, dot);
      EmailSplitShape(s, at, dot);
    }
    if EmailShape(s) {
      var at :| 0 <= at < |s| && OnlyAt(s, at) && 0 < at && DotInside(s, at);
      var dot :| at + 1 < dot < |s| - 1 && s[dot] == '.';
      ShapeEmailSplit(s, at, dot);
    }
  }

  /** `if (email) { if (!emailRegex.test(email)) … }`: an empty address is allowed. */
  function EmailError(email: string): (r: Option<string>)
    ensures r == None <==> email == "" || EmailShape(email)
    ensures r.Some? ==> r.value == InvalidEmail
  {
    MatchesEmailIff(email);
    if email != "" && !MatchesEmail(email) then Some(InvalidEmail) else None
  }
}
