/**
 * The field rules the account pages share: JavaScript whitespace and `trim()`,
 * the e-mail pattern `^[^\s@]+@[^\s@]+\.[^\s@]+$`, the confirmation rule and
 * the `error.message || fallback` idiom.
 */
module Validation {

  /** JavaScript's WhiteSpace and LineTerminator code points: the set matched by
      the regular-expression class `\s` and stripped by `String.prototype.trim`. */
  predicate IsJsWhitespace(c: char)
  {
    || c == '\t' || c == '\n' || c == '\U{000B}' || c == '\U{000C}' || c == '\r'
    || c == ' ' || c == '\U{00A0}' || c == '\U{1680}'
    || ('\U{2000}' <= c <= '\U{200A}')
    || c == '\U{2028}' || c == '\U{2029}' || c == '\U{202F}' || c == '\U{205F}'
    || c == '\U{3000}' || c == '\U{FEFF}'
  }

  predicate AllWhitespace(s: string)
  {
    forall i :: 0 <= i < |s| ==> IsJsWhitespace(s[i])
  }

  /** `s.trimStart()`: drops leading whitespace. */
  function TrimStart(s: string): string
  {
    if |s| > 0 && IsJsWhitespace(s[0]) then TrimStart(s[1..]) else s
  }

  /** `s.trimEnd()`: drops trailing whitespace. */
  function TrimEnd(s: string): string
  {
    if |s| > 0 && IsJsWhitespace(s[|s| - 1]) then TrimEnd(s[..|s| - 1]) else s
  }

  /** `trimStart` leaves the longest suffix that does not start with whitespace. */
  lemma {:induction false} TrimStartShape(s: string)
    ensures var r := TrimStart(s);
            && |r| <= |s| && r == s[|s| - |r|..]
            && AllWhitespace(s[..|s| - |r|])
            && (r != [] ==> !IsJsWhitespace(r[0]))
  {
    if |s| > 0 && IsJsWhitespace(s[0]) {
      TrimStartShape(s[1..]);
      var r := TrimStart(s[1..]);
      assert s[1..][..|s| - 1 - |r|] == s[1..|s| - |r|];
    }
  }

  /** `trimEnd` leaves the longest prefix that does not end with whitespace. */
  lemma {:induction false} TrimEndShape(s: string)
    ensures var r := TrimEnd(s);
            && |r| <= |s| && r == s[..|r|]
            && AllWhitespace(s[|r|..])
            && (r != [] ==> !IsJsWhitespace(r[|r| - 1]))
  {
    if |s| > 0 && IsJsWhitespace(s[|s| - 1]) {
      var p := s[..|s| - 1];
      TrimEndShape(p);
      var r := TrimEnd(p);
      assert s[..|r|] == p[..|r|];
      assert s[|r|..] == p[|r|..] + [s[|s| - 1]];
    }
  }

  /** `s.trim()`. */
  function Trim(s: string): string
  {
    TrimEnd(TrimStart(s))
  }

  /** `!s.trim()` in the pages: the value is empty once trimmed. */
  predicate IsBlank(s: string)
  {
    Trim(s) == ""
  }

  /** A value is blank exactly when every character of it is whitespace. */
  lemma BlankIffAllWhitespace(s: string)
    ensures IsBlank(s) <==> AllWhitespace(s)
  {
    var t := TrimStart(s);
    TrimStartShape(s);
    TrimEndShape(t);
    if !AllWhitespace(s) {
      var k :| 0 <= k < |s| && !IsJsWhitespace(s[k]);
      forall i | 0 <= i < |s| - |t| ensures IsJsWhitespace(s[i]) {
        assert s[..|s| - |t|][i] == s[i];
      }
      var j := k - (|s| - |t|);
      assert t[j] == s[k];
      var u := TrimEnd(t);
      forall i | |u| <= i < |t| ensures IsJsWhitespace(t[i]) {
        assert t[|u|..][i - |u|] == t[i];
      }
      assert j < |u|;
    }
  }

  // ----- the e-mail pattern -----

  /** The characters `[^\s@]` matches. */
  predicate IsAddressChar(c: char)
  {
    !IsJsWhitespace(c) && c != '@'
  }

  predicate AllAddressChars(s: string)
  {
    forall i :: 0 <= i < |s| ==> IsAddressChar(s[i])
  }

  /** The decomposition at the `@` at index `at` and the dot at index `dot`. */
  predicate SplitsAt(s: string, at: int, dot: int)
  {
    && 0 < at && at + 1 < dot && dot + 1 < |s|
    && s[at] == '@' && s[dot] == '.'
    && AllAddressChars(s[..at]) && AllAddressChars(s[at + 1..dot]) && AllAddressChars(s[dot + 1..])
  }

  /** The language of `^[^\s@]+@[^\s@]+\.[^\s@]+$`, written as its decomposition:
      a non-empty run without whitespace or `@`, an `@`, a non-empty run, a dot,
      and a non-empty run. */
  ghost predicate MatchesEmailPattern(s: string)
  {
    exists at, dot :: SplitsAt(s, at, dot)
  }

  /** The index of the first `c` in `s`, or `|s|` when there is none. */
  function IndexOf(s: string, c: char): (k: nat)
    ensures k <= |s|
    ensures k < |s| ==> s[k] == c
    ensures forall i :: 0 <= i < k ==> s[i] != c
  {
    if s == [] then 0
    else if s[0] == c then 0
    else 1 + IndexOf(s[1..], c)
  }

  /** A dot that is neither the first nor the last character. */
  predicate HasInnerDot(domain: string)
  {
    exists k :: 0 < k < |domain| - 1 && domain[k] == '.'
  }

  /** The e-mail test the pages run, stated the way one reads an address: no
      whitespace anywhere, exactly one `@` with a non-empty part before it, and a
      domain part containing a dot that is neither its first nor its last character. */
  predicate IsValidEmail(s: string)
  {
    var at := IndexOf(s, '@');
    && (forall i :: 0 <= i < |s| ==> !IsJsWhitespace(s[i]))
    && 0 < at < |s|
    && '@' !in s[at + 1..]
    && HasInnerDot(s[at + 1..])
  }

  /** A slice of address characters, read back index by index. */
  lemma AddressCharsOfSlice(s: string, lo: int, hi: int)
    requires 0 <= lo <= hi <= |s| && AllAddressChars(s[lo..hi])
    ensures forall i :: lo <= i < hi ==> IsAddressChar(s[i])
  {
    forall i | lo <= i < hi ensures IsAddressChar(s[i]) {
      assert s[i] == s[lo..hi][i - lo];
    }
  }

  /** One decomposition is enough for the readable test. */
  lemma SplitIsValidEmail(s: string, at: int, dot: int)
    requires SplitsAt(s, at, dot)
    ensures IsValidEmail(s)
  {
    assert s[..at] == s[0..at];
    assert s[dot + 1..] == s[dot + 1..|s|];
    AddressCharsOfSlice(s, 0, at);
    AddressCharsOfSlice(s, at + 1, dot);
    AddressCharsOfSlice(s, dot + 1, |s|);
    assert forall i :: 0 <= i < |s| ==> !IsJsWhitespace(s[i]) by {
      forall i | 0 <= i < |s| ensures !IsJsWhitespace(s[i]) {
        if i != at && i != dot {
          assert IsAddressChar(s[i]);
        }
      }
    }
    assert IndexOf(s, '@') == at;
    var domain := s[at + 1..];
    assert HasInnerDot(domain) by {
      assert domain[dot - at - 1] == '.';
    }
    assert '@' !in domain by {
      forall i | 0 <= i < |domain| ensures domain[i] != '@' {
        assert domain[i] == s[i + at + 1];
      }
    }
  }

  /** Every string of the pattern passes the readable test. */
  lemma PatternIsValidEmail(s: string)
    requires MatchesEmailPattern(s)
    ensures IsValidEmail(s)
  {
    var at, dot :| SplitsAt(s, at, dot);
    SplitIsValidEmail(s, at, dot);
  }

  /** Every string that passes the readable test is of the pattern. */
  lemma ValidEmailMatchesPattern(s: string)
    requires IsValidEmail(s)
    ensures MatchesEmailPattern(s)
  {
    var at := IndexOf(s, '@');
    var domain := s[at + 1..];
    var k :| 0 < k < |domain| - 1 && domain[k] == '.';
    var dot := at + 1 + k;
    assert s[dot] == '.';
    forall i | 0 <= i < |s| && i != at ensures IsAddressChar(s[i]) {
      if i > at {
        assert s[i] == domain[i - at - 1];
      }
    }
    assert AllAddressChars(s[..at]);
    var mid := s[at + 1..dot];
    assert AllAddressChars(mid) by {
      forall i | 0 <= i < |mid| ensures IsAddressChar(mid[i]) {
        assert mid[i] == s[at + 1 + i];
      }
    }
    var tld := s[dot + 1..];
    assert AllAddressChars(tld) by {
      forall i | 0 <= i < |tld| ensures IsAddressChar(tld[i]) {
        assert tld[i] == s[dot + 1 + i];
      }
    }
    assert SplitsAt(s, at, dot);
  }

  /** The readable test accepts exactly the strings the regular expression matches. */
  lemma EmailPatternIff(s: string)
    ensures IsValidEmail(s) <==> MatchesEmailPattern(s)
  {
    if MatchesEmailPattern(s) {
      PatternIsValidEmail(s);
    }
    if IsValidEmail(s) {
      ValidEmailMatchesPattern(s);
    }
  }

  /** The pages' two e-mail messages. */
  const EmailRequired := "Email is required."
  const EmailInvalid := "Please enter a valid email address."

  /** The e-mail rule of registration, login and forgot-password: blank after
      `trim()` is "required"; otherwise a pattern failure is "invalid". The
      pattern is tested on the untrimmed value. */
  function EmailError(email: string): string
  {
    if IsBlank(email) then EmailRequired
    else if !IsValidEmail(email) then EmailInvalid
    else ""
  }

  /** What the e-mail rule means: no message exactly for strings of the pattern,
      "required" exactly for all-whitespace strings, "invalid" for the rest. */
  lemma EmailErrorMeaning(email: string)
    ensures EmailError(email) == "" <==> MatchesEmailPattern(email)
    ensures EmailError(email) == EmailRequired <==> AllWhitespace(email)
    ensures EmailError(email) == EmailInvalid <==> !AllWhitespace(email) && !MatchesEmailPattern(email)
  {
    BlankIffAllWhitespace(email);
    EmailPatternIff(email);
    if IsValidEmail(email) {
      assert !IsJsWhitespace(email[0]);
    }
  }

  /** A value with a leading space is reported as invalid, not as missing. */
  lemma LeadingSpaceIsInvalid()
    ensures EmailError(" a@b.co") == EmailInvalid
  {
    var s := " a@b.co";
    assert !IsJsWhitespace(s[1]);
    BlankIffAllWhitespace(s);
    assert IndexOf(s, '@') == 2;
  }

  // ----- passwords -----

  const MinPasswordLength := 6
  const ConfirmRequired := "Please confirm your password."
  const PasswordsDiffer := "Passwords do not match."

  /** The confirmation rule of registration and reset: empty is "please confirm";
      then any difference from the password, an empty password included, is a
      mismatch. */
  function ConfirmPasswordError(password: string, confirm: string): string
  {
    if confirm == "" then ConfirmRequired
    else if password != confirm then PasswordsDiffer
    else ""
  }

  /** The confirmation passes exactly when it is a non-empty copy of the password,
      and a mismatch is never silent. */
  lemma ConfirmPasswordMeaning(password: string, confirm: string)
    ensures ConfirmPasswordError(password, confirm) == "" <==> confirm != "" && confirm == password
    ensures confirm != password ==> ConfirmPasswordError(password, confirm) != ""
    ensures confirm != "" && confirm != password ==> ConfirmPasswordError(password, confirm) == PasswordsDiffer
  {
  }

  /** `message || fallback`: JavaScript's `||` on strings keeps a non-empty left side. */
  function OrElse(message: string, fallback: string): string
  {
    if message != "" then message else fallback
  }
}
