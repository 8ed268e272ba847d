/** The client-side email check of the waitlist form: five ordered,
    short-circuiting checks, the last of which is the shape pattern
    `^[^\s@]+@[^\s@]+\.[^\s@]+$`. The empty message means "valid". */
module EmailValidator {

  const RequiredMessage: string := "Email is required"
  const TooShortMessage: string := "Email is too short"
  const MissingAtMessage: string := "Please include '@' in your email"
  const MissingDomainMessage: string := "Please include a valid domain"
  const InvalidMessage: string := "Please enter a valid email address"

  /** The JavaScript regular-expression class `\s`: the ECMAScript
      WhiteSpace and LineTerminator code points. */
  predicate IsWhitespace(c: char)
  {
    || c == '\t' || c == '\n' || c == '\U{000B}' || c == '\U{000C}' || c == '\r'
    || c == ' ' || c == '\U{00A0}' || c == '\U{1680}'
    || ('\U{2000}' <= c <= '\U{200A}')
    || c == '\U{2028}' || c == '\U{2029}' || c == '\U{202F}' || c == '\U{205F}'
    || c == '\U{3000}' || c == '\U{FEFF}'
  }

  /** The class `[^\s@]` of the pattern. */
  predicate IsPatternChar(c: char)
  {
    !IsWhitespace(c) && c != '@'
  }

  /** `s` is a run of `[^\s@]` (possibly empty; the `+` is the caller's job). */
  predicate AllPatternChars(s: string)
  {
    forall i :: 0 <= i < |s| ==> IsPatternChar(s[i])
  }

  /** `at` and `dot` split `s` as the pattern does: a '@' at `at`, a '.'
      at `dot`, and three non-empty runs of `[^\s@]` around them. */
  predicate PatternSplit(s: string, at: int, dot: int)
  {
    && 0 < at && at + 1 < dot && dot + 1 < |s|
    && s[at] == '@' && s[dot] == '.'
    && AllPatternChars(s[..at])
    && AllPatternChars(s[at + 1..dot])
    && AllPatternChars(s[dot + 1..])
  }

  /** `^[^\s@]+@[^\s@]+\.[^\s@]+$`: some '@' and some later '.' split `s`
      into three non-empty runs of `[^\s@]`. */
  predicate MatchesEmailPattern(s: string)
  {
    exists at, dot | 0 < at < dot < |s| :: PatternSplit(s, at, dot)
  }

  /** Index of the first occurrence of `c` in `s`. */
  function IndexOf(s: string, c: char): (i: nat)
    requires c in s
    ensures i < |s| && s[i] == c && c !in s[..i]
  {
    if s[0] == c then 0
    else
      assert c in s[1..] by { var k :| 0 <= k < |s| && s[k] == c; assert s[1..][k - 1] == c; }
      var j := IndexOf(s[1..], c);
      assert s[..j + 1] == [s[0]] + s[1..][..j];
      j + 1
  }

  /** The same language described by its parts: no whitespace anywhere,
      exactly one '@', a non-empty local part before it, and after it a
      domain holding a '.' that is neither its first nor its last
      character. */
  predicate WellShaped(s: string)
  {
    && (forall i :: 0 <= i < |s| ==> !IsWhitespace(s[i]))
    && multiset(s)['@'] == 1
    && var at := IndexOf(s, '@');
       && 0 < at
       && at + 2 <= |s| - 1
       && '.' in s[at + 2..|s| - 1]
  }

  /** The pattern forces the four checks that precede it to pass. */
  lemma PatternImpliesEarlierChecks(s: string)
    ensures MatchesEmailPattern(s) ==> |s| >= 5 && '@' in s && '.' in s
  {
    if MatchesEmailPattern(s) {
      var at, dot :| 0 < at < dot < |s| && PatternSplit(s, at, dot);
    }
  }

  /** `validateEmail`: the message of the first failing check, or "" when
      every check passes. The four early checks are implied by the
      pattern, so "" means exactly "matches the pattern". */
  function ValidateEmail(email: string): (msg: string)
    ensures msg == "" <==> MatchesEmailPattern(email)
    ensures msg in {"", RequiredMessage, TooShortMessage, MissingAtMessage, MissingDomainMessage, InvalidMessage}
  {
    PatternImpliesEarlierChecks(email);
    if email == [] then RequiredMessage
    else if |email| < 3 then TooShortMessage
    else if '@' !in email then MissingAtMessage
    else if '.' !in email then MissingDomainMessage
    else if !MatchesEmailPattern(email) then InvalidMessage
    else ""
  }

  /** The order of the checks decides which message wins. */
  lemma ValidateEmailPrecedence(s: string)
    ensures ValidateEmail(s) == RequiredMessage <==> s == []
    ensures ValidateEmail(s) == TooShortMessage <==> 0 < |s| < 3
    ensures ValidateEmail(s) == MissingAtMessage <==> |s| >= 3 && '@' !in s
    ensures ValidateEmail(s) == MissingDomainMessage <==> |s| >= 3 && '@' in s && '.' !in s
    ensures ValidateEmail(s) == InvalidMessage <==>
      |s| >= 3 && '@' in s && '.' in s && !MatchesEmailPattern(s)
  {
  }

  /** A string with no '@' counts none. */
  lemma AbsentCountsZero(t: string, c: char)
    requires c !in t
    ensures multiset(t)[c] == 0
  {
    assert c !in multiset(t);
  }

  lemma SplitImpliesWellShaped(s: string, at: int, dot: int)
    requires PatternSplit(s, at, dot)
    ensures WellShaped(s)
  {
    var local, host, rest := s[..at], s[at + 1..dot], s[dot + 1..];
    assert s == local + ['@'] + host + ['.'] + rest;
    assert '@' !in local by { assert forall k :: 0 <= k < |local| ==> local[k] != '@'; }
    assert '@' !in host by { assert forall k :: 0 <= k < |host| ==> host[k] != '@'; }
    assert '@' !in rest by { assert forall k :: 0 <= k < |rest| ==> rest[k] != '@'; }
    AbsentCountsZero(local, '@');
    AbsentCountsZero(host, '@');
    AbsentCountsZero(rest, '@');
    assert multiset(s) == multiset(local) + multiset{'@'} + multiset(host) + multiset{'.'} + multiset(rest);
    forall k | 0 <= k < |s| ensures !IsWhitespace(s[k]) {
      if k < at {
        assert s[k] == local[k];
      } else if at < k < dot {
        assert s[k] == host[k - at - 1];
      } else if dot < k {
        assert s[k] == rest[k - dot - 1];
      }
    }
    assert s[at + 2..|s| - 1][dot - at - 2] == '.';
  }

  lemma WellShapedImpliesPattern(s: string)
    requires WellShaped(s)
    ensures MatchesEmailPattern(s)
  {
    var at := IndexOf(s, '@');
    var inner := s[at + 2..|s| - 1];
    var k :| 0 <= k < |inner| && inner[k] == '.';
    var dot := at + 2 + k;
    assert s[dot] == '.';
    var after := s[at + 1..];
    assert s == s[..at] + [s[at]] + after;
    assert multiset(s) == multiset(s[..at]) + multiset{'@'} + multiset(after);
    AbsentCountsZero(s[..at], '@');
    assert '@' !in after;
    var local, host, rest := s[..at], s[at + 1..dot], s[dot + 1..];
    assert AllPatternChars(local) by {
      forall j | 0 <= j < |local| ensures IsPatternChar(local[j]) {
        assert local[j] == s[j];
      }
    }
    assert AllPatternChars(host) by {
      forall j | 0 <= j < |host| ensures IsPatternChar(host[j]) {
        assert host[j] == after[j] == s[at + 1 + j];
      }
    }
    assert AllPatternChars(rest) by {
      forall j | 0 <= j < |rest| ensures IsPatternChar(rest[j]) {
        assert rest[j] == after[dot - at + j] == s[dot + 1 + j];
      }
    }
    assert PatternSplit(s, at, dot);
  }

  /** The pattern holds exactly when the string is well shaped: one '@',
      no whitespace, a non-empty local part and a domain with an inner '.'. */
  lemma PatternIffWellShaped(s: string)
    ensures MatchesEmailPattern(s) <==> WellShaped(s)
  {
    if MatchesEmailPattern(s) {
      var at, dot :| 0 < at < dot < |s| && PatternSplit(s, at, dot);
      SplitImpliesWellShaped(s, at, dot);
    }
    if WellShaped(s) {
      WellShapedImpliesPattern(s);
    }
  }

  /** The early checks, in order: "ab" is too short before it lacks an
      '@', "abc" lacks the '@' before it lacks a '.'. */
  lemma EarlyCheckExamples()
    ensures ValidateEmail("") == RequiredMessage
    ensures ValidateEmail("ab") == TooShortMessage
    ensures ValidateEmail("abc") == MissingAtMessage
    ensures ValidateEmail("a@b") == MissingDomainMessage
  {
  }

  /** Strings that pass the four early checks but not the pattern: the
      only '.' is in the local part, ... */
  lemma DotOnlyInLocalPartExample()
    ensures ValidateEmail("a.b@c") == InvalidMessage
  {
    PatternIffWellShaped("a.b@c");
  }

  /** ... there are two '@', ... */
  lemma DoubleAtExample()
    ensures ValidateEmail("a@@b.c") == InvalidMessage
  {
    assert multiset("a@@b.c")['@'] == 2 by {
      assert "a@@b.c" == ['a'] + ['@'] + ['@'] + "b.c";
    }
    PatternIffWellShaped("a@@b.c");
  }

  /** ... or the local part holds a space. */
  lemma SpaceInLocalPartExample()
    ensures ValidateEmail("a @b.c") == InvalidMessage
  {
    assert IsWhitespace("a @b.c"[1]);
    PatternIffWellShaped("a @b.c");
  }

  /** Lower-case ASCII letters and '.' are all in `[^\s@]`. */
  lemma LowerCaseArePatternChars(t: string)
    requires forall i :: 0 <= i < |t| ==> 'a' <= t[i] <= 'z' || t[i] == '.'
    ensures AllPatternChars(t)
  {
  }

  lemma PatternAcceptExample()
    ensures ValidateEmail("user@example.com") == ""
  {
    var s := "user@example.com";
    assert s[..4] == "user";
    assert s[5..12] == "example";
    assert s[13..] == "com";
    LowerCaseArePatternChars("user");
    LowerCaseArePatternChars("example");
    LowerCaseArePatternChars("com");
    assert PatternSplit(s, 4, 12);
  }
}
