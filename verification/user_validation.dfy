/**
 * The user service's field validators. Each returns nil (None) or one of its
 * declared sentinel errors. Lengths are Go's len, counted in UTF-8 bytes.
 *
 * The two regular expressions are replaced by hand-written recognizers, each
 * proved to accept exactly the strings its pattern describes.
 */
module UserValidation {
  import opened Common
  import opened UserErrors
  import GoErrors

  const MinUsernameLength := 3
  const MaxUsernameLength := 30
  const MinPasswordLength := 6

  /** [a-zA-Z0-9_] */
  predicate IsWordChar(c: char)
  {
    IsAsciiLetter(c) || IsAsciiDigit(c) || c == '_'
  }

  /** [a-zA-Z0-9._%+-], the class of the part before the '@'. */
  predicate IsLocalChar(c: char)
  {
    IsAsciiLetter(c) || IsAsciiDigit(c) || c == '.' || c == '_' || c == '%' || c == '+' || c == '-'
  }

  /** [a-zA-Z0-9.-], the class of the domain. */
  predicate IsDomainChar(c: char)
  {
    IsAsciiLetter(c) || IsAsciiDigit(c) || c == '.' || c == '-'
  }

  /** ValidateUsername: the length check first, then ^[a-zA-Z0-9_]+$. */
  function ValidateUsername(username: string): (r: Option<Error>)
    ensures r == Some(GoErrors.Sentinel(InvalidUsernameLength)) <==>
      ByteLen(username) < MinUsernameLength || ByteLen(username) > MaxUsernameLength
    ensures r == Some(GoErrors.Sentinel(UsernameNotAlphanumeric)) <==>
      MinUsernameLength <= ByteLen(username) <= MaxUsernameLength && !All(username, IsWordChar)
    ensures r.None? <==> MinUsernameLength <= |username| <= MaxUsernameLength && All(username, IsWordChar)
  {
    if ByteLen(username) < MinUsernameLength || ByteLen(username) > MaxUsernameLength then
      Some(GoErrors.Sentinel(InvalidUsernameLength))
    else if !All(username, IsWordChar) then
      Some(GoErrors.Sentinel(UsernameNotAlphanumeric))
    else
      None
  }

  /** ValidatePassword: at least six bytes. */
  function ValidatePassword(password: string): (r: Option<Error>)
    ensures r.None? || r == Some(GoErrors.Sentinel(PasswordTooShort))
    ensures r.None? <==> ByteLen(password) >= MinPasswordLength
    // six characters of any kind are enough
    ensures |password| >= MinPasswordLength ==> r.None?
  {
    if ByteLen(password) < MinPasswordLength then Some(GoErrors.Sentinel(PasswordTooShort)) else None
  }

  /** Index of the first occurrence of c in s. */
  function FirstIndex(s: string, c: char): (r: Option<nat>)
    ensures r.None? <==> c !in s
    ensures r.Some? ==> r.value < |s| && s[r.value] == c && c !in s[..r.value]
  {
    if s == [] then None
    else if s[0] == c then Some(0)
    else
      var r := FirstIndex(s[1..], c);
      if r.None? then None
      else
        assert s[..r.value + 1] == [s[0]] + s[1..][..r.value];
        Some(r.value + 1)
  }

  /** Index of the last occurrence of c in s. */
  function LastIndex(s: string, c: char): (r: Option<nat>)
    ensures r.None? <==> c !in s
    ensures r.Some? ==> r.value < |s| && s[r.value] == c && c !in s[r.value + 1..]
  {
    if s == [] then None
    else if s[|s| - 1] == c then Some(|s| - 1)
    else
      var r := LastIndex(s[..|s| - 1], c);
      if r.None? then
        assert s == s[..|s| - 1] + [s[|s| - 1]];
        None
      else
        assert s[r.value + 1..] == s[..|s| - 1][r.value + 1..] + [s[|s| - 1]];
        r
  }

  /** The part after the '@': [a-zA-Z0-9.-]+\.[a-zA-Z]{2,}$ */
  predicate IsDomain(d: string)
  {
    && All(d, IsDomainChar)
    && var dot := LastIndex(d, '.');
    && dot.Some? && dot.value >= 1 && |d| - dot.value - 1 >= 2
    && All(d[dot.value + 1..], IsAsciiLetter)
  }

  /** The recognizer: the first '@' splits a non-empty local part from a domain. */
  predicate IsEmail(s: string)
  {
    var at := FirstIndex(s, '@');
    && at.Some? && at.value >= 1
    && All(s[..at.value], IsLocalChar)
    && IsDomain(s[at.value + 1..])
  }

  /** ValidateEmail. */
  function ValidateEmail(email: string): (r: Option<Error>)
    ensures r.None? || r == Some(GoErrors.Sentinel(InvalidEmail))
    ensures r.None? <==> IsEmail(email)
  {
    if !IsEmail(email) then Some(GoErrors.Sentinel(InvalidEmail)) else None
  }

  /**
   * The pattern ^[a-zA-Z0-9._%+-]+@[a-zA-Z0-9.-]+\.[a-zA-Z]{2,}$ read as a
   * split of s at the '@' (index at) and at the '.' before the top-level
   * domain (index dot).
   */
  predicate EmailSplit(s: string, at: nat, dot: nat)
  {
    && 1 <= at && at + 1 < dot && dot + 3 <= |s|
    && s[at] == '@' && s[dot] == '.'
    && All(s[..at], IsLocalChar)
    && All(s[at + 1..dot], IsDomainChar)
    && All(s[dot + 1..], IsAsciiLetter)
  }

  ghost predicate MatchesEmailPattern(s: string)
  {
    exists at: nat, dot: nat :: EmailSplit(s, at, dot)
  }

  /** The recognizer accepts a string exactly when a split of the pattern exists. */
  lemma {:induction false} EmailRecognizerMatchesPattern(s: string)
    ensures IsEmail(s) <==> MatchesEmailPattern(s)
  {
    if IsEmail(s) {
      var at := FirstIndex(s, '@').value;
      var d := s[at + 1..];
      var k := LastIndex(d, '.').value;
      var dot := at + 1 + k;
      assert s[at + 1..dot] == d[..k];
      assert s[dot + 1..] == d[k + 1..];
      assert EmailSplit(s, at, dot);
    }
    if MatchesEmailPattern(s) {
      var at: nat, dot: nat :| EmailSplit(s, at, dot);
      EmailSplitIsUnique(s, at, dot);
    }
  }

  lemma FirstIndexAt(s: string, c: char, i: nat)
    requires i < |s| && s[i] == c && c !in s[..i]
    ensures FirstIndex(s, c) == Some(i)
  {
  }

  lemma LastIndexAt(s: string, c: char, i: nat)
    requires i < |s| && s[i] == c && c !in s[i + 1..]
    ensures LastIndex(s, c) == Some(i)
  {
  }

  /** Any split sits at the first '@' and the last '.', which the recognizer finds. */
  lemma EmailSplitIsUnique(s: string, at: nat, dot: nat)
    requires EmailSplit(s, at, dot)
    ensures FirstIndex(s, '@') == Some(at)
    ensures LastIndex(s[at + 1..], '.') == Some(dot - at - 1)
    ensures IsEmail(s)
  {
    // the local part has no '@'
    assert '@' !in s[..at] by {
      assert forall j :: 0 <= j < at ==> IsLocalChar(s[..at][j]);
    }
    FirstIndexAt(s, '@', at);
    var d := s[at + 1..];
    var k := dot - at - 1;
    // the top-level domain has no '.'
    assert d[k + 1..] == s[dot + 1..];
    assert '.' !in s[dot + 1..];
    LastIndexAt(d, '.', k);
    assert d == s[at + 1..dot] + s[dot..];
    assert All(d, IsDomainChar) by {
      forall i | 0 <= i < |d|
        ensures IsDomainChar(d[i])
      {
        if i < k {
          assert d[i] == s[at + 1..dot][i];
        } else if i > k {
          assert d[i] == s[dot + 1..][i - k - 1];
        }
      }
    }
  }

  /** The test fixtures: "ab" is too short, "test#user" fails on its characters, "invalid-email" has no '@'. */
  lemma RejectedExamples()
    ensures ValidateUsername("ab") == Some(GoErrors.Sentinel(InvalidUsernameLength))
    ensures ValidateUsername("test#user") == Some(GoErrors.Sentinel(UsernameNotAlphanumeric))
    ensures ValidateEmail("invalid-email") == Some(GoErrors.Sentinel(InvalidEmail))
  {
    var ab := "ab";
    assert forall i :: 0 <= i < |ab| ==> ab[i] as int < 0x80;
    assert !IsWordChar("test#user"[4]);
    assert '@' !in "invalid-email";
  }

  /** The test fixture "test@example.com" is accepted. */
  lemma AcceptedEmailExample()
    ensures ValidateEmail("test@example.com").None?
  {
    var e := "test@example.com";
    assert EmailSplit(e, 4, 12) by {
      assert e[..4] == "test" && e[5..12] == "example" && e[13..] == "com";
    }
    EmailSplitIsUnique(e, 4, 12);
  }
}
