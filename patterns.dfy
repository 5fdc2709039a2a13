/**
 * The two text languages the account forms test with regular expressions:
 * the email pattern `^[^\s@]+@[^\s@]+\.[^\s@]+$` (login and profile forms) and
 * the new-password pattern `^(?=.*[a-z])(?=.*[A-Z])(?=.*\d)[a-zA-Z\d@$!%*?&]{8,}$`.
 * Each has a ghost predicate that follows the pattern's structure and a
 * recogniser that computes it, with a lemma that the two agree.
 */
module Patterns {

  import opened Chars
  import opened FieldChecks

  // ---------------------------------------------------------------- email

  /** `[^\s@]+` without the length bound: no white space and no `@`. */
  predicate EmailSafe(t: string) {
    forall k :: 0 <= k < |t| ==> !IsWhitespace(t[k]) && t[k] != '@'
  }

  /** The email pattern: a split into local part, `@`, domain name, `.` and suffix, all three non-empty. */
  ghost predicate InEmailLanguage(s: string) {
    exists i, j :: 0 < i && i + 1 < j && j + 1 < |s| && s[i] == '@' && s[j] == '.'
      && EmailSafe(s[..i]) && EmailSafe(s[i + 1..j]) && EmailSafe(s[j + 1..])
  }

  predicate NoWhitespace(s: string) {
    forall k :: 0 <= k < |s| ==> !IsWhitespace(s[k])
  }

  /**
   * The recogniser: no white space, exactly one `@` with something before it,
   * and a domain with a `.` that is neither its first nor its last character.
   */
  predicate IsEmail(s: string) {
    NoWhitespace(s) && '@' in s
    && var i := IndexOf(s, '@');
       0 < i && '@' !in s[i + 1..] && |s| - i >= 4 && '.' in s[i + 2..|s| - 1]
  }

  lemma {:induction false} EmailRecogniserSound(s: string)
    requires IsEmail(s)
    ensures InEmailLanguage(s)
  {
    var i := IndexOf(s, '@');
    var d := s[i + 2..|s| - 1];
    var j' :| 0 <= j' < |d| && d[j'] == '.';
    var j := i + 2 + j';
    assert s[j] == '.';
    assert forall k :: i < k < |s| ==> s[k] != '@' by {
      forall k | i < k < |s| ensures s[k] != '@' { assert s[i + 1..][k - i - 1] == s[k]; }
    }
    assert forall k :: 0 <= k < i ==> s[k] != '@' by {
      forall k | 0 <= k < i ensures s[k] != '@' { assert s[..i][k] == s[k]; }
    }
    assert EmailSafe(s[..i]);
    assert EmailSafe(s[i + 1..j]);
    assert EmailSafe(s[j + 1..]);
  }

  /** A split of the email pattern leaves no white space and no `@` other than the one at `i`. */
  lemma EmailSplitFacts(s: string, i: int, j: int)
    requires 0 < i && i + 1 < j && j + 1 < |s| && s[i] == '@' && s[j] == '.'
    requires EmailSafe(s[..i]) && EmailSafe(s[i + 1..j]) && EmailSafe(s[j + 1..])
    ensures NoWhitespace(s)
    ensures forall k :: 0 <= k < |s| && k != i ==> s[k] != '@'
  {
    forall k | 0 <= k < |s|
      ensures !IsWhitespace(s[k]) && (k != i ==> s[k] != '@')
    {
      if k < i {
        assert s[k] == s[..i][k];
      } else if i < k < j {
        assert s[k] == s[i + 1..j][k - i - 1];
      } else if j < k {
        assert s[k] == s[j + 1..][k - j - 1];
      }
    }
  }

  lemma {:induction false} EmailRecogniserComplete(s: string)
    requires InEmailLanguage(s)
    ensures IsEmail(s)
  {
    var i, j :| 0 < i && i + 1 < j && j + 1 < |s| && s[i] == '@' && s[j] == '.'
      && EmailSafe(s[..i]) && EmailSafe(s[i + 1..j]) && EmailSafe(s[j + 1..]);
    EmailSplitFacts(s, i, j);
    assert '@' in s;
    var i' := IndexOf(s, '@');
    assert i' == i;
    var tail := s[i + 1..];
    assert '@' !in tail by {
      forall k | 0 <= k < |tail| ensures tail[k] != '@' { assert tail[k] == s[i + 1 + k]; }
    }
    assert s[i + 2..|s| - 1][j - i - 2] == '.';
  }

  /** The recogniser accepts exactly the email pattern's language. */
  lemma EmailRecogniserCorrect(s: string)
    ensures IsEmail(s) <==> InEmailLanguage(s)
  {
    if IsEmail(s) { EmailRecogniserSound(s); }
    if InEmailLanguage(s) { EmailRecogniserComplete(s); }
  }

  const EMAIL_REQUIRED: string := "Email is required"
  const EMAIL_INVALID: string := "Please enter a valid email address"

  /** The email field's rules: required, then the pattern. */
  function ValidateEmail(s: string): (c: Check)
    ensures c.Valid? <==> InEmailLanguage(s)
    ensures c == Invalid(EMAIL_REQUIRED) <==> s == ""
    ensures c == Invalid(EMAIL_INVALID) <==> s != "" && !InEmailLanguage(s)
  {
    EmailRecogniserCorrect(s);
    if s == "" then Invalid(EMAIL_REQUIRED)
    else if !IsEmail(s) then Invalid(EMAIL_INVALID)
    else Valid
  }

  /** An address may have points in both the local part and the domain. */
  lemma EmailWithPointsExample()
    ensures IsEmail("a.b@c.d.e")
  {
    var e := "a.b@c.d.e";
    assert IndexOf(e, '@') == 3;
    assert e[5..8][0] == '.';
  }

  /** A second `@` is refused. */
  lemma EmailTwoAtsExample()
    ensures !IsEmail("a@b@c.d")
  {
    var e := "a@b@c.d";
    assert IndexOf(e, '@') == 1;
    assert e[2..][1] == '@';
  }

  /** A point that opens or closes the domain does not count. */
  lemma EmailPointAtDomainEndsExample()
    ensures !IsEmail("a@.bc")
    ensures !IsEmail("a@bc.")
  {
    assert IndexOf("a@.bc", '@') == 1;
    assert "a@.bc"[3..4] == "b";
    assert IndexOf("a@bc.", '@') == 1;
    assert "a@bc."[3..4] == "c";
  }

  // ---------------------------------------------------------------- password

  /** `[a-zA-Z\d@$!%*?&]` */
  predicate PasswordChar(c: char) {
    IsLower(c) || IsUpper(c) || IsDigit(c) || c in "@$!%*?&"
  }

  /** `(?=.*X)` at the start: some character in class X, with no line terminator before it. */
  ghost predicate LookaheadFinds(s: string, x: char -> bool) {
    exists k :: 0 <= k < |s| && x(s[k]) && forall j :: 0 <= j < k ==> !IsLineTerminator(s[j])
  }

  /** The password pattern: the three look-aheads, then eight or more allowed characters to the end. */
  ghost predicate InPasswordLanguage(s: string) {
    LookaheadFinds(s, IsLower) && LookaheadFinds(s, IsUpper) && LookaheadFinds(s, IsDigit)
    && |s| >= 8 && forall k :: 0 <= k < |s| ==> PasswordChar(s[k])
  }

  /** What one pass over a candidate password finds. */
  datatype Classes = Classes(allAllowed: bool, lower: bool, upper: bool, digit: bool)

  /** The recogniser's scan: one pass that records which character classes occur. */
  function Scan(s: string): (c: Classes)
    ensures c.allAllowed <==> forall k :: 0 <= k < |s| ==> PasswordChar(s[k])
    ensures c.lower <==> exists k :: 0 <= k < |s| && IsLower(s[k])
    ensures c.upper <==> exists k :: 0 <= k < |s| && IsUpper(s[k])
    ensures c.digit <==> exists k :: 0 <= k < |s| && IsDigit(s[k])
  {
    if s == [] then Classes(true, false, false, false)
    else
      var rest := Scan(s[1..]);
      assert forall k :: 0 < k < |s| ==> s[k] == s[1..][k - 1];
      var h := s[0];
      Classes(rest.allAllowed && PasswordChar(h), rest.lower || IsLower(h),
              rest.upper || IsUpper(h), rest.digit || IsDigit(h))
  }

  /** The recogniser: long enough, only allowed characters, and a lower-case letter, a capital and a digit. */
  predicate IsStrongPassword(s: string) {
    var c := Scan(s);
    |s| >= 8 && c.allAllowed && c.lower && c.upper && c.digit
  }

  /** With only allowed characters there is no line terminator, so each look-ahead is plain membership. */
  lemma {:induction false} LookaheadIsMembership(s: string, x: char -> bool)
    requires forall k :: 0 <= k < |s| ==> PasswordChar(s[k])
    ensures LookaheadFinds(s, x) <==> exists k :: 0 <= k < |s| && x(s[k])
  {
    if k :| 0 <= k < |s| && x(s[k]) {
      assert forall j :: 0 <= j < k ==> !IsLineTerminator(s[j]) by {
        forall j | 0 <= j < k ensures !IsLineTerminator(s[j]) { assert PasswordChar(s[j]); }
      }
    }
  }

  /** The recogniser accepts exactly the password pattern's language. */
  lemma {:induction false} PasswordRecogniserCorrect(s: string)
    ensures IsStrongPassword(s) <==> InPasswordLanguage(s)
  {
    var c := Scan(s);
    if c.allAllowed {
      LookaheadIsMembership(s, IsLower);
      LookaheadIsMembership(s, IsUpper);
      LookaheadIsMembership(s, IsDigit);
    }
  }

  const NEW_PASSWORD_REQUIRED: string := "New password is required"
  const NEW_PASSWORD_SHORT: string := "Password must be at least 8 characters"
  const NEW_PASSWORD_WEAK: string := "Password must contain at least one uppercase letter, one lowercase letter, and one number"

  /** The new-password rules: required, at least 8 characters, then the pattern. */
  function ValidateNewPassword(s: string): (c: Check)
    ensures c.Valid? <==> InPasswordLanguage(s)
    ensures c == Invalid(NEW_PASSWORD_REQUIRED) <==> s == ""
    ensures c == Invalid(NEW_PASSWORD_SHORT) <==> s != "" && |s| < 8
    ensures c == Invalid(NEW_PASSWORD_WEAK) <==> |s| >= 8 && !InPasswordLanguage(s)
  {
    PasswordRecogniserCorrect(s);
    match RequiredMinLength(s, 8, NEW_PASSWORD_REQUIRED, NEW_PASSWORD_SHORT)
    case Invalid(m) => Invalid(m)
    case Valid => if IsStrongPassword(s) then Valid else Invalid(NEW_PASSWORD_WEAK)
  }

  /** A password with a capital, lower-case letters and digits is accepted. */
  lemma StrongPasswordExample()
    ensures ValidateNewPassword("Secret123").Valid?
  {
    var p := "Secret123";
    assert IsUpper(p[0]) && IsLower(p[1]) && IsDigit(p[6]);
    assert forall j :: 0 <= j < 1 ==> !IsLineTerminator(p[j]);
    assert forall j :: 0 <= j < 6 ==> !IsLineTerminator(p[j]);
    assert forall k :: 0 <= k < |p| ==> PasswordChar(p[k]);
  }

  /**
   * A password holding every required class is still refused for one
   * character outside the allowed set, with the message about the classes.
   */
  lemma DisallowedCharacterExample()
    ensures ValidateNewPassword("Secret12#") == Invalid(NEW_PASSWORD_WEAK)
  {
    var p := "Secret12#";
    assert !PasswordChar(p[8]);
  }

  /** Eight characters without a capital are refused; fewer than eight are refused as too short. */
  lemma WeakPasswordExamples()
    ensures ValidateNewPassword("secret123") == Invalid(NEW_PASSWORD_WEAK)
    ensures ValidateNewPassword("Sec12") == Invalid(NEW_PASSWORD_SHORT)
  {
    var p := "secret123";
    assert forall k :: 0 <= k < |p| ==> !IsUpper(p[k]);
  }
}
