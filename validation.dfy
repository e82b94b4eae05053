/**
 * The two input checks of src/controllers/auth/register.controller.ts:
 * `isPasswordValid` (also used by change-password and reset-password) and
 * the email pattern `^[^\s@]+@[^\s@]+\.[^\s@]+$`.
 */
module Validation {
  import opened Text

  const MIN_PASSWORD_LENGTH: nat := 8

  const TOO_SHORT := "Password must be at least 8 characters long"
  const NO_UPPERCASE := "Password must contain at least one uppercase letter"
  const NO_LOWERCASE := "Password must contain at least one lowercase letter"
  const NO_DIGIT := "Password must contain at least one number"
  const NO_SPECIAL := "Password must contain at least one special character"
  const PASSWORD_OK := "Password is valid"

  /** The characters of the class `[!@#$%^&*(),.?":{}|<>]`. */
  const SPECIALS := "!@#$%^&*(),.?\":{}|<>"

  predicate HasUpper(p: string) { exists i :: 0 <= i < |p| && 'A' <= p[i] <= 'Z' }
  predicate HasLower(p: string) { exists i :: 0 <= i < |p| && 'a' <= p[i] <= 'z' }
  predicate HasDigit(p: string) { exists i :: 0 <= i < |p| && '0' <= p[i] <= '9' }
  predicate HasSpecial(p: string) { exists i :: 0 <= i < |p| && p[i] in SPECIALS }

  /** The five rules, in the order they are checked. */
  datatype Rule = Length | Uppercase | Lowercase | Digit | Special

  const RULES: seq<Rule> := [Length, Uppercase, Lowercase, Digit, Special]

  predicate Holds(r: Rule, p: string) {
    match r
    case Length => |p| >= MIN_PASSWORD_LENGTH
    case Uppercase => HasUpper(p)
    case Lowercase => HasLower(p)
    case Digit => HasDigit(p)
    case Special => HasSpecial(p)
  }

  function RuleMessage(r: Rule): string {
    match r
    case Length => TOO_SHORT
    case Uppercase => NO_UPPERCASE
    case Lowercase => NO_LOWERCASE
    case Digit => NO_DIGIT
    case Special => NO_SPECIAL
  }

  datatype PasswordValidation = PasswordValidation(isValid: bool, message: string)

  /**
   * `isPasswordValid`: the password is accepted exactly when all five rules
   * hold, and a rejection reports the first rule, in the fixed order, that fails.
   */
  function IsPasswordValid(p: string): (v: PasswordValidation)
    ensures v.isValid <==> forall k :: 0 <= k < |RULES| ==> Holds(RULES[k], p)
    ensures v.isValid ==> v.message == PASSWORD_OK
    ensures forall k :: 0 <= k < |RULES| && !Holds(RULES[k], p) && (forall j :: 0 <= j < k ==> Holds(RULES[j], p))
                 ==> !v.isValid && v.message == RuleMessage(RULES[k])
  {
    assert RULES[0] == Length && RULES[1] == Uppercase && RULES[2] == Lowercase;
    assert RULES[3] == Digit && RULES[4] == Special;
    if |p| < MIN_PASSWORD_LENGTH then
      assert !Holds(RULES[0], p);
      PasswordValidation(false, TOO_SHORT)
    else if !HasUpper(p) then
      assert !Holds(RULES[1], p);
      PasswordValidation(false, NO_UPPERCASE)
    else if !HasLower(p) then
      assert !Holds(RULES[2], p);
      PasswordValidation(false, NO_LOWERCASE)
    else if !HasDigit(p) then
      assert !Holds(RULES[3], p);
      PasswordValidation(false, NO_DIGIT)
    else if !HasSpecial(p) then
      assert !Holds(RULES[4], p);
      PasswordValidation(false, NO_SPECIAL)
    else
      PasswordValidation(true, PASSWORD_OK)
  }

  /** Every password shorter than eight characters gets the length message, whatever else it holds. */
  lemma ShortPasswordRejected(p: string)
    requires |p| < MIN_PASSWORD_LENGTH
    ensures IsPasswordValid(p) == PasswordValidation(false, TOO_SHORT)
  {
  }

  /** An accepted password is never empty, so the schema's `required` check cannot refuse it. */
  lemma AcceptedPasswordIsLongEnough(p: string)
    requires IsPasswordValid(p).isValid
    ensures |p| >= MIN_PASSWORD_LENGTH && p != ""
  {
    assert Holds(RULES[0], p);
  }

  /** The messages of the rules are pairwise distinct, so the message names the rule. */
  lemma MessageNamesRule(p: string, k: nat)
    requires k < |RULES| && !Holds(RULES[k], p)
    requires forall j :: 0 <= j < k ==> Holds(RULES[j], p)
    ensures IsPasswordValid(p).message == RuleMessage(RULES[k])
  {
  }

  // ---------------------------------------------------------------------
  // The email pattern

  predicate PlainChar(c: char) { !IsSpace(c) && c != '@' }

  /** Every character of `e[lo..hi]` is neither white space nor `@` (the class `[^\s@]`). */
  predicate PlainBetween(e: string, lo: nat, hi: nat)
    requires lo <= hi <= |e|
  {
    forall i :: lo <= i < hi ==> PlainChar(e[i])
  }

  /**
   * The pattern `^[^\s@]+@[^\s@]+\.[^\s@]+$`, read directly: the email is
   * `local + "@" + host + "." + top`, the three parts non-empty and free of
   * white space and `@`.
   */
  predicate MatchesEmailPattern(e: string) {
    exists at, dot :: 0 < at && at + 1 < dot && dot + 1 < |e|
      && e[at] == '@' && e[dot] == '.'
      && PlainBetween(e, 0, at) && PlainBetween(e, at + 1, dot) && PlainBetween(e, dot + 1, |e|)
  }

  /**
   * The same check computed by scanning: the first `@` is not the first
   * character and no other follows it, there is no white space, and the
   * domain holds a `.` that is neither its first nor its last character.
   */
  function IsEmailFormat(e: string): (ok: bool)
    ensures ok ==> '@' in e
  {
    var at := IndexOf(e, '@');
    0 < at < |e| && NoSpaceScan(e) && (forall i :: at < i < |e| ==> e[i] != '@')
    && exists dot :: at + 1 < dot < |e| - 1 && e[dot] == '.'
  }

  lemma FormatImpliesPattern(e: string)
    requires IsEmailFormat(e)
    ensures MatchesEmailPattern(e)
  {
    var at := IndexOf(e, '@');
    NoSpaceScanIsNoSpace(e);
    var dot :| at + 1 < dot < |e| - 1 && e[dot] == '.';
    assert PlainBetween(e, 0, at) && PlainBetween(e, at + 1, dot) && PlainBetween(e, dot + 1, |e|);
  }

  lemma PatternImpliesFormat(e: string)
    requires MatchesEmailPattern(e)
    ensures IsEmailFormat(e)
  {
    var a, dot :| 0 < a && a + 1 < dot && dot + 1 < |e|
      && e[a] == '@' && e[dot] == '.'
      && PlainBetween(e, 0, a) && PlainBetween(e, a + 1, dot) && PlainBetween(e, dot + 1, |e|);
    assert IndexOf(e, '@') == a;
    assert NoSpace(e) by {
      forall i | 0 <= i < |e| ensures !IsSpace(e[i]) {
        if i != a && i != dot { assert PlainChar(e[i]); }
      }
    }
    NoSpaceScanIsNoSpace(e);
  }

  /** The scanning check and the pattern accept the same strings. */
  lemma EmailFormatIsPattern(e: string)
    ensures IsEmailFormat(e) <==> MatchesEmailPattern(e)
  {
    if IsEmailFormat(e) { FormatImpliesPattern(e); }
    if MatchesEmailPattern(e) { PatternImpliesFormat(e); }
  }

  /** An email of the right format has exactly one `@`, and it is not the first character. */
  lemma EmailFormatHasOneAt(e: string)
    requires IsEmailFormat(e)
    ensures var at := IndexOf(e, '@');
      (0 < at < |e| && e[at] == '@' && forall i :: 0 <= i < |e| && i != at ==> e[i] != '@')
  {
  }
}
