/**
 * The refusals of the email-and-password controllers: which answer each
 * error case gets, and that none of them writes anything.
 */
module ErrorPaths {
  import opened Wrappers
  import opened UserModel
  import opened Validation
  import opened Persistence
  import opened AuthControllers

  /**
   * A refresh is refused with 401 when the record is missing or has expired,
   * with 500 when jsonwebtoken rejects the token (expired or not), and with
   * 401 `User not found` when the token names no stored account.
   */
  lemma RefreshRefusals(c: Crypto, s: State, token: string, now: nat)
    ensures token !in s.refreshTokens || s.refreshTokens[token].expiresAt < now ==>
      RefreshAccess(c, s, token, now) == Fail(401, INVALID_REFRESH)
    ensures token in s.refreshTokens && now <= s.refreshTokens[token].expiresAt && !c.verify(token, RefreshKey, now).Decoded? ==>
      RefreshAccess(c, s, token, now) == Fail(500, REFRESH_ERROR)
    ensures token in s.refreshTokens && now <= s.refreshTokens[token].expiresAt && c.verify(token, RefreshKey, now).Decoded? ==>
      var id := ParseObjectId(c.verify(token, RefreshKey, now).claims.id);
      && (id.None? ==> RefreshAccess(c, s, token, now) == Fail(500, REFRESH_ERROR))
      && (id.Some? && id.value !in s.users ==> RefreshAccess(c, s, token, now) == Fail(401, USER_NOT_FOUND))
  {
  }

  /**
   * An access token naming an account that no longer exists gets 404 from
   * every controller that looks the account up by id, and nothing is written.
   */
  lemma UnknownAccountIsNotFound(c: Crypto, s: State, claimsId: string, now: nat, token: string, mailSent: bool,
                                 current: string, newPassword: string, name: Option<string>, picture: Option<string>)
    requires ParseObjectId(claimsId).Some? && ParseObjectId(claimsId).value !in s.users
    ensures ResendVerification(s, claimsId, now, token, mailSent) == Outcome(s, Fail(404, USER_NOT_FOUND))
    ensures ChangePassword(c, s, claimsId, current, newPassword) == Outcome(s, Fail(404, USER_NOT_FOUND))
    ensures DeleteAccount(c, s, claimsId, current) == Outcome(s, Fail(404, USER_NOT_FOUND))
    ensures UpdateProfile(s, claimsId, name, picture) == Outcome(s, Fail(404, USER_NOT_FOUND))
    ensures GetUserDetails(s, claimsId) == Fail(404, USER_NOT_FOUND)
  {
  }

  /** A live verification token whose account is gone is refused with 400 and stays stored. */
  lemma OrphanVerificationTokenKept(c: Crypto, s: State, token: string, now: nat)
    requires LiveToken(s.verificationTokens, token, now).Some?
    requires s.verificationTokens[token].userId !in s.users
    ensures VerifyEmail(c, s, token, now) == Outcome(s, Fail(400, USER_NOT_FOUND))
    ensures token in VerifyEmail(c, s, token, now).state.verificationTokens
  {
  }

  /**
   * A reset checks the token first, then the new password, then the account;
   * each refusal leaves the store, and so the token, as it was.
   */
  lemma ResetRefusals(c: Crypto, s: State, token: string, newPassword: string, now: nat)
    ensures LiveToken(s.resetTokens, token, now).None? ==>
      ResetPassword(c, s, token, newPassword, now) == Outcome(s, Fail(400, INVALID_RESET))
    ensures LiveToken(s.resetTokens, token, now).Some? && !IsPasswordValid(newPassword).isValid ==>
      ResetPassword(c, s, token, newPassword, now) == Outcome(s, Fail(400, IsPasswordValid(newPassword).message))
    ensures LiveToken(s.resetTokens, token, now).Some? && IsPasswordValid(newPassword).isValid
            && s.resetTokens[token].userId !in s.users ==>
      ResetPassword(c, s, token, newPassword, now) == Outcome(s, Fail(404, USER_NOT_FOUND))
  {
  }

  /**
   * With the right current password, a new password that breaks a rule is
   * refused with that rule's message, and the stored password stays.
   */
  lemma WeakNewPasswordRefused(c: Crypto, s: State, claimsId: string, current: string, newPassword: string)
    requires ParseObjectId(claimsId).Some? && ParseObjectId(claimsId).value in s.users
    requires ComparePassword(c, current, s.users[ParseObjectId(claimsId).value].password) == Match
    requires !IsPasswordValid(newPassword).isValid
    ensures ChangePassword(c, s, claimsId, current, newPassword) == Outcome(s, Fail(400, IsPasswordValid(newPassword).message))
  {
  }
}
