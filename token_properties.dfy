/**
 * What the single-use tokens promise: email verification, its resend, the
 * forgotten-password request, the reset it enables, and the change of a
 * known password.
 */
module TokenProperties {
  import opened Wrappers
  import opened UserModel
  import opened Validation
  import opened Persistence
  import opened AuthControllers

  // ---------------------------------------------------------------------
  // Email verification

  /**
   * A verification succeeds exactly for a stored, unexpired token whose
   * account still exists and can open a session; it marks that account
   * verified, consumes the token, and logs the user in.
   */
  lemma VerifyEmailSucceeds(c: Crypto, s: State, token: string, now: nat)
    requires VerifyEmail(c, s, token, now).reply.Json? && VerifyEmail(c, s, token, now).reply.success
    ensures token in s.verificationTokens && now < s.verificationTokens[token].expiresAt
    ensures var id := s.verificationTokens[token].userId;
      var o := VerifyEmail(c, s, token, now);
      && id in s.users && id in o.state.users
      && o.state.users == s.users[id := s.users[id].(isEmailVerified := true)]
      && o.state.verificationTokens == s.verificationTokens - {token}
      && o.state.resetTokens == s.resetTokens
      && SessionsOf(o.state.refreshTokens, id) - SessionsOf(s.refreshTokens, id) == {c.sign(RefreshTokenRequest(id), now)}
      && o.reply.message == Some(EMAIL_VERIFIED)
  {
    var id := s.verificationTokens[token].userId;
    var o := VerifyEmail(c, s, token, now);
    var refresh := c.sign(RefreshTokenRequest(id), now);
    assert refresh !in s.refreshTokens && o.state.refreshTokens == s.refreshTokens[refresh := RefreshRecord(id, now + REFRESH_RECORD_TTL_MS)];
    assert SessionsOf(o.state.refreshTokens, id) == SessionsOf(s.refreshTokens, id) + {refresh};
  }

  /** The link works once: a second visit with the same token is refused. */
  lemma VerificationTokenIsSingleUse(c: Crypto, s: State, token: string, now: nat, later: nat)
    requires VerifyEmail(c, s, token, now).reply.Json? && VerifyEmail(c, s, token, now).reply.success
    ensures var s' := VerifyEmail(c, s, token, now).state;
      VerifyEmail(c, s', token, later) == Outcome(s', Fail(400, INVALID_VERIFICATION))
  {
    VerifyEmailSucceeds(c, s, token, now);
  }

  /** A token whose expiry has been reached is refused and writes nothing. */
  lemma ExpiredVerificationTokenRejected(c: Crypto, s: State, token: string, now: nat)
    requires token in s.verificationTokens && s.verificationTokens[token].expiresAt <= now
    ensures VerifyEmail(c, s, token, now) == Outcome(s, Fail(400, INVALID_VERIFICATION))
  {
  }

  /** A token is good for five minutes from the moment it is stored. */
  lemma VerificationTokenLivesFiveMinutes(s: State, token: string, user: ObjectId, issuedAt: nat, now: nat)
    requires token !in s.verificationTokens
    ensures var m := Supersede(s.verificationTokens, user, token, issuedAt + VERIFICATION_TTL_MS);
      LiveToken(m, token, now).Some? <==> now < issuedAt + 300000
  {
  }

  /**
   * A resend supersedes: afterwards the account holds exactly the new token,
   * every link sent before no longer verifies, and other accounts' tokens
   * are untouched. It is refused for a verified account.
   */
  lemma ResendSupersedes(c: Crypto, s: State, claimsId: string, now: nat, token: string, mailSent: bool, earlier: string, later: nat)
    requires ParseObjectId(claimsId).Some? && ParseObjectId(claimsId).value in s.users
    requires !s.users[ParseObjectId(claimsId).value].isEmailVerified
    requires token !in s.verificationTokens
    requires earlier in s.verificationTokens && s.verificationTokens[earlier].userId == ParseObjectId(claimsId).value
    ensures var id := ParseObjectId(claimsId).value;
      var s' := ResendVerification(s, claimsId, now, token, mailSent).state;
      && TokensOf(s'.verificationTokens, id) == {token}
      && s'.verificationTokens[token] == TokenRecord(id, now + VERIFICATION_TTL_MS)
      && (forall t :: t in s.verificationTokens && s.verificationTokens[t].userId != id ==>
            t in s'.verificationTokens && s'.verificationTokens[t] == s.verificationTokens[t])
      && VerifyEmail(c, s', earlier, later) == Outcome(s', Fail(400, INVALID_VERIFICATION))
      && s'.users == s.users && s'.refreshTokens == s.refreshTokens && s'.resetTokens == s.resetTokens
  {
    var id := ParseObjectId(claimsId).value;
    SupersedeLeavesOne(s.verificationTokens, id, token, now + VERIFICATION_TTL_MS);
  }

  /** A verified account is told so, and nothing is written. */
  lemma ResendRefusedWhenVerified(s: State, claimsId: string, now: nat, token: string, mailSent: bool)
    requires ParseObjectId(claimsId).Some? && ParseObjectId(claimsId).value in s.users
    requires s.users[ParseObjectId(claimsId).value].isEmailVerified
    ensures ResendVerification(s, claimsId, now, token, mailSent) == Outcome(s, Fail(400, ALREADY_VERIFIED))
  {
  }

  // ---------------------------------------------------------------------
  // Forgotten password

  /**
   * The answer to a forgotten-password request does not tell whether the
   * email has an account: whenever the email is sent, the reply is the same
   * 200 either way, and an unknown email writes nothing.
   */
  lemma ForgotPasswordDoesNotRevealAccounts(s: State, email: string, now: nat, token: string)
    ensures ForgotPassword(s, email, now, token, true).reply == Json(200, true, Some(RESET_REQUESTED), NoData)
    ensures FindByEmail(s, email).None? ==> ForgotPassword(s, email, now, token, true).state == s
  {
  }

  /**
   * For a known account the request leaves that account exactly one reset
   * token, good for fifteen minutes, and changes nothing but the reset tokens.
   */
  lemma ForgotPasswordIssuesOneToken(s: State, email: string, now: nat, token: string, mailSent: bool, id: ObjectId)
    requires Valid(s) && id in s.users && s.users[id].email == NormalizeEmail(email)
    requires token !in s.resetTokens
    ensures var s' := ForgotPassword(s, email, now, token, mailSent).state;
      && TokensOf(s'.resetTokens, id) == {token}
      && s'.resetTokens[token] == TokenRecord(id, now + RESET_TTL_MS)
      && s'.users == s.users && s'.verificationTokens == s.verificationTokens && s'.refreshTokens == s.refreshTokens
  {
    FindByEmailIsUnique(s, email, id);
    SupersedeLeavesOne(s.resetTokens, id, token, now + RESET_TTL_MS);
  }

  // ---------------------------------------------------------------------
  // Reset and change

  /**
   * A successful reset stores the new password for the token's account,
   * consumes the token, and leaves every session of the account alive.
   */
  lemma ResetPasswordTakesEffect(c: Crypto, s: State, token: string, newPassword: string, now: nat)
    requires ResetPassword(c, s, token, newPassword, now).reply.Json? && ResetPassword(c, s, token, newPassword, now).reply.success
    ensures LiveToken(s.resetTokens, token, now).Some? && IsPasswordValid(newPassword).isValid
    ensures var id := s.resetTokens[token].userId;
      var s' := ResetPassword(c, s, token, newPassword, now).state;
      && id in s.users
      && s'.users == s.users[id := s.users[id].(password := Some(PasswordOnSave(c, s.users[id].registrationType, newPassword)))]
      && s'.resetTokens == s.resetTokens - {token}
      && s'.refreshTokens == s.refreshTokens && s'.verificationTokens == s.verificationTokens
  {
  }

  /** The reset link works once. */
  lemma ResetTokenIsSingleUse(c: Crypto, s: State, token: string, newPassword: string, now: nat, again: string, later: nat)
    requires ResetPassword(c, s, token, newPassword, now).reply.Json? && ResetPassword(c, s, token, newPassword, now).reply.success
    ensures var s' := ResetPassword(c, s, token, newPassword, now).state;
      ResetPassword(c, s', token, again, later) == Outcome(s', Fail(400, INVALID_RESET))
  {
    ResetPasswordTakesEffect(c, s, token, newPassword, now);
  }

  /**
   * The save hook hashes only for EMAIL accounts, so a reset on an account
   * made by a social provider stores the new password as plain text; a login
   * then matches exactly the candidates whose hash is that text, so the new
   * password itself logs in only if it is its own hash.
   */
  lemma ResetOnSocialAccountStoresPlaintext(c: Crypto, s: State, token: string, newPassword: string, now: nat, candidate: string)
    requires ResetPassword(c, s, token, newPassword, now).reply.Json? && ResetPassword(c, s, token, newPassword, now).reply.success
    requires s.resetTokens[token].userId in s.users && s.users[s.resetTokens[token].userId].registrationType != EMAIL
    ensures var id := s.resetTokens[token].userId;
      var s' := ResetPassword(c, s, token, newPassword, now).state;
      && s'.users[id].password == Some(Plain(newPassword))
      && (ComparePassword(c, candidate, s'.users[id].password) == Match <==> c.hash(candidate) == newPassword)
      && (ComparePassword(c, newPassword, s'.users[id].password) == Match <==> c.hash(newPassword) == newPassword)
  {
    ResetPasswordTakesEffect(c, s, token, newPassword, now);
    UnhashedPasswordMatchesOnlyPreimages(c, s.users[s.resetTokens[token].userId].registrationType, newPassword, candidate);
  }

  /**
   * A change of password succeeds only with the right current password and a
   * new one that passes the rules; afterwards the new one matches on an
   * EMAIL account, and only the password field changed.
   */
  lemma ChangePasswordTakesEffect(c: Crypto, s: State, claimsId: string, current: string, newPassword: string)
    requires ChangePassword(c, s, claimsId, current, newPassword).reply.Json?
    requires ChangePassword(c, s, claimsId, current, newPassword).reply.success
    ensures ParseObjectId(claimsId).Some? && ParseObjectId(claimsId).value in s.users
    ensures var id := ParseObjectId(claimsId).value;
      var s' := ChangePassword(c, s, claimsId, current, newPassword).state;
      && ComparePassword(c, current, s.users[id].password) == Match
      && IsPasswordValid(newPassword).isValid
      && s' == s.(users := s.users[id := s.users[id].(password := Some(PasswordOnSave(c, s.users[id].registrationType, newPassword)))])
      && (s.users[id].registrationType == EMAIL ==> ComparePassword(c, newPassword, s'.users[id].password) == Match)
  {
    var id := ParseObjectId(claimsId).value;
    if s.users[id].registrationType == EMAIL {
      SavedPasswordMatches(c, newPassword);
    }
  }

  /** A wrong current password is a 401 that writes nothing; a missing one is a 500. */
  lemma ChangePasswordRequiresCurrent(c: Crypto, s: State, claimsId: string, current: string, newPassword: string)
    requires ParseObjectId(claimsId).Some? && ParseObjectId(claimsId).value in s.users
    requires ComparePassword(c, current, s.users[ParseObjectId(claimsId).value].password) != Match
    ensures var o := ChangePassword(c, s, claimsId, current, newPassword);
      && o.state == s
      && (o.reply == Fail(401, WRONG_CURRENT_PASSWORD) <==> s.users[ParseObjectId(claimsId).value].password.Some?)
      && (o.reply == Fail(500, CHANGE_ERROR) <==> s.users[ParseObjectId(claimsId).value].password.None?)
  {
  }
}
