/**
 * What the three OAuth callbacks promise about the accounts they create and
 * the accounts they sign in.
 */
module SocialProperties {
  import opened Wrappers
  import opened Text
  import opened UserModel
  import opened Persistence
  import opened AuthControllers
  import opened SocialAuth

  /** A successful callback ends in the redirect carrying both tokens and the stored `userId`. */
  lemma FinishSocialLoginRedirects(c: Crypto, s: State, id: ObjectId, now: nat)
    requires id in s.users
    ensures var o := FinishSocialLogin(c, s, id, now);
      && o.state.users == s.users
      && (o.reply.Redirect? && o.reply.target.CallbackWithTokens? <==> OpenSession(c, s, id, now).Some?)
      && (o.reply.Redirect? && o.reply.target.CallbackWithTokens? ==>
            o.reply.target == CallbackWithTokens(c.sign(AccessTokenRequest(id, s.users[id]), now),
                                                 c.sign(RefreshTokenRequest(id), now), s.users[id].userId)
            && o.state.refreshTokens == s.refreshTokens[c.sign(RefreshTokenRequest(id), now) := RefreshRecord(id, now + REFRESH_RECORD_TTL_MS)])
      && (o.reply == Redirect(ErrorPage) ==> o.state == s)
  {
  }

  /** Without an authorization code the provider is never consulted and nothing is written. */
  lemma MissingCodeIsRejected(c: Crypto, s: State, code: Option<string>, now: nat, freshId: ObjectId,
                              g: GoogleExchange, f: FacebookExchange, m: MicrosoftExchange, photo: Option<string>)
    requires !HasCode(code)
    ensures GoogleCallback(c, s, code, g, now, freshId) == Outcome(s, Fail(400, CODE_MISSING))
    ensures FacebookCallback(c, s, code, f, now, freshId) == Outcome(s, Fail(400, CODE_MISSING))
    ensures MicrosoftCallback(c, s, code, m, photo, now, freshId) == Outcome(s, Fail(400, CODE_MISSING))
  {
  }

  /** A failed exchange with any provider sends the browser to the error page and writes nothing. */
  lemma FailedExchangeRedirectsToError(c: Crypto, s: State, code: Option<string>, now: nat, freshId: ObjectId, photo: Option<string>)
    requires HasCode(code)
    ensures GoogleCallback(c, s, code, GoogleFailed, now, freshId) == Outcome(s, Redirect(ErrorPage))
    ensures FacebookCallback(c, s, code, FacebookFailed, now, freshId) == Outcome(s, Redirect(ErrorPage))
    ensures MicrosoftCallback(c, s, code, MicrosoftFailed, photo, now, freshId) == Outcome(s, Redirect(ErrorPage))
  {
  }

  /** A Google ticket without a payload is refused with 400 `Invalid token` before any lookup. */
  lemma EmptyGooglePayloadRejected(c: Crypto, s: State, code: Option<string>, now: nat, freshId: ObjectId)
    requires HasCode(code)
    ensures GoogleCallback(c, s, code, GoogleTicket(None), now, freshId) == Outcome(s, Fail(400, INVALID_ID_TOKEN))
  {
  }

  /**
   * A Google sign-in for an unknown email creates a verified GOOGLE account
   * with no password. The `sub` it passes as `userId` is replaced by the
   * insertion hook with the account's own id.
   */
  lemma GoogleCreatesVerifiedAccount(c: Crypto, s: State, code: Option<string>, p: GoogleProfile, now: nat, freshId: ObjectId)
    requires HasCode(code) && FindByEmail(s, p.email).None? && freshId !in s.users
    ensures var o := GoogleCallback(c, s, code, GoogleTicket(Some(p)), now, freshId);
      o.reply.Redirect? && o.reply.target.CallbackWithTokens? ==> freshId in o.state.users && o.reply.target.userId == Some(ObjectIdString(freshId))
    ensures var s' := GoogleCallback(c, s, code, GoogleTicket(Some(p)), now, freshId).state;
      && (freshId !in s'.users ==> s'.users == s.users)
      && (freshId in s'.users ==>
            && s'.users == s.users[freshId := s'.users[freshId]]
            && var u := s'.users[freshId];
            && u.email == NormalizeEmail(p.email) && u.name == Trim(p.name)
            && u.registrationType == GOOGLE && u.role == USER && u.isEmailVerified
            && u.password.None? && u.userId == Some(ObjectIdString(freshId)) && u.lastLogin == Some(now)
            && u.profilePicture == (if p.picture.Some? then p.picture.value else DefaultProfilePicture(Trim(p.name))))
  {
    var draft := Draft(Some(p.sub), p.email, None, p.name, p.picture, Some(USER), Some(GOOGLE), Some(true), Some(now));
    match CreateUser(c, s, freshId, draft, now)
    case None =>
    case Some(s1) =>
      FinishSocialLoginRedirects(c, s1, freshId, now);
  }

  /**
   * Google signs in an account that already has a `userId` without writing
   * to it; one without gets the `sub` and a `lastLogin`.
   */
  lemma GoogleSignsInExistingAccount(c: Crypto, s: State, code: Option<string>, p: GoogleProfile, now: nat, freshId: ObjectId, id: ObjectId)
    requires Valid(s) && HasCode(code) && id in s.users && s.users[id].email == NormalizeEmail(p.email)
    ensures var o := GoogleCallback(c, s, code, GoogleTicket(Some(p)), now, freshId);
      var linked := s.users[id].(userId := Some(p.sub), lastLogin := Some(now));
      && (IsLinked(s.users[id]) ==> o.state.users == s.users)
      && (!IsLinked(s.users[id]) ==> o.state.users == s.users || o.state.users == s.users[id := linked])
      && (!IsLinked(s.users[id]) && o.reply.Redirect? && o.reply.target.CallbackWithTokens? ==> o.state.users == s.users[id := linked])
  {
    FindByEmailIsUnique(s, p.email, id);
    if IsLinked(s.users[id]) {
      FinishSocialLoginRedirects(c, s, id, now);
    } else {
      var u' := s.users[id].(userId := Some(p.sub), lastLogin := Some(now));
      match SaveUser(s, id, u')
      case None =>
      case Some(s1) =>
        FinishSocialLoginRedirects(c, s1, id, now);
    }
  }

  /** Facebook creates a verified FACEBOOK account; a missing or empty picture URL gives the default avatar. */
  lemma FacebookCreatesVerifiedAccount(c: Crypto, s: State, code: Option<string>, p: FacebookProfile, now: nat, freshId: ObjectId)
    requires HasCode(code) && FindByEmail(s, p.email).None? && freshId !in s.users
    ensures var o := FacebookCallback(c, s, code, FacebookProfileFetched(p), now, freshId);
      o.reply.Redirect? && o.reply.target.CallbackWithTokens? ==> freshId in o.state.users && o.reply.target.userId == Some(ObjectIdString(freshId))
    ensures var s' := FacebookCallback(c, s, code, FacebookProfileFetched(p), now, freshId).state;
      && (freshId !in s'.users ==> s'.users == s.users)
      && (freshId in s'.users ==>
            && s'.users == s.users[freshId := s'.users[freshId]]
            && var u := s'.users[freshId];
            && u.email == NormalizeEmail(p.email) && u.registrationType == FACEBOOK && u.isEmailVerified
            && u.password.None? && u.userId == Some(ObjectIdString(freshId))
            && u.profilePicture == (if Truthy(p.pictureUrl) then p.pictureUrl.value else DefaultProfilePicture(Trim(p.name))))
  {
    var picture := if Truthy(p.pictureUrl) then p.pictureUrl else None;
    var draft := Draft(Some(p.id), p.email, None, p.name, picture, Some(USER), Some(FACEBOOK), Some(true), Some(now));
    match CreateUser(c, s, freshId, draft, now)
    case None =>
    case Some(s1) =>
      FinishSocialLoginRedirects(c, s1, freshId, now);
  }

  /**
   * Facebook and Microsoft sign an existing account in by stamping
   * `lastLogin`, recording the provider's id only where no `userId` is
   * stored; nothing else about the account changes.
   */
  lemma SocialSignInChangesOnlyLoginAndLink(u: User, providerId: string, now: nat)
    ensures var u' := SocialSignIn(u, providerId, now);
      && u' == u.(lastLogin := u'.lastLogin, userId := u'.userId)
      && u'.lastLogin == Some(now)
      && (IsLinked(u) ==> u'.userId == u.userId)
      && (providerId != "" ==> IsLinked(u'))
  {
  }

  /** The existing account a Facebook callback signs in is the one holding the email. */
  lemma FacebookSignsInExistingAccount(c: Crypto, s: State, code: Option<string>, p: FacebookProfile, now: nat, freshId: ObjectId, id: ObjectId)
    requires Valid(s) && HasCode(code) && id in s.users && s.users[id].email == NormalizeEmail(p.email)
    ensures var o := FacebookCallback(c, s, code, FacebookProfileFetched(p), now, freshId);
      var signedIn := s.users[id := SocialSignIn(s.users[id], p.id, now)];
      && (o.state.users == s.users || o.state.users == signedIn)
      && (o.reply.Redirect? && o.reply.target.CallbackWithTokens? ==> o.state.users == signedIn)
  {
    FindByEmailIsUnique(s, p.email, id);
    var u' := SocialSignIn(s.users[id], p.id, now);
    match SaveUser(s, id, u')
    case None =>
    case Some(s1) =>
      FinishSocialLoginRedirects(c, s1, id, now);
  }

  /** The same for Microsoft, whose email is `mail` or else `userPrincipalName`. */
  lemma MicrosoftSignsInExistingAccount(c: Crypto, s: State, code: Option<string>, p: MicrosoftProfile,
                                        photo: Option<string>, now: nat, freshId: ObjectId, id: ObjectId)
    requires Valid(s) && HasCode(code) && MicrosoftEmail(p).Some?
    requires id in s.users && s.users[id].email == NormalizeEmail(MicrosoftEmail(p).value)
    ensures var o := MicrosoftCallback(c, s, code, MicrosoftProfileFetched(p), photo, now, freshId);
      var signedIn := s.users[id := SocialSignIn(s.users[id], p.id, now)];
      && (o.state.users == s.users || o.state.users == signedIn)
      && (o.reply.Redirect? && o.reply.target.CallbackWithTokens? ==> o.state.users == signedIn)
  {
    FindByEmailIsUnique(s, MicrosoftEmail(p).value, id);
    var u' := SocialSignIn(s.users[id], p.id, now);
    match SaveUser(s, id, u')
    case None =>
    case Some(s1) =>
      FinishSocialLoginRedirects(c, s1, id, now);
  }

  /** Microsoft takes `mail`, falling back to `userPrincipalName`; with neither it gives up before any lookup. */
  lemma MicrosoftWithoutEmailRedirectsToError(c: Crypto, s: State, code: Option<string>, p: MicrosoftProfile,
                                              photo: Option<string>, now: nat, freshId: ObjectId)
    requires HasCode(code) && !Truthy(p.mail) && !Truthy(p.userPrincipalName)
    ensures MicrosoftCallback(c, s, code, MicrosoftProfileFetched(p), photo, now, freshId) == Outcome(s, Redirect(ErrorPage))
  {
  }

  /** Microsoft creates a verified MICROSOFT account whose picture is the fetched photo as a data URL. */
  lemma MicrosoftCreatesVerifiedAccount(c: Crypto, s: State, code: Option<string>, p: MicrosoftProfile,
                                        photo: Option<string>, now: nat, freshId: ObjectId)
    requires HasCode(code) && MicrosoftEmail(p).Some? && FindByEmail(s, MicrosoftEmail(p).value).None? && freshId !in s.users
    ensures var o := MicrosoftCallback(c, s, code, MicrosoftProfileFetched(p), photo, now, freshId);
      o.reply.Redirect? && o.reply.target.CallbackWithTokens? ==> freshId in o.state.users && o.reply.target.userId == Some(ObjectIdString(freshId))
    ensures var s' := MicrosoftCallback(c, s, code, MicrosoftProfileFetched(p), photo, now, freshId).state;
      && (freshId !in s'.users ==> s'.users == s.users)
      && (freshId in s'.users ==>
            && s'.users == s.users[freshId := s'.users[freshId]]
            && var u := s'.users[freshId];
            && u.email == NormalizeEmail(MicrosoftEmail(p).value) && u.registrationType == MICROSOFT && u.isEmailVerified
            && u.password.None? && u.userId == Some(ObjectIdString(freshId)) && u.name == Trim(p.displayName)
            && u.profilePicture == (if photo.Some? then PHOTO_PREFIX + photo.value else DefaultProfilePicture(Trim(p.displayName))))
  {
    var email := MicrosoftEmail(p).value;
    var picture := if photo.Some? then Some(PHOTO_PREFIX + photo.value) else None;
    var draft := Draft(Some(p.id), email, None, p.displayName, picture, Some(USER), Some(MICROSOFT), Some(true), Some(now));
    match CreateUser(c, s, freshId, draft, now)
    case None =>
    case Some(s1) =>
      FinishSocialLoginRedirects(c, s1, freshId, now);
  }

  /**
   * An account a social provider created has no password, so the password
   * login never admits it: it answers 500, whatever password is tried.
   */
  lemma SocialAccountRefusesPasswordLogin(c: Crypto, s: State, email: string, password: string, now: nat, id: ObjectId)
    requires Valid(s) && id in s.users && s.users[id].email == NormalizeEmail(email)
    requires s.users[id].registrationType != EMAIL && s.users[id].password.None?
    ensures Login(c, s, email, password, now) == Outcome(s, Fail(500, LOGIN_ERROR))
  {
    FindByEmailIsUnique(s, email, id);
  }
}
