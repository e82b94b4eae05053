/**
 * What register, login, refresh-token, logout, delete-account,
 * update-profile and get-user promise, proved of their functions in
 * AuthControllers.
 */
module SessionProperties {
  import opened Wrappers
  import opened Text
  import opened UserModel
  import opened Validation
  import opened Persistence
  import opened AuthControllers
  import opened Invariants

  // ---------------------------------------------------------------------
  // Login

  /** The account a login names: the one holding the normalised email. */
  ghost predicate HoldsEmail(s: State, id: ObjectId, email: string) {
    id in s.users && s.users[id].email == NormalizeEmail(email)
  }

  /**
   * A login is refused with the same 401 `Invalid credentials` when no
   * account holds the email and when the password is wrong for the one that
   * does, and a refused login writes nothing.
   */
  lemma LoginFailureIsUniform(c: Crypto, s: State, email: string, password: string, now: nat)
    requires Valid(s)
    ensures var o := Login(c, s, email, password, now);
      o.reply == Fail(401, INVALID_CREDENTIALS) <==>
        (forall id :: id in s.users ==> s.users[id].email != NormalizeEmail(email))
        || (exists id :: HoldsEmail(s, id, email) && s.users[id].password.Some?
                         && ComparePassword(c, password, s.users[id].password) == Mismatch)
    ensures var o := Login(c, s, email, password, now);
      o.reply == Fail(401, INVALID_CREDENTIALS) ==> o.state == s
  {
    match FindByEmail(s, email)
    case None =>
    case Some(id) =>
      forall other | HoldsEmail(s, other, email) ensures other == id {
        FindByEmailIsUnique(s, email, other);
      }
  }

  /**
   * The exception to uniformity: an account with no password (one created by
   * a social provider) makes `bcrypt.compare` throw, and the login answers 500.
   */
  lemma PasswordlessLoginIsServerError(c: Crypto, s: State, email: string, password: string, now: nat, id: ObjectId)
    requires Valid(s) && HoldsEmail(s, id, email) && s.users[id].password.None?
    ensures Login(c, s, email, password, now) == Outcome(s, Fail(500, LOGIN_ERROR))
  {
    FindByEmailIsUnique(s, email, id);
  }

  /**
   * A successful login checked the password of the account holding the
   * email, stamped its `lastLogin`, stored one new refresh record for it
   * expiring in seven days, and returned the two tokens signed for it.
   */
  lemma LoginOpensSession(c: Crypto, s: State, email: string, password: string, now: nat, id: ObjectId)
    requires Valid(s) && HoldsEmail(s, id, email)
    requires Login(c, s, email, password, now).reply.Json? && Login(c, s, email, password, now).reply.success
    ensures ComparePassword(c, password, s.users[id].password) == Match
    ensures var o := Login(c, s, email, password, now);
      var refresh := c.sign(RefreshTokenRequest(id), now);
      var u' := s.users[id].(lastLogin := Some(now));
      && o.state.users == s.users[id := u']
      && refresh !in s.refreshTokens
      && o.state.refreshTokens == s.refreshTokens[refresh := RefreshRecord(id, now + REFRESH_RECORD_TTL_MS)]
      && o.state.verificationTokens == s.verificationTokens && o.state.resetTokens == s.resetTokens
      && o.reply == Json(200, true, None,
           SessionTokens(u'.userId, c.sign(AccessTokenRequest(id, u'), now), refresh, Some(u'.isEmailVerified)))
  {
    FindByEmailIsUnique(s, email, id);
  }

  /** Only an account holding the email can be logged into. */
  lemma LoginNeedsAccount(c: Crypto, s: State, email: string, password: string, now: nat)
    requires Login(c, s, email, password, now).reply.Json? && Login(c, s, email, password, now).reply.success
    ensures exists id :: HoldsEmail(s, id, email)
  {
    assert HoldsEmail(s, FindByEmail(s, email).value, email);
  }

  // ---------------------------------------------------------------------
  // Register

  /**
   * A 201 from register means: the email had the right format, the password
   * passed every rule, and no account held the email; the new account is an
   * unverified EMAIL account with the hashed password and its own id as
   * `userId`; a five-minute verification token and a seven-day refresh
   * record were stored for it, and nothing else changed.
   */
  lemma RegisterCreatesUnverifiedAccount(c: Crypto, s: State, email: string, password: string, name: string,
                                         picture: Option<string>, now: nat, freshId: ObjectId, token: string, mailSent: bool)
    requires var r := Register(c, s, email, password, name, picture, now, freshId, token, mailSent).reply;
      r.Json? && r.status == 201
    ensures IsEmailFormat(email) && IsPasswordValid(password).isValid && mailSent
    ensures forall id :: id in s.users ==> s.users[id].email != NormalizeEmail(email)
    ensures var o := Register(c, s, email, password, name, picture, now, freshId, token, mailSent);
      && freshId !in s.users && freshId in o.state.users
      && o.state.users == s.users[freshId := o.state.users[freshId]]
      && var u := o.state.users[freshId];
      && u.email == NormalizeEmail(email) && u.name == Trim(name)
      && u.registrationType == EMAIL && u.role == USER && !u.isEmailVerified
      && u.password == Some(Digest(c.hash(password)))
      && u.userId == Some(ObjectIdString(freshId)) && u.lastLogin == Some(now) && u.createdAt == now
      && o.state.verificationTokens == s.verificationTokens[token := TokenRecord(freshId, now + VERIFICATION_TTL_MS)]
      && o.state.resetTokens == s.resetTokens
      && o.state.refreshTokens == s.refreshTokens[c.sign(RefreshTokenRequest(freshId), now) := RefreshRecord(freshId, now + REFRESH_RECORD_TTL_MS)]
      && o.reply.payload == SessionTokens(Some(ObjectIdString(freshId)), c.sign(AccessTokenRequest(freshId, u), now),
                                          c.sign(RefreshTokenRequest(freshId), now), Some(false))
  {
    var draft := Draft(None, email, Some(password), name, picture, None, Some(EMAIL), Some(false), Some(now));
    var s1 := CreateUser(c, s, freshId, draft, now).value;
    var s2 := s1.(verificationTokens := s1.verificationTokens[token := TokenRecord(freshId, now + VERIFICATION_TTL_MS)]);
    assert OpenSession(c, s2, freshId, now).Some?;
    var u := NewDocument(c, freshId, draft, now);
    assert s2.users[freshId] == u;
  }

  /** An email already held, in any letter case or padding, is refused and nothing is written. */
  lemma RegisterRefusesTakenEmail(c: Crypto, s: State, email: string, password: string, name: string,
                                  picture: Option<string>, now: nat, freshId: ObjectId, token: string, mailSent: bool, id: ObjectId)
    requires IsEmailFormat(email) && IsPasswordValid(password).isValid
    requires HoldsEmail(s, id, email)
    ensures Register(c, s, email, password, name, picture, now, freshId, token, mailSent) == Outcome(s, Fail(400, USER_EXISTS))
  {
  }

  /** Every 400 from register is a refusal before anything is written. */
  lemma RegisterRefusalWritesNothing(c: Crypto, s: State, email: string, password: string, name: string,
                                     picture: Option<string>, now: nat, freshId: ObjectId, token: string, mailSent: bool)
    ensures var o := Register(c, s, email, password, name, picture, now, freshId, token, mailSent);
      o.reply.Json? && o.reply.status == 400 ==> o.state == s
  {
    if IsEmailFormat(email) && IsPasswordValid(password).isValid && FindByEmail(s, email).None? {
      var draft := Draft(None, email, Some(password), name, picture, None, Some(EMAIL), Some(false), Some(now));
      match CreateUser(c, s, freshId, draft, now)
      case None =>
      case Some(s1) =>
        var s2 := s1.(verificationTokens := s1.verificationTokens[token := TokenRecord(freshId, now + VERIFICATION_TTL_MS)]);
        if mailSent {
          match OpenSession(c, s2, freshId, now)
          case None =>
          case Some(session) =>
        }
    }
  }

  /**
   * The account is inserted before the verification email is sent, and a
   * failed send does not undo it: the 500 leaves the account and its
   * verification token stored, without a session.
   */
  lemma UnsentMailLeavesAccountBehind(c: Crypto, s: State, email: string, password: string, name: string,
                                      picture: Option<string>, now: nat, freshId: ObjectId, token: string)
    requires freshId !in s.users
    ensures var o := Register(c, s, email, password, name, picture, now, freshId, token, false);
      && o.reply.Json? && !o.reply.success
      && (freshId !in o.state.users ==> o.state == s)
      && (freshId in o.state.users ==>
            && o.reply == Fail(500, REGISTER_ERROR)
            && o.state.verificationTokens == s.verificationTokens[token := TokenRecord(freshId, now + VERIFICATION_TTL_MS)]
            && o.state.refreshTokens == s.refreshTokens && o.state.resetTokens == s.resetTokens)
  {
    if IsEmailFormat(email) && IsPasswordValid(password).isValid && FindByEmail(s, email).None? {
      var draft := Draft(None, email, Some(password), name, picture, None, Some(EMAIL), Some(false), Some(now));
      match CreateUser(c, s, freshId, draft, now)
      case None =>
      case Some(s1) =>
        assert freshId in s1.users;
    }
  }

  /**
   * An account whose stored password is the digest of `password` is never
   * refused as bad credentials when logged into with it.
   */
  lemma LoginAcceptsStoredDigest(c: Crypto, s: State, email: string, password: string, now: nat, id: ObjectId)
    requires Valid(s) && HoldsEmail(s, id, email)
    requires s.users[id].password == Some(PasswordOnSave(c, EMAIL, password))
    ensures Login(c, s, email, password, now).reply != Fail(401, INVALID_CREDENTIALS)
  {
    FindByEmailIsUnique(s, email, id);
    SavedPasswordMatches(c, password);
  }

  /**
   * The account register creates accepts its password: a later login with
   * the same email and password is not refused as bad credentials.
   */
  lemma RegisteredAccountCanLogIn(c: Crypto, s: State, email: string, password: string, name: string,
                                  picture: Option<string>, now: nat, freshId: ObjectId, token: string, later: nat)
    requires Valid(s)
    requires var r := Register(c, s, email, password, name, picture, now, freshId, token, true).reply;
      r.Json? && r.status == 201
    ensures var s' := Register(c, s, email, password, name, picture, now, freshId, token, true).state;
      && FindByEmail(s', email) == Some(freshId)
      && Login(c, s', email, password, later).reply != Fail(401, INVALID_CREDENTIALS)
  {
    var s' := Register(c, s, email, password, name, picture, now, freshId, token, true).state;
    RegisterKeepsValid(c, s, email, password, name, picture, now, freshId, token, true);
    RegisterCreatesUnverifiedAccount(c, s, email, password, name, picture, now, freshId, token, true);
    FindByEmailIsUnique(s', email, freshId);
    LoginAcceptsStoredDigest(c, s', email, password, later, freshId);
  }

  // ---------------------------------------------------------------------
  // Refresh

  /**
   * A refresh succeeds exactly when the record exists and has not expired,
   * the refresh secret accepts the token, and its id names a stored user;
   * the new access token is signed for that user. No record is rotated.
   */
  lemma RefreshSucceedsExactly(c: Crypto, s: State, token: string, now: nat)
    ensures var r := RefreshAccess(c, s, token, now);
      var v := c.verify(token, RefreshKey, now);
      r.Json? && (r.status == 200 <==>
        && token in s.refreshTokens && now <= s.refreshTokens[token].expiresAt
        && v.Decoded? && ParseObjectId(v.claims.id).Some? && ParseObjectId(v.claims.id).value in s.users)
    ensures var r := RefreshAccess(c, s, token, now);
      var v := c.verify(token, RefreshKey, now);
      r.status == 200 ==>
        r.payload == AccessToken(c.sign(AccessTokenRequest(ParseObjectId(v.claims.id).value, s.users[ParseObjectId(v.claims.id).value]), now))
  {
  }

  /**
   * A refresh token handed out by a session keeps working for the seven
   * days of its record, provided jsonwebtoken still accepts it and decodes
   * the claims it was signed with; each use signs a fresh access token for
   * the same user.
   */
  lemma SessionRefreshRoundTrip(c: Crypto, s: State, id: ObjectId, now: nat, later: nat)
    requires id in s.users && OpenSession(c, s, id, now).Some?
    requires now <= later <= now + REFRESH_RECORD_TTL_MS
    requires c.verify(c.sign(RefreshTokenRequest(id), now), RefreshKey, later) == Decoded(RefreshTokenRequest(id).claims)
    ensures var session := OpenSession(c, s, id, now).value;
      RefreshAccess(c, session.state, session.refreshToken, later)
        == Json(200, true, None, AccessToken(c.sign(AccessTokenRequest(id, s.users[id]), later)))
  {
    ObjectIdRoundTrip(id);
  }

  /**
   * A refresh record is still honoured at the very millisecond of its
   * expiry: the check refuses only `expiresAt < now`.
   */
  lemma RefreshRecordHonouredAtExpiry(c: Crypto, s: State, token: string, now: nat)
    requires token in s.refreshTokens && s.refreshTokens[token].expiresAt == now
    ensures RefreshAccess(c, s, token, now) != Fail(401, INVALID_REFRESH)
  {
  }

  /**
   * A single-use token is no longer found at the millisecond of its expiry,
   * since the query asks for `expiresAt > now`; neither link then works.
   */
  lemma SingleUseTokenDeadAtExpiry(c: Crypto, s: State, token: string, newPassword: string, now: nat)
    ensures token in s.verificationTokens && s.verificationTokens[token].expiresAt == now ==>
      LiveToken(s.verificationTokens, token, now).None?
      && VerifyEmail(c, s, token, now) == Outcome(s, Fail(400, INVALID_VERIFICATION))
    ensures token in s.resetTokens && s.resetTokens[token].expiresAt == now ==>
      LiveToken(s.resetTokens, token, now).None?
      && ResetPassword(c, s, token, newPassword, now) == Outcome(s, Fail(400, INVALID_RESET))
  {
  }

  // ---------------------------------------------------------------------
  // Logout

  /**
   * Logout removes exactly the one record: that token can no longer
   * refresh, every other token refreshes as before, and nothing else changes.
   */
  lemma LogoutRevokesOnlyThatRecord(c: Crypto, s: State, token: string, other: string, now: nat)
    requires other != token
    ensures var o := Logout(s, token);
      && o.state == s.(refreshTokens := s.refreshTokens - {token})
      && RefreshAccess(c, o.state, token, now) == Fail(401, INVALID_REFRESH)
      && RefreshAccess(c, o.state, other, now) == RefreshAccess(c, s, other, now)
      && o.reply == Json(200, true, Some(LOGGED_OUT), NoData)
  {
  }

  /** Logging out twice is logging out once, and an unknown token is no error. */
  lemma LogoutIsIdempotent(s: State, token: string)
    ensures Logout(Logout(s, token).state, token) == Logout(s, token)
    ensures token !in s.refreshTokens ==> Logout(s, token).state == s
  {
  }

  // ---------------------------------------------------------------------
  // Delete account

  /**
   * A deleted account takes its refresh records with it: none of its tokens
   * refreshes any more, the other accounts and their records are untouched,
   * and its verification and reset tokens stay behind.
   */
  lemma DeleteAccountCascades(c: Crypto, s: State, claimsId: string, password: string, now: nat)
    requires DeleteAccount(c, s, claimsId, password).reply.Json? && DeleteAccount(c, s, claimsId, password).reply.success
    ensures ParseObjectId(claimsId).Some?
    ensures var id := ParseObjectId(claimsId).value;
      var s' := DeleteAccount(c, s, claimsId, password).state;
      && id in s.users && ComparePassword(c, password, s.users[id].password) == Match
      && s'.users == s.users - {id}
      && SessionsOf(s'.refreshTokens, id) == {}
      && (forall t :: t in s.refreshTokens && s.refreshTokens[t].user != id ==> t in s'.refreshTokens && s'.refreshTokens[t] == s.refreshTokens[t])
      && (forall t :: t in s.refreshTokens && s.refreshTokens[t].user == id ==> RefreshAccess(c, s', t, now) == Fail(401, INVALID_REFRESH))
      && s'.verificationTokens == s.verificationTokens && s'.resetTokens == s.resetTokens
  {
  }

  /** Without the right password (or with none stored) nothing is deleted. */
  lemma DeleteAccountNeedsPassword(c: Crypto, s: State, claimsId: string, password: string)
    requires ParseObjectId(claimsId).Some? && ParseObjectId(claimsId).value in s.users
    requires ComparePassword(c, password, s.users[ParseObjectId(claimsId).value].password) != Match
    ensures DeleteAccount(c, s, claimsId, password).state == s
    ensures DeleteAccount(c, s, claimsId, password).reply.status in {401, 500}
  {
  }

  // ---------------------------------------------------------------------
  // Update profile and user details

  /**
   * Update-profile changes only the name (trimmed) and the picture, each
   * only when given as a non-empty string, of the one account, and answers
   * with the document without its password.
   */
  lemma UpdateProfileTouchesOnlyNameAndPicture(s: State, claimsId: string, name: Option<string>, picture: Option<string>)
    requires UpdateProfile(s, claimsId, name, picture).reply.Json? && UpdateProfile(s, claimsId, name, picture).reply.success
    ensures ParseObjectId(claimsId).Some? && ParseObjectId(claimsId).value in s.users
    ensures var id := ParseObjectId(claimsId).value;
      var o := UpdateProfile(s, claimsId, name, picture);
      var u := s.users[id];
      var u' := o.state.users[id];
      && o.state == s.(users := s.users[id := u'])
      && u' == u.(name := u'.name, profilePicture := u'.profilePicture)
      && u'.name == (if name.Some? && name.value != "" then Trim(name.value) else u.name)
      && u'.profilePicture == (if picture.Some? && picture.value != "" then picture.value else u.profilePicture)
      && o.reply.payload == Profile(ViewOf(id, u'))
  {
  }

  /**
   * No validator runs on update-profile, so a name of blanks is trimmed to
   * nothing and stored; the next login with the right password then fails
   * the `required` check when it saves `lastLogin`, and answers 500.
   */
  lemma BlankNameBreaksLaterLogins(c: Crypto, s: State, id: ObjectId, blank: string, email: string, password: string, now: nat)
    requires Valid(s) && HoldsEmail(s, id, email)
    requires blank != "" && AllSpace(blank)
    requires ComparePassword(c, password, s.users[id].password) == Match
    ensures var s' := UpdateProfile(s, ObjectIdString(id), Some(blank), None).state;
      && s'.users[id].name == ""
      && Login(c, s', email, password, now) == Outcome(s', Fail(500, LOGIN_ERROR))
  {
    ObjectIdRoundTrip(id);
    TrimOfBlank(blank);
    var s' := UpdateProfile(s, ObjectIdString(id), Some(blank), None).state;
    UpdateProfileKeepsValid(s, ObjectIdString(id), Some(blank), None);
    FindByEmailIsUnique(s', email, id);
  }

  /** The id inside a user's own access token reads back that user's five public fields. */
  lemma OwnTokenReadsOwnDetails(s: State, id: ObjectId)
    requires id in s.users
    ensures GetUserDetails(s, ObjectIdString(id)) == Json(200, true, None, Details(DetailsOf(s.users[id])))
  {
    ObjectIdRoundTrip(id);
  }
}
