/**
 * The controllers as the service runs them: one object holding the four
 * collections, whose methods read and write them step by step, each `await`
 * of the source a statement here. Every method is proved to leave the
 * collections and give the reply that the controller's function in
 * AuthControllers or SocialAuth describes, and to keep the unique indexes'
 * invariant.
 */
module Service {
  import opened Wrappers
  import opened Text
  import opened UserModel
  import opened Validation
  import opened Persistence
  import opened AuthControllers
  import opened SocialAuth
  import opened Invariants

  class AuthStore {
    var users: map<ObjectId, User>
    var verificationTokens: map<string, TokenRecord>
    var resetTokens: map<string, TokenRecord>
    var refreshTokens: map<string, RefreshRecord>
    const crypto: Crypto

    /** The collections as one value. */
    function Model(): State
      reads this
    {
      State(users, verificationTokens, resetTokens, refreshTokens)
    }

    ghost predicate Valid()
      reads this
    {
      Persistence.Valid(Model())
    }

    /** An empty database. */
    constructor (crypto: Crypto)
      ensures Valid() && this.crypto == crypto
      ensures Model() == State(map[], map[], map[], map[])
    {
      users := map[];
      verificationTokens := map[];
      resetTokens := map[];
      refreshTokens := map[];
      this.crypto := crypto;
    }

    // -------------------------------------------------------------------
    // The store operations

    /** `User.findOne({ email })`, scanning the collection. */
    method FindOne(email: string) returns (r: Option<ObjectId>)
      requires Valid()
      ensures r == FindByEmail(Model(), email)
    {
      var e := NormalizeEmail(email);
      var pending := users.Keys;
      while pending != {}
        invariant pending <= users.Keys
        invariant forall id :: id in users && id !in pending ==> users[id].email != e
        decreases |pending|
      {
        var id :| id in pending;
        if users[id].email == e {
          FindByEmailIsUnique(Model(), email, id);
          return Some(id);
        }
        pending := pending - {id};
      }
      return None;
    }

    /** `User.create`: build, validate, then insert under the unique indexes. */
    method Create(id: ObjectId, d: Draft, now: nat) returns (ok: bool)
      modifies this
      ensures ok == CreateUser(crypto, old(Model()), id, d, now).Some?
      ensures Model() == if ok then CreateUser(crypto, old(Model()), id, d, now).value else old(Model())
    {
      var u := NewDocument(crypto, id, d, now);
      if !DraftValidates(crypto, id, d, now) {
        return false;
      }
      if id in users || EmailTaken(Model(), u.email, id) || UserIdTaken(Model(), u.userId, id) {
        return false;
      }
      users := users[id := u];
      return true;
    }

    /** `user.save()` on a document already stored. */
    method Save(id: ObjectId, u: User) returns (ok: bool)
      modifies this
      ensures ok == SaveUser(old(Model()), id, u).Some?
      ensures Model() == if ok then SaveUser(old(Model()), id, u).value else old(Model())
    {
      if !Validates(u) || UserIdTaken(Model(), u.userId, id) {
        return false;
      }
      users := users[id := u];
      return true;
    }

    /** Sign both tokens and store the refresh record. */
    method Open(id: ObjectId, now: nat) returns (session: Option<(string, string)>)
      requires id in users
      modifies this
      ensures var expected := OpenSession(crypto, old(Model()), id, now);
        && session.Some? == expected.Some?
        && (session.Some? ==> session.value == (expected.value.accessToken, expected.value.refreshToken))
        && Model() == if expected.Some? then expected.value.state else old(Model())
    {
      var access := crypto.sign(AccessTokenRequest(id, users[id]), now);
      var refresh := crypto.sign(RefreshTokenRequest(id), now);
      if refresh == "" || refresh in refreshTokens {
        return None;
      }
      refreshTokens := refreshTokens[refresh := RefreshRecord(id, now + REFRESH_RECORD_TTL_MS)];
      return Some((access, refresh));
    }

    // -------------------------------------------------------------------
    // The controllers of src/controllers/auth

    method Register(email: string, password: string, name: string, picture: Option<string>,
                    now: nat, freshId: ObjectId, token: string, mailSent: bool) returns (reply: Reply)
      requires Valid()
      modifies this
      ensures Valid()
      ensures var o := AuthControllers.Register(crypto, old(Model()), email, password, name, picture, now, freshId, token, mailSent);
        Model() == o.state && reply == o.reply
    {
      RegisterKeepsValid(crypto, Model(), email, password, name, picture, now, freshId, token, mailSent);
      if !IsEmailFormat(email) {
        return Fail(400, INVALID_EMAIL);
      }
      var check := IsPasswordValid(password);
      if !check.isValid {
        return Fail(400, check.message);
      }
      var existing := FindOne(email);
      if existing.Some? {
        return Fail(400, USER_EXISTS);
      }
      reply := InsertAccount(email, password, name, picture, now, freshId, token, mailSent);
    }

    /** The part of register after its checks. */
    method InsertAccount(email: string, password: string, name: string, picture: Option<string>,
                         now: nat, freshId: ObjectId, token: string, mailSent: bool) returns (reply: Reply)
      modifies this
      ensures var o := AuthControllers.InsertAccount(crypto, old(Model()), email, password, name, picture, now, freshId, token, mailSent);
        Model() == o.state && reply == o.reply
    {
      ghost var s0 := Model();
      var draft := Draft(None, email, Some(password), name, picture, None, Some(EMAIL), Some(false), Some(now));
      var created := Create(freshId, draft, now);
      if !created {
        return Fail(500, REGISTER_ERROR);
      }
      ghost var s1 := CreateUser(crypto, s0, freshId, draft, now).value;
      verificationTokens := verificationTokens[token := TokenRecord(freshId, now + VERIFICATION_TTL_MS)];
      ghost var s2 := s1.(verificationTokens := s1.verificationTokens[token := TokenRecord(freshId, now + VERIFICATION_TTL_MS)]);
      assert Model() == s2;
      if !mailSent {
        return Fail(500, REGISTER_ERROR);
      }
      var u := users[freshId];
      var session := Open(freshId, now);
      if session.None? {
        return Fail(500, REGISTER_ERROR);
      }
      return Json(201, true, None, SessionTokens(u.userId, session.value.0, session.value.1, Some(u.isEmailVerified)));
    }

    method Login(email: string, password: string, now: nat) returns (reply: Reply)
      requires Valid()
      modifies this
      ensures Valid()
      ensures var o := AuthControllers.Login(crypto, old(Model()), email, password, now);
        Model() == o.state && reply == o.reply
    {
      LoginKeepsValid(crypto, Model(), email, password, now);
      var found := FindOne(email);
      if found.None? {
        return Fail(401, INVALID_CREDENTIALS);
      }
      var id := found.value;
      var u := users[id];
      var verdict := ComparePassword(crypto, password, u.password);
      if verdict == Throws {
        return Fail(500, LOGIN_ERROR);
      }
      if verdict == Mismatch {
        return Fail(401, INVALID_CREDENTIALS);
      }
      u := u.(lastLogin := Some(now));
      var saved := Save(id, u);
      if !saved {
        return Fail(500, LOGIN_ERROR);
      }
      var session := Open(id, now);
      if session.None? {
        return Fail(500, LOGIN_ERROR);
      }
      return Json(200, true, None, SessionTokens(u.userId, session.value.0, session.value.1, Some(u.isEmailVerified)));
    }

    /** Reads only: the record is looked up and a new access token signed. */
    method Refresh(token: string, now: nat) returns (reply: Reply)
      ensures reply == RefreshAccess(crypto, Model(), token, now)
    {
      if token !in refreshTokens || refreshTokens[token].expiresAt < now {
        return Fail(401, INVALID_REFRESH);
      }
      var verdict := crypto.verify(token, RefreshKey, now);
      if !verdict.Decoded? {
        return Fail(500, REFRESH_ERROR);
      }
      var id := ParseObjectId(verdict.claims.id);
      if id.None? {
        return Fail(500, REFRESH_ERROR);
      }
      if id.value !in users {
        return Fail(401, USER_NOT_FOUND);
      }
      return Json(200, true, None, AccessToken(crypto.sign(AccessTokenRequest(id.value, users[id.value]), now)));
    }

    method Logout(token: string) returns (reply: Reply)
      requires Valid()
      modifies this
      ensures Valid()
      ensures var o := AuthControllers.Logout(old(Model()), token);
        Model() == o.state && reply == o.reply
    {
      refreshTokens := refreshTokens - {token};
      return Json(200, true, Some(LOGGED_OUT), NoData);
    }

    method VerifyEmail(token: string, now: nat) returns (reply: Reply)
      requires Valid()
      modifies this
      ensures Valid()
      ensures var o := AuthControllers.VerifyEmail(crypto, old(Model()), token, now);
        Model() == o.state && reply == o.reply
    {
      VerifyEmailKeepsValid(crypto, Model(), token, now);
      if token !in verificationTokens || verificationTokens[token].expiresAt <= now {
        return Fail(400, INVALID_VERIFICATION);
      }
      var id := verificationTokens[token].userId;
      if id !in users {
        return Fail(400, USER_NOT_FOUND);
      }
      var u := users[id].(isEmailVerified := true);
      var saved := Save(id, u);
      if !saved {
        return Fail(500, VERIFY_ERROR);
      }
      verificationTokens := verificationTokens - {token};
      var session := Open(id, now);
      if session.None? {
        return Fail(500, VERIFY_ERROR);
      }
      return Json(200, true, Some(EMAIL_VERIFIED), SessionTokens(u.userId, session.value.0, session.value.1, None));
    }

    method ResendVerification(claimsId: string, now: nat, token: string, mailSent: bool) returns (reply: Reply)
      requires Valid()
      modifies this
      ensures Valid()
      ensures var o := AuthControllers.ResendVerification(old(Model()), claimsId, now, token, mailSent);
        Model() == o.state && reply == o.reply
    {
      var id := ParseObjectId(claimsId);
      if id.None? {
        return Fail(500, RESEND_ERROR);
      }
      if id.value !in users {
        return Fail(404, USER_NOT_FOUND);
      }
      if users[id.value].isEmailVerified {
        return Fail(400, ALREADY_VERIFIED);
      }
      verificationTokens := WithoutTokensOf(verificationTokens, id.value);
      verificationTokens := verificationTokens[token := TokenRecord(id.value, now + VERIFICATION_TTL_MS)];
      if !mailSent {
        return Fail(500, RESEND_ERROR);
      }
      return Json(200, true, Some(VERIFICATION_SENT), NoData);
    }

    method ForgotPassword(email: string, now: nat, token: string, mailSent: bool) returns (reply: Reply)
      requires Valid()
      modifies this
      ensures Valid()
      ensures var o := AuthControllers.ForgotPassword(old(Model()), email, now, token, mailSent);
        Model() == o.state && reply == o.reply
    {
      var found := FindOne(email);
      if found.None? {
        return Json(200, true, Some(RESET_REQUESTED), NoData);
      }
      resetTokens := WithoutTokensOf(resetTokens, found.value);
      resetTokens := resetTokens[token := TokenRecord(found.value, now + RESET_TTL_MS)];
      if !mailSent {
        return Fail(500, FORGOT_ERROR);
      }
      return Json(200, true, Some(RESET_REQUESTED), NoData);
    }

    method ResetPassword(token: string, newPassword: string, now: nat) returns (reply: Reply)
      requires Valid()
      modifies this
      ensures Valid()
      ensures var o := AuthControllers.ResetPassword(crypto, old(Model()), token, newPassword, now);
        Model() == o.state && reply == o.reply
    {
      ResetPasswordKeepsValid(crypto, Model(), token, newPassword, now);
      if token !in resetTokens || resetTokens[token].expiresAt <= now {
        return Fail(400, INVALID_RESET);
      }
      var check := IsPasswordValid(newPassword);
      if !check.isValid {
        return Fail(400, check.message);
      }
      var id := resetTokens[token].userId;
      if id !in users {
        return Fail(404, USER_NOT_FOUND);
      }
      var u := users[id];
      var saved := Save(id, u.(password := Some(PasswordOnSave(crypto, u.registrationType, newPassword))));
      if !saved {
        return Fail(500, RESET_ERROR);
      }
      resetTokens := resetTokens - {token};
      return Json(200, true, Some(RESET_DONE), NoData);
    }

    method ChangePassword(claimsId: string, current: string, newPassword: string) returns (reply: Reply)
      requires Valid()
      modifies this
      ensures Valid()
      ensures var o := AuthControllers.ChangePassword(crypto, old(Model()), claimsId, current, newPassword);
        Model() == o.state && reply == o.reply
    {
      ChangePasswordKeepsValid(crypto, Model(), claimsId, current, newPassword);
      var id := ParseObjectId(claimsId);
      if id.None? {
        return Fail(500, CHANGE_ERROR);
      }
      if id.value !in users {
        return Fail(404, USER_NOT_FOUND);
      }
      var u := users[id.value];
      var verdict := ComparePassword(crypto, current, u.password);
      if verdict == Throws {
        return Fail(500, CHANGE_ERROR);
      }
      if verdict == Mismatch {
        return Fail(401, WRONG_CURRENT_PASSWORD);
      }
      var check := IsPasswordValid(newPassword);
      if !check.isValid {
        return Fail(400, check.message);
      }
      var saved := Save(id.value, u.(password := Some(PasswordOnSave(crypto, u.registrationType, newPassword))));
      if !saved {
        return Fail(500, CHANGE_ERROR);
      }
      return Json(200, true, Some(PASSWORD_UPDATED), NoData);
    }

    method DeleteAccount(claimsId: string, password: string) returns (reply: Reply)
      requires Valid()
      modifies this
      ensures Valid()
      ensures var o := AuthControllers.DeleteAccount(crypto, old(Model()), claimsId, password);
        Model() == o.state && reply == o.reply
    {
      DeleteAccountKeepsValid(crypto, Model(), claimsId, password);
      var id := ParseObjectId(claimsId);
      if id.None? {
        return Fail(500, DELETE_ERROR);
      }
      if id.value !in users {
        return Fail(404, USER_NOT_FOUND);
      }
      var verdict := ComparePassword(crypto, password, users[id.value].password);
      if verdict == Throws {
        return Fail(500, DELETE_ERROR);
      }
      if verdict == Mismatch {
        return Fail(401, WRONG_PASSWORD);
      }
      refreshTokens := WithoutSessionsOf(refreshTokens, id.value);
      users := users - {id.value};
      return Json(200, true, Some(ACCOUNT_DELETED), NoData);
    }

    method UpdateProfile(claimsId: string, name: Option<string>, picture: Option<string>) returns (reply: Reply)
      requires Valid()
      modifies this
      ensures Valid()
      ensures var o := AuthControllers.UpdateProfile(old(Model()), claimsId, name, picture);
        Model() == o.state && reply == o.reply
    {
      UpdateProfileKeepsValid(Model(), claimsId, name, picture);
      var id := ParseObjectId(claimsId);
      if id.None? {
        return Fail(500, UPDATE_ERROR);
      }
      if id.value !in users {
        return Fail(404, USER_NOT_FOUND);
      }
      var u := users[id.value];
      if Truthy(name) {
        u := u.(name := Trim(name.value));
      }
      if Truthy(picture) {
        u := u.(profilePicture := picture.value);
      }
      users := users[id.value := u];
      return Json(200, true, None, Profile(ViewOf(id.value, u)));
    }

    /** Reads only. */
    method GetUserDetails(claimsId: string) returns (reply: Reply)
      ensures reply == AuthControllers.GetUserDetails(Model(), claimsId)
    {
      var id := ParseObjectId(claimsId);
      if id.None? {
        return Fail(500, DETAILS_ERROR);
      }
      if id.value !in users {
        return Fail(404, USER_NOT_FOUND);
      }
      var u := users[id.value];
      return Json(200, true, None, Details(UserDetails(u.email, u.name, u.profilePicture, u.isEmailVerified, u.registrationType)));
    }

    // -------------------------------------------------------------------
    // The callbacks of src/controllers/social-auth

    /** Tokens, refresh record and the redirect carrying them. */
    method FinishSocial(id: ObjectId, now: nat) returns (reply: Reply)
      requires Valid() && id in users
      modifies this
      ensures Valid()
      ensures var o := FinishSocialLogin(crypto, old(Model()), id, now);
        Model() == o.state && reply == o.reply
    {
      var userId := users[id].userId;
      var session := Open(id, now);
      if session.None? {
        return Redirect(ErrorPage);
      }
      return Redirect(CallbackWithTokens(session.value.0, session.value.1, userId));
    }

    method GoogleCallback(code: Option<string>, exchange: GoogleExchange, now: nat, freshId: ObjectId) returns (reply: Reply)
      requires Valid()
      modifies this
      ensures Valid()
      ensures var o := SocialAuth.GoogleCallback(crypto, old(Model()), code, exchange, now, freshId);
        Model() == o.state && reply == o.reply
    {
      GoogleCallbackKeepsValid(crypto, Model(), code, exchange, now, freshId);
      if !HasCode(code) {
        return Fail(400, CODE_MISSING);
      }
      if exchange.GoogleFailed? {
        return Redirect(ErrorPage);
      }
      if exchange.payload.None? {
        return Fail(400, INVALID_ID_TOKEN);
      }
      var p := exchange.payload.value;
      var found := FindOne(p.email);
      var id := freshId;
      if found.None? {
        var draft := Draft(Some(p.sub), p.email, None, p.name, p.picture, Some(USER), Some(GOOGLE), Some(true), Some(now));
        ghost var before := Model();
        var created := Create(freshId, draft, now);
        if !created {
          return Redirect(ErrorPage);
        }
        CreateUserKeepsValid(crypto, before, freshId, draft, now);
      } else {
        id := found.value;
        var u := users[id];
        if !IsLinked(u) {
          ghost var before := Model();
          var saved := Save(id, u.(userId := Some(p.sub), lastLogin := Some(now)));
          if !saved {
            return Redirect(ErrorPage);
          }
          SaveUserKeepsValid(before, id, u.(userId := Some(p.sub), lastLogin := Some(now)));
        }
      }
      reply := FinishSocial(id, now);
    }

    method FacebookCallback(code: Option<string>, exchange: FacebookExchange, now: nat, freshId: ObjectId) returns (reply: Reply)
      requires Valid()
      modifies this
      ensures Valid()
      ensures var o := SocialAuth.FacebookCallback(crypto, old(Model()), code, exchange, now, freshId);
        Model() == o.state && reply == o.reply
    {
      if !HasCode(code) {
        return Fail(400, CODE_MISSING);
      }
      if exchange.FacebookFailed? {
        return Redirect(ErrorPage);
      }
      var p := exchange.profile;
      var found := FindOne(p.email);
      var id := freshId;
      if found.None? {
        var picture := if Truthy(p.pictureUrl) then p.pictureUrl else None;
        var draft := Draft(Some(p.id), p.email, None, p.name, picture, Some(USER), Some(FACEBOOK), Some(true), Some(now));
        ghost var before := Model();
        var created := Create(freshId, draft, now);
        if !created {
          return Redirect(ErrorPage);
        }
        CreateUserKeepsValid(crypto, before, freshId, draft, now);
      } else {
        id := found.value;
        ghost var before := Model();
        var saved := Save(id, SocialSignIn(users[id], p.id, now));
        if !saved {
          return Redirect(ErrorPage);
        }
        SaveUserKeepsValid(before, id, SocialSignIn(before.users[id], p.id, now));
      }
      reply := FinishSocial(id, now);
    }

    method MicrosoftCallback(code: Option<string>, exchange: MicrosoftExchange, photo: Option<string>,
                             now: nat, freshId: ObjectId) returns (reply: Reply)
      requires Valid()
      modifies this
      ensures Valid()
      ensures var o := SocialAuth.MicrosoftCallback(crypto, old(Model()), code, exchange, photo, now, freshId);
        Model() == o.state && reply == o.reply
    {
      if !HasCode(code) {
        return Fail(400, CODE_MISSING);
      }
      if exchange.MicrosoftFailed? {
        return Redirect(ErrorPage);
      }
      var p := exchange.profile;
      var email := MicrosoftEmail(p);
      if email.None? {
        return Redirect(ErrorPage);
      }
      var found := FindOne(email.value);
      var id := freshId;
      if found.None? {
        var picture := if photo.Some? then Some(PHOTO_PREFIX + photo.value) else None;
        var draft := Draft(Some(p.id), email.value, None, p.displayName, picture, Some(USER), Some(MICROSOFT), Some(true), Some(now));
        ghost var before := Model();
        var created := Create(freshId, draft, now);
        if !created {
          return Redirect(ErrorPage);
        }
        CreateUserKeepsValid(crypto, before, freshId, draft, now);
      } else {
        id := found.value;
        ghost var before := Model();
        var saved := Save(id, SocialSignIn(users[id], p.id, now));
        if !saved {
          return Redirect(ErrorPage);
        }
        SaveUserKeepsValid(before, id, SocialSignIn(before.users[id], p.id, now));
      }
      reply := FinishSocial(id, now);
    }
  }
}
