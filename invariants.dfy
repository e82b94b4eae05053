/**
 * Every controller keeps the users collection `Valid`: emails distinct and
 * `userId`s distinct. The unique indexes are what keep it so; the lemmas
 * below show that every write the controllers make passes through them.
 */
module Invariants {
  import opened Wrappers
  import opened Text
  import opened UserModel
  import opened Persistence
  import opened AuthControllers
  import opened SocialAuth

  /** A document inserted by `User.create` keeps the collection valid. */
  lemma CreateUserKeepsValid(c: Crypto, s: State, id: ObjectId, d: Draft, now: nat)
    requires Valid(s) && CreateUser(c, s, id, d, now).Some?
    ensures Valid(CreateUser(c, s, id, d, now).value)
  {
    var u := NewDocument(c, id, d, now);
    assert !EmailTaken(s, u.email, id) && !UserIdTaken(s, u.userId, id);
    WriteKeepsValid(s, id, u);
  }

  /** Saving a document whose email is unchanged keeps the collection valid. */
  lemma SaveUserKeepsValid(s: State, id: ObjectId, u: User)
    requires Valid(s) && id in s.users && u.email == s.users[id].email
    requires SaveUser(s, id, u).Some?
    ensures Valid(SaveUser(s, id, u).value)
  {
    assert !UserIdTaken(s, u.userId, id);
    WriteKeepsValid(s, id, u);
  }

  /** Writing only the token collections leaves the users untouched, so validity stays. */
  lemma SameUsersSameValidity(s: State, s': State)
    requires Valid(s) && s'.users == s.users
    ensures Valid(s')
  {
  }

  lemma OpenSessionKeepsUsers(c: Crypto, s: State, id: ObjectId, now: nat)
    requires id in s.users && OpenSession(c, s, id, now).Some?
    ensures OpenSession(c, s, id, now).value.state.users == s.users
    ensures OpenSession(c, s, id, now).value.state.verificationTokens == s.verificationTokens
    ensures OpenSession(c, s, id, now).value.state.resetTokens == s.resetTokens
  {
  }

  lemma RegisterKeepsValid(c: Crypto, s: State, email: string, password: string, name: string,
                           picture: Option<string>, now: nat, freshId: ObjectId, token: string, mailSent: bool)
    requires Valid(s)
    ensures Valid(Register(c, s, email, password, name, picture, now, freshId, token, mailSent).state)
  {
    var draft := Draft(None, email, Some(password), name, picture, None, Some(EMAIL), Some(false), Some(now));
    if CreateUser(c, s, freshId, draft, now).Some? {
      CreateUserKeepsValid(c, s, freshId, draft, now);
    }
  }

  lemma LoginKeepsValid(c: Crypto, s: State, email: string, password: string, now: nat)
    requires Valid(s)
    ensures Valid(Login(c, s, email, password, now).state)
  {
    match FindByEmail(s, email)
    case None =>
    case Some(id) =>
      var u' := s.users[id].(lastLogin := Some(now));
      if SaveUser(s, id, u').Some? {
        SaveUserKeepsValid(s, id, u');
      }
  }

  lemma VerifyEmailKeepsValid(c: Crypto, s: State, token: string, now: nat)
    requires Valid(s)
    ensures Valid(VerifyEmail(c, s, token, now).state)
  {
    match LiveToken(s.verificationTokens, token, now)
    case None =>
    case Some(record) =>
      var id := record.userId;
      if id in s.users {
        var u' := s.users[id].(isEmailVerified := true);
        if SaveUser(s, id, u').Some? {
          SaveUserKeepsValid(s, id, u');
        }
      }
  }

  lemma ResetPasswordKeepsValid(c: Crypto, s: State, token: string, newPassword: string, now: nat)
    requires Valid(s)
    ensures Valid(ResetPassword(c, s, token, newPassword, now).state)
  {
    match LiveToken(s.resetTokens, token, now)
    case None =>
    case Some(record) =>
      var id := record.userId;
      if id in s.users {
        var u := s.users[id];
        var u' := u.(password := Some(PasswordOnSave(c, u.registrationType, newPassword)));
        if SaveUser(s, id, u').Some? {
          SaveUserKeepsValid(s, id, u');
        }
      }
  }

  lemma ChangePasswordKeepsValid(c: Crypto, s: State, claimsId: string, current: string, newPassword: string)
    requires Valid(s)
    ensures Valid(ChangePassword(c, s, claimsId, current, newPassword).state)
  {
    match ParseObjectId(claimsId)
    case None =>
    case Some(id) =>
      if id in s.users {
        var u := s.users[id];
        var u' := u.(password := Some(PasswordOnSave(c, u.registrationType, newPassword)));
        if SaveUser(s, id, u').Some? {
          SaveUserKeepsValid(s, id, u');
        }
      }
  }

  lemma DeleteAccountKeepsValid(c: Crypto, s: State, claimsId: string, password: string)
    requires Valid(s)
    ensures Valid(DeleteAccount(c, s, claimsId, password).state)
  {
  }

  lemma UpdateProfileKeepsValid(s: State, claimsId: string, name: Option<string>, picture: Option<string>)
    requires Valid(s)
    ensures Valid(UpdateProfile(s, claimsId, name, picture).state)
  {
    match ParseObjectId(claimsId)
    case None =>
    case Some(id) =>
      if id in s.users {
        var u := s.users[id];
        WriteKeepsValid(s, id, u.(name := if Truthy(name) then Trim(name.value) else u.name,
                                   profilePicture := if Truthy(picture) then picture.value else u.profilePicture));
      }
  }

  lemma FinishSocialLoginKeepsValid(c: Crypto, s: State, id: ObjectId, now: nat)
    requires Valid(s) && id in s.users
    ensures Valid(FinishSocialLogin(c, s, id, now).state)
  {
  }

  lemma GoogleCallbackKeepsValid(c: Crypto, s: State, code: Option<string>, exchange: GoogleExchange,
                                 now: nat, freshId: ObjectId)
    requires Valid(s)
    ensures Valid(GoogleCallback(c, s, code, exchange, now, freshId).state)
  {
    if HasCode(code) && exchange.GoogleTicket? && exchange.payload.Some? {
      var p := exchange.payload.value;
      match FindByEmail(s, p.email)
      case None =>
        var draft := Draft(Some(p.sub), p.email, None, p.name, p.picture, Some(USER), Some(GOOGLE), Some(true), Some(now));
        if CreateUser(c, s, freshId, draft, now).Some? {
          CreateUserKeepsValid(c, s, freshId, draft, now);
          FinishSocialLoginKeepsValid(c, CreateUser(c, s, freshId, draft, now).value, freshId, now);
        }
      case Some(id) =>
        var u := s.users[id];
        if IsLinked(u) {
          FinishSocialLoginKeepsValid(c, s, id, now);
        } else {
          var u' := u.(userId := Some(p.sub), lastLogin := Some(now));
          if SaveUser(s, id, u').Some? {
            SaveUserKeepsValid(s, id, u');
            FinishSocialLoginKeepsValid(c, SaveUser(s, id, u').value, id, now);
          }
        }
    }
  }

  lemma FacebookCallbackKeepsValid(c: Crypto, s: State, code: Option<string>, exchange: FacebookExchange,
                                   now: nat, freshId: ObjectId)
    requires Valid(s)
    ensures Valid(FacebookCallback(c, s, code, exchange, now, freshId).state)
  {
    if HasCode(code) && exchange.FacebookProfileFetched? {
      var p := exchange.profile;
      match FindByEmail(s, p.email)
      case None =>
        var picture := if Truthy(p.pictureUrl) then p.pictureUrl else None;
        var draft := Draft(Some(p.id), p.email, None, p.name, picture, Some(USER), Some(FACEBOOK), Some(true), Some(now));
        if CreateUser(c, s, freshId, draft, now).Some? {
          CreateUserKeepsValid(c, s, freshId, draft, now);
          FinishSocialLoginKeepsValid(c, CreateUser(c, s, freshId, draft, now).value, freshId, now);
        }
      case Some(id) =>
        var u' := SocialSignIn(s.users[id], p.id, now);
        if SaveUser(s, id, u').Some? {
          SaveUserKeepsValid(s, id, u');
          FinishSocialLoginKeepsValid(c, SaveUser(s, id, u').value, id, now);
        }
    }
  }

  lemma MicrosoftCallbackKeepsValid(c: Crypto, s: State, code: Option<string>, exchange: MicrosoftExchange,
                                    photo: Option<string>, now: nat, freshId: ObjectId)
    requires Valid(s)
    ensures Valid(MicrosoftCallback(c, s, code, exchange, photo, now, freshId).state)
  {
    if HasCode(code) && exchange.MicrosoftProfileFetched? && MicrosoftEmail(exchange.profile).Some? {
      var p := exchange.profile;
      var email := MicrosoftEmail(p).value;
      match FindByEmail(s, email)
      case None =>
        var picture := if photo.Some? then Some(PHOTO_PREFIX + photo.value) else None;
        var draft := Draft(Some(p.id), email, None, p.displayName, picture, Some(USER), Some(MICROSOFT), Some(true), Some(now));
        if CreateUser(c, s, freshId, draft, now).Some? {
          CreateUserKeepsValid(c, s, freshId, draft, now);
          FinishSocialLoginKeepsValid(c, CreateUser(c, s, freshId, draft, now).value, freshId, now);
        }
      case Some(id) =>
        var u' := SocialSignIn(s.users[id], p.id, now);
        if SaveUser(s, id, u').Some? {
          SaveUserKeepsValid(s, id, u');
          FinishSocialLoginKeepsValid(c, SaveUser(s, id, u').value, id, now);
        }
    }
  }
}
