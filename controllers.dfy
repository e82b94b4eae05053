/**
 * The email-and-password controllers of src/controllers/auth, one function
 * each from the store before the request to the store after it and the
 * reply. A thrown error becomes the controller's 500 reply; the writes made
 * before the throw stay, as they do in MongoDB.
 *
 * What the controllers take from outside is a parameter: `now` is
 * `Date.now()` in milliseconds, `freshId` the ObjectId Mongoose assigns,
 * `token` the value of `crypto.randomBytes(32).toString('hex')`, and
 * `mailSent` whether the email helper returned or threw.
 */
module AuthControllers {
  import opened Wrappers
  import opened Text
  import opened UserModel
  import opened Validation
  import opened Persistence

  /** The user document as `select('-password')` returns it. */
  datatype UserView = UserView(
    id: ObjectId,
    userId: Option<string>,
    email: string,
    name: string,
    profilePicture: string,
    createdAt: nat,
    role: UserRole,
    registrationType: RegistrationType,
    isEmailVerified: bool,
    lastLogin: Option<nat>)

  /** The `data` object of a getUserDetails reply. */
  datatype UserDetails = UserDetails(
    email: string,
    name: string,
    profilePicture: string,
    isEmailVerified: bool,
    registrationType: RegistrationType)

  /** The `data` member of a JSON reply. */
  datatype Payload =
    | NoData
    | SessionTokens(userId: Option<string>, accessToken: string, refreshToken: string, isEmailVerified: Option<bool>)
    | AccessToken(accessToken: string)
    | Details(details: UserDetails)
    | Profile(view: UserView)

  /** Where a social callback sends the browser: `/auth/callback?...` or `/auth/error`. */
  datatype RedirectTarget =
    | CallbackWithTokens(accessToken: string, refreshToken: string, userId: Option<string>)
    | ErrorPage

  datatype Reply =
    | Json(status: nat, success: bool, message: Option<string>, payload: Payload)
    | Redirect(target: RedirectTarget)

  function Fail(status: nat, message: string): Reply {
    Json(status, false, Some(message), NoData)
  }

  datatype Outcome = Outcome(state: State, reply: Reply)

  const INVALID_EMAIL := "Invalid email format"
  const USER_EXISTS := "User with this email already exists"
  const REGISTER_ERROR := "Error registering user"
  const INVALID_CREDENTIALS := "Invalid credentials"
  const LOGIN_ERROR := "Error logging in"
  const INVALID_REFRESH := "Invalid refresh token"
  const USER_NOT_FOUND := "User not found"
  const REFRESH_ERROR := "Error refreshing token"
  const LOGGED_OUT := "Logged out successfully"
  const INVALID_VERIFICATION := "Invalid or expired verification token"
  const EMAIL_VERIFIED := "Email verified successfully"
  const VERIFY_ERROR := "Error verifying email"
  const ALREADY_VERIFIED := "Email is already verified"
  const VERIFICATION_SENT := "Verification email sent successfully"
  const RESEND_ERROR := "Error sending verification email"
  const RESET_REQUESTED := "If your email is registered, you will receive password reset instructions."
  const FORGOT_ERROR := "Error processing password reset request"
  const INVALID_RESET := "Invalid or expired reset token"
  const RESET_DONE := "Password reset successful"
  const RESET_ERROR := "Error resetting password"
  const WRONG_CURRENT_PASSWORD := "Current password is incorrect"
  const PASSWORD_UPDATED := "Password updated successfully"
  const CHANGE_ERROR := "Error changing password"
  const WRONG_PASSWORD := "Incorrect password"
  const ACCOUNT_DELETED := "Account deleted successfully"
  const DELETE_ERROR := "Error deleting account"
  const UPDATE_ERROR := "Error updating profile"
  const DETAILS_ERROR := "Error fetching user details"

  function ViewOf(id: ObjectId, u: User): UserView {
    UserView(id, u.userId, u.email, u.name, u.profilePicture, u.createdAt, u.role,
             u.registrationType, u.isEmailVerified, u.lastLogin)
  }

  function DetailsOf(u: User): UserDetails {
    UserDetails(u.email, u.name, u.profilePicture, u.isEmailVerified, u.registrationType)
  }

  /** The tokens one session hands out, and the store with its refresh record. */
  datatype Session = Session(state: State, accessToken: string, refreshToken: string)

  /**
   * `generateAccessToken`, `generateRefreshToken`, then `RefreshToken.create`
   * with a seven-day expiry; `None` when the record cannot be written.
   */
  function OpenSession(c: Crypto, s: State, id: ObjectId, now: nat): (r: Option<Session>)
    requires id in s.users
    ensures r.None? <==> c.sign(RefreshTokenRequest(id), now) == "" || c.sign(RefreshTokenRequest(id), now) in s.refreshTokens
    ensures r.Some? ==>
      && r.value.refreshToken == c.sign(RefreshTokenRequest(id), now)
      && r.value.accessToken == c.sign(AccessTokenRequest(id, s.users[id]), now)
      && r.value.refreshToken !in s.refreshTokens
      && r.value.state == s.(refreshTokens := s.refreshTokens[r.value.refreshToken := RefreshRecord(id, now + REFRESH_RECORD_TTL_MS)])
  {
    var access := c.sign(AccessTokenRequest(id, s.users[id]), now);
    var refresh := c.sign(RefreshTokenRequest(id), now);
    match CreateRefreshRecord(s, refresh, id, now + REFRESH_RECORD_TTL_MS)
    case None => None
    case Some(s1) => Some(Session(s1, access, refresh))
  }

  /** `POST /register` (register.controller.ts). */
  ghost function Register(c: Crypto, s: State, email: string, password: string, name: string,
                          picture: Option<string>, now: nat, freshId: ObjectId, token: string,
                          mailSent: bool): Outcome
  {
    if !IsEmailFormat(email) then Outcome(s, Fail(400, INVALID_EMAIL))
    else if !IsPasswordValid(password).isValid then Outcome(s, Fail(400, IsPasswordValid(password).message))
    else if FindByEmail(s, email).Some? then Outcome(s, Fail(400, USER_EXISTS))
    else InsertAccount(c, s, email, password, name, picture, now, freshId, token, mailSent)
  }

  /**
   * The part of register after its checks: insert the account, store its
   * verification token, send the email, and open the first session.
   */
  function InsertAccount(c: Crypto, s: State, email: string, password: string, name: string,
                         picture: Option<string>, now: nat, freshId: ObjectId, token: string,
                         mailSent: bool): Outcome
  {
    var draft := Draft(None, email, Some(password), name, picture, None, Some(EMAIL), Some(false), Some(now));
    match CreateUser(c, s, freshId, draft, now)
    case None => Outcome(s, Fail(500, REGISTER_ERROR))
    case Some(s1) =>
      var s2 := s1.(verificationTokens := s1.verificationTokens[token := TokenRecord(freshId, now + VERIFICATION_TTL_MS)]);
      if !mailSent then Outcome(s2, Fail(500, REGISTER_ERROR))
      else
        var u := s2.users[freshId];
        match OpenSession(c, s2, freshId, now)
        case None => Outcome(s2, Fail(500, REGISTER_ERROR))
        case Some(session) =>
          Outcome(session.state, Json(201, true, None,
            SessionTokens(u.userId, session.accessToken, session.refreshToken, Some(u.isEmailVerified))))
  }

  /** `POST /login` (login.controller.ts). */
  ghost function Login(c: Crypto, s: State, email: string, password: string, now: nat): Outcome {
    match FindByEmail(s, email)
    case None => Outcome(s, Fail(401, INVALID_CREDENTIALS))
    case Some(id) =>
      var u := s.users[id];
      match ComparePassword(c, password, u.password)
      case Throws => Outcome(s, Fail(500, LOGIN_ERROR))
      case Mismatch => Outcome(s, Fail(401, INVALID_CREDENTIALS))
      case Match =>
        var u' := u.(lastLogin := Some(now));
        match SaveUser(s, id, u')
        case None => Outcome(s, Fail(500, LOGIN_ERROR))
        case Some(s1) =>
          match OpenSession(c, s1, id, now)
          case None => Outcome(s1, Fail(500, LOGIN_ERROR))
          case Some(session) =>
            Outcome(session.state, Json(200, true, None,
              SessionTokens(u'.userId, session.accessToken, session.refreshToken, Some(u'.isEmailVerified))))
  }

  /**
   * `POST /refresh-token` (refresh-token.controller.ts): nothing is written.
   * The record must exist and not have expired (an expiry equal to `now`
   * still passes); the user is the one the signed token names.
   */
  function RefreshAccess(c: Crypto, s: State, token: string, now: nat): Reply {
    if token !in s.refreshTokens || s.refreshTokens[token].expiresAt < now then Fail(401, INVALID_REFRESH)
    else match c.verify(token, RefreshKey, now)
      case TokenExpired => Fail(500, REFRESH_ERROR)
      case TokenInvalid => Fail(500, REFRESH_ERROR)
      case Decoded(claims) =>
        match ParseObjectId(claims.id)
        case None => Fail(500, REFRESH_ERROR)
        case Some(id) =>
          if id !in s.users then Fail(401, USER_NOT_FOUND)
          else Json(200, true, None, AccessToken(c.sign(AccessTokenRequest(id, s.users[id]), now)))
  }

  /** `POST /logout` (logout.controller.ts): `deleteOne`, whether or not the record exists. */
  function Logout(s: State, token: string): Outcome {
    Outcome(s.(refreshTokens := s.refreshTokens - {token}), Json(200, true, Some(LOGGED_OUT), NoData))
  }

  /** `GET /verify-email/:token` (verify-email.controller.ts). */
  function VerifyEmail(c: Crypto, s: State, token: string, now: nat): Outcome {
    match LiveToken(s.verificationTokens, token, now)
    case None => Outcome(s, Fail(400, INVALID_VERIFICATION))
    case Some(record) =>
      var id := record.userId;
      if id !in s.users then Outcome(s, Fail(400, USER_NOT_FOUND))
      else
        var u' := s.users[id].(isEmailVerified := true);
        match SaveUser(s, id, u')
        case None => Outcome(s, Fail(500, VERIFY_ERROR))
        case Some(s1) =>
          var s2 := s1.(verificationTokens := s1.verificationTokens - {token});
          match OpenSession(c, s2, id, now)
          case None => Outcome(s2, Fail(500, VERIFY_ERROR))
          case Some(session) =>
            Outcome(session.state, Json(200, true, Some(EMAIL_VERIFIED),
              SessionTokens(u'.userId, session.accessToken, session.refreshToken, None)))
  }

  /** `POST /resend-verification` (verify-email.controller.ts), for the user the access token names. */
  function ResendVerification(s: State, claimsId: string, now: nat, token: string, mailSent: bool): Outcome {
    match ParseObjectId(claimsId)
    case None => Outcome(s, Fail(500, RESEND_ERROR))
    case Some(id) =>
      if id !in s.users then Outcome(s, Fail(404, USER_NOT_FOUND))
      else if s.users[id].isEmailVerified then Outcome(s, Fail(400, ALREADY_VERIFIED))
      else
        var s1 := s.(verificationTokens := Supersede(s.verificationTokens, id, token, now + VERIFICATION_TTL_MS));
        if !mailSent then Outcome(s1, Fail(500, RESEND_ERROR))
        else Outcome(s1, Json(200, true, Some(VERIFICATION_SENT), NoData))
  }

  /** `POST /forgot-password` (forgot-password.controller.ts). */
  ghost function ForgotPassword(s: State, email: string, now: nat, token: string, mailSent: bool): Outcome {
    match FindByEmail(s, email)
    case None => Outcome(s, Json(200, true, Some(RESET_REQUESTED), NoData))
    case Some(id) =>
      var s1 := s.(resetTokens := Supersede(s.resetTokens, id, token, now + RESET_TTL_MS));
      if !mailSent then Outcome(s1, Fail(500, FORGOT_ERROR))
      else Outcome(s1, Json(200, true, Some(RESET_REQUESTED), NoData))
  }

  /** `POST /reset-password` (forgot-password.controller.ts). */
  function ResetPassword(c: Crypto, s: State, token: string, newPassword: string, now: nat): Outcome {
    match LiveToken(s.resetTokens, token, now)
    case None => Outcome(s, Fail(400, INVALID_RESET))
    case Some(record) =>
      if !IsPasswordValid(newPassword).isValid then Outcome(s, Fail(400, IsPasswordValid(newPassword).message))
      else if record.userId !in s.users then Outcome(s, Fail(404, USER_NOT_FOUND))
      else
        var u := s.users[record.userId];
        var u' := u.(password := Some(PasswordOnSave(c, u.registrationType, newPassword)));
        match SaveUser(s, record.userId, u')
        case None => Outcome(s, Fail(500, RESET_ERROR))
        case Some(s1) => Outcome(s1.(resetTokens := s1.resetTokens - {token}), Json(200, true, Some(RESET_DONE), NoData))
  }

  /** `PUT /change-password` (change-password.controller.ts). */
  function ChangePassword(c: Crypto, s: State, claimsId: string, current: string, newPassword: string): Outcome {
    match ParseObjectId(claimsId)
    case None => Outcome(s, Fail(500, CHANGE_ERROR))
    case Some(id) =>
      if id !in s.users then Outcome(s, Fail(404, USER_NOT_FOUND))
      else
        var u := s.users[id];
        match ComparePassword(c, current, u.password)
        case Throws => Outcome(s, Fail(500, CHANGE_ERROR))
        case Mismatch => Outcome(s, Fail(401, WRONG_CURRENT_PASSWORD))
        case Match =>
          if !IsPasswordValid(newPassword).isValid then Outcome(s, Fail(400, IsPasswordValid(newPassword).message))
          else
            match SaveUser(s, id, u.(password := Some(PasswordOnSave(c, u.registrationType, newPassword))))
            case None => Outcome(s, Fail(500, CHANGE_ERROR))
            case Some(s1) => Outcome(s1, Json(200, true, Some(PASSWORD_UPDATED), NoData))
  }

  /** `DELETE /delete-account` (delete-account.controller.ts): refresh records first, then the user. */
  function DeleteAccount(c: Crypto, s: State, claimsId: string, password: string): Outcome {
    match ParseObjectId(claimsId)
    case None => Outcome(s, Fail(500, DELETE_ERROR))
    case Some(id) =>
      if id !in s.users then Outcome(s, Fail(404, USER_NOT_FOUND))
      else
        match ComparePassword(c, password, s.users[id].password)
        case Throws => Outcome(s, Fail(500, DELETE_ERROR))
        case Mismatch => Outcome(s, Fail(401, WRONG_PASSWORD))
        case Match =>
          var s1 := s.(refreshTokens := WithoutSessionsOf(s.refreshTokens, id));
          Outcome(s1.(users := s1.users - {id}), Json(200, true, Some(ACCOUNT_DELETED), NoData))
  }

  /** JavaScript truthiness of an optional string field. */
  predicate Truthy(v: Option<string>) {
    v.Some? && v.value != ""
  }

  /**
   * `PUT /update-profile` (update-profile.controller.ts): `findByIdAndUpdate`
   * with the truthy fields; the name setter trims, and no validator runs.
   */
  function UpdateProfile(s: State, claimsId: string, name: Option<string>, picture: Option<string>): Outcome {
    match ParseObjectId(claimsId)
    case None => Outcome(s, Fail(500, UPDATE_ERROR))
    case Some(id) =>
      if id !in s.users then Outcome(s, Fail(404, USER_NOT_FOUND))
      else
        var u := s.users[id];
        var u' := u.(name := if Truthy(name) then Trim(name.value) else u.name,
                     profilePicture := if Truthy(picture) then picture.value else u.profilePicture);
        Outcome(s.(users := s.users[id := u']), Json(200, true, None, Profile(ViewOf(id, u'))))
  }

  /**
   * `GET /user` (get-user.controller.ts): the five public fields of the
   * account the access token names.
   */
  function GetUserDetails(s: State, claimsId: string): (r: Reply)
    ensures r.Json? && r.success == (r.status == 200)
    ensures r.status == 200 <==> ParseObjectId(claimsId).Some? && ParseObjectId(claimsId).value in s.users
    ensures r.status == 200 ==> r.payload == Details(DetailsOf(s.users[ParseObjectId(claimsId).value]))
    ensures r.status != 200 ==> r.payload == NoData && r.status in {404, 500}
  {
    match ParseObjectId(claimsId)
    case None => Fail(500, DETAILS_ERROR)
    case Some(id) =>
      if id !in s.users then Fail(404, USER_NOT_FOUND)
      else Json(200, true, None, Details(DetailsOf(s.users[id])))
  }
}
