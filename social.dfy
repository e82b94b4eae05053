/**
 * The three OAuth callbacks of src/controllers/social-auth. The provider
 * round trips (code exchange, profile and photo requests) are foreign calls:
 * each callback receives their result as a parameter, a failed exchange
 * being the thrown error that sends the browser to the error page.
 */
module SocialAuth {
  import opened Wrappers
  import opened Text
  import opened UserModel
  import opened Persistence
  import opened AuthControllers

  const CODE_MISSING := "Authorization code missing"
  const INVALID_ID_TOKEN := "Invalid token"

  /** The `code` query parameter is a non-empty string. */
  predicate HasCode(code: Option<string>) {
    code.Some? && code.value != ""
  }

  /** A stored `userId` counts as linked when it is truthy. */
  predicate IsLinked(u: User) {
    u.userId.Some? && u.userId.value != ""
  }

  /** Tokens, refresh record and the redirect to `/auth/callback` carrying them. */
  function FinishSocialLogin(c: Crypto, s: State, id: ObjectId, now: nat): Outcome
    requires id in s.users
  {
    match OpenSession(c, s, id, now)
    case None => Outcome(s, Redirect(ErrorPage))
    case Some(session) =>
      Outcome(session.state, Redirect(CallbackWithTokens(session.accessToken, session.refreshToken, s.users[id].userId)))
  }

  // ---------------------------------------------------------------------
  // Google

  /** The claims of a verified Google ID token that the callback reads. */
  datatype GoogleProfile = GoogleProfile(sub: string, email: string, name: string, picture: Option<string>)

  /** `getToken` and `verifyIdToken`: they throw, or yield a ticket whose payload may be missing. */
  datatype GoogleExchange = GoogleFailed | GoogleTicket(payload: Option<GoogleProfile>)

  /** `GET /google/callback` (google-auth.controller.ts). */
  ghost function GoogleCallback(c: Crypto, s: State, code: Option<string>, exchange: GoogleExchange,
                                now: nat, freshId: ObjectId): Outcome
  {
    if !HasCode(code) then Outcome(s, Fail(400, CODE_MISSING))
    else match exchange
      case GoogleFailed => Outcome(s, Redirect(ErrorPage))
      case GoogleTicket(None) => Outcome(s, Fail(400, INVALID_ID_TOKEN))
      case GoogleTicket(Some(p)) =>
        match FindByEmail(s, p.email)
        case None =>
          var draft := Draft(Some(p.sub), p.email, None, p.name, p.picture, Some(USER), Some(GOOGLE), Some(true), Some(now));
          (match CreateUser(c, s, freshId, draft, now)
           case None => Outcome(s, Redirect(ErrorPage))
           case Some(s1) => FinishSocialLogin(c, s1, freshId, now))
        case Some(id) =>
          var u := s.users[id];
          if IsLinked(u) then FinishSocialLogin(c, s, id, now)
          else
            match SaveUser(s, id, u.(userId := Some(p.sub), lastLogin := Some(now)))
            case None => Outcome(s, Redirect(ErrorPage))
            case Some(s1) => FinishSocialLogin(c, s1, id, now)
  }

  // ---------------------------------------------------------------------
  // Facebook

  /** The Graph API `me` fields the callback reads; `pictureUrl` is `picture.data.url`. */
  datatype FacebookProfile = FacebookProfile(id: string, email: string, name: string, pictureUrl: Option<string>)

  /** The token and profile requests: they throw, or yield the profile. */
  datatype FacebookExchange = FacebookFailed | FacebookProfileFetched(profile: FacebookProfile)

  /**
   * Sign-in of an existing account by a social provider: `lastLogin` is set,
   * and the provider's id is recorded only when no `userId` is stored.
   */
  function SocialSignIn(u: User, providerId: string, now: nat): User {
    u.(lastLogin := Some(now), userId := if IsLinked(u) then u.userId else Some(providerId))
  }

  /** `GET /facebook/callback` (facebook-auth.controller.ts). */
  ghost function FacebookCallback(c: Crypto, s: State, code: Option<string>, exchange: FacebookExchange,
                                  now: nat, freshId: ObjectId): Outcome
  {
    if !HasCode(code) then Outcome(s, Fail(400, CODE_MISSING))
    else match exchange
      case FacebookFailed => Outcome(s, Redirect(ErrorPage))
      case FacebookProfileFetched(p) =>
        match FindByEmail(s, p.email)
        case None =>
          var picture := if Truthy(p.pictureUrl) then p.pictureUrl else None;
          var draft := Draft(Some(p.id), p.email, None, p.name, picture, Some(USER), Some(FACEBOOK), Some(true), Some(now));
          (match CreateUser(c, s, freshId, draft, now)
           case None => Outcome(s, Redirect(ErrorPage))
           case Some(s1) => FinishSocialLogin(c, s1, freshId, now))
        case Some(id) =>
          match SaveUser(s, id, SocialSignIn(s.users[id], p.id, now))
          case None => Outcome(s, Redirect(ErrorPage))
          case Some(s1) => FinishSocialLogin(c, s1, id, now)
  }

  // ---------------------------------------------------------------------
  // Microsoft

  /** The Graph API `me` fields the callback reads. */
  datatype MicrosoftProfile = MicrosoftProfile(id: string, displayName: string, mail: Option<string>, userPrincipalName: Option<string>)

  /** The token and profile requests: they throw, or yield the profile. */
  datatype MicrosoftExchange = MicrosoftFailed | MicrosoftProfileFetched(profile: MicrosoftProfile)

  const PHOTO_PREFIX := "data:image/jpeg;base64,"

  /** `mail || userPrincipalName`, when that is truthy. */
  function MicrosoftEmail(p: MicrosoftProfile): (r: Option<string>)
    ensures r.Some? ==> r.value != ""
    ensures r.None? <==> !Truthy(p.mail) && !Truthy(p.userPrincipalName)
    ensures Truthy(p.mail) ==> r == p.mail
  {
    if Truthy(p.mail) then p.mail
    else if Truthy(p.userPrincipalName) then p.userPrincipalName
    else None
  }

  /**
   * `GET /microsoft/callback` (microsoft-auth.controller.ts). `photo` is the
   * base64 text of the photo, or `None` when fetching it failed.
   */
  ghost function MicrosoftCallback(c: Crypto, s: State, code: Option<string>, exchange: MicrosoftExchange,
                                   photo: Option<string>, now: nat, freshId: ObjectId): Outcome
  {
    if !HasCode(code) then Outcome(s, Fail(400, CODE_MISSING))
    else match exchange
      case MicrosoftFailed => Outcome(s, Redirect(ErrorPage))
      case MicrosoftProfileFetched(p) =>
        match MicrosoftEmail(p)
        case None => Outcome(s, Redirect(ErrorPage))
        case Some(email) =>
          match FindByEmail(s, email)
          case None =>
            var picture := if photo.Some? then Some(PHOTO_PREFIX + photo.value) else None;
            var draft := Draft(Some(p.id), email, None, p.displayName, picture, Some(USER), Some(MICROSOFT), Some(true), Some(now));
            (match CreateUser(c, s, freshId, draft, now)
             case None => Outcome(s, Redirect(ErrorPage))
             case Some(s1) => FinishSocialLogin(c, s1, freshId, now))
          case Some(id) =>
            match SaveUser(s, id, SocialSignIn(s.users[id], p.id, now))
            case None => Outcome(s, Redirect(ErrorPage))
            case Some(s1) => FinishSocialLogin(c, s1, id, now)
  }
}
