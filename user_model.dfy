/**
 * The user document (src/models/User.ts and src/types/auth/user.interface.ts):
 * its fields, the setters and defaults Mongoose applies when a document is
 * built, the two pre-save hooks, `comparePassword`, and the claim sets the
 * two token generators sign.
 *
 * bcrypt and jsonwebtoken are not modelled: they are the arrow functions of a
 * `Crypto` value, about which the model assumes nothing.
 */
module UserModel {
  import opened Wrappers
  import opened Text

  datatype UserRole = USER | ADMIN

  datatype RegistrationType = EMAIL | GOOGLE | FACEBOOK | MICROSOFT

  /** A MongoDB ObjectId: twelve bytes. */
  type ObjectId = n: nat | n < 0x1_0000_0000_0000_0000_0000_0000

  const OBJECT_ID_HEX_DIGITS: nat := 24

  /** `ObjectId.prototype.toString`: 24 lower-case hexadecimal digits. */
  function ObjectIdString(id: ObjectId): (s: string)
    ensures |s| == OBJECT_ID_HEX_DIGITS
  {
    HexDigits(id, OBJECT_ID_HEX_DIGITS)
  }

  /** Casting a string to an ObjectId, as `findById` and claims lookups do; `None` is a CastError. */
  function ParseObjectId(s: string): (r: Option<ObjectId>)
    ensures r.Some? <==> |s| == OBJECT_ID_HEX_DIGITS && forall i :: 0 <= i < |s| ==> IsHexDigit(s[i])
  {
    if |s| == OBJECT_ID_HEX_DIGITS && forall i :: 0 <= i < |s| ==> IsHexDigit(s[i]) then
      Pow16Of24();
      Some(ParseHex(s))
    else None
  }

  /** The id string a token carries names the same document again. */
  lemma ObjectIdRoundTrip(id: ObjectId)
    ensures ParseObjectId(ObjectIdString(id)) == Some(id)
  {
    Pow16Of24();
    ParseHexDigits(id, OBJECT_ID_HEX_DIGITS);
  }

  lemma ObjectIdStringInjective(a: ObjectId, b: ObjectId)
    requires ObjectIdString(a) == ObjectIdString(b)
    ensures a == b
  {
    ObjectIdRoundTrip(a);
    ObjectIdRoundTrip(b);
  }

  /**
   * What the `password` field holds: a bcrypt digest, or, for a non-EMAIL
   * account whose password was set after creation, the text as given (the
   * hashing hook skips such accounts).
   */
  datatype StoredPassword = Digest(digest: string) | Plain(text: string)

  /** The two JWT secrets, JWT_ACCESS_SECRET and JWT_REFRESH_SECRET. */
  datatype SigningKey = AccessKey | RefreshKey

  /** A JWT payload as the service reads it back. */
  datatype Claims = Claims(id: string, email: Option<string>, name: Option<string>, role: Option<UserRole>)

  /** The arguments of one `jwt.sign` call: payload, secret, `expiresIn` in seconds. */
  datatype SignRequest = SignRequest(claims: Claims, key: SigningKey, lifetimeSeconds: nat)

  /** What `jwt.verify` does: decode, or throw TokenExpiredError, or throw any other error. */
  datatype Verdict = Decoded(claims: Claims) | TokenExpired | TokenInvalid

  /**
   * The foreign libraries: `hash` is bcrypt's hash, `sign` is `jwt.sign` at a
   * given time (milliseconds), `verify` is `jwt.verify` with a secret at a given time.
   */
  datatype Crypto = Crypto(
    hash: string -> string,
    sign: (SignRequest, nat) -> string,
    verify: (string, SigningKey, nat) -> Verdict)

  datatype User = User(
    userId: Option<string>,
    email: string,
    password: Option<StoredPassword>,
    name: string,
    profilePicture: string,
    createdAt: nat,
    role: UserRole,
    registrationType: RegistrationType,
    isEmailVerified: bool,
    lastLogin: Option<nat>)

  /** What a controller passes to `User.create`; `None` is a field left undefined. */
  datatype Draft = Draft(
    userId: Option<string>,
    email: string,
    password: Option<string>,
    name: string,
    profilePicture: Option<string>,
    role: Option<UserRole>,
    registrationType: Option<RegistrationType>,
    isEmailVerified: Option<bool>,
    lastLogin: Option<nat>)

  /** The `trim` and `lowercase` setters of the email path, also applied to query filters. */
  function NormalizeEmail(email: string): (r: string)
    ensures |r| <= |email|
  {
    ToLower(Trim(email))
  }

  /** A stored email has no upper-case letter and no white space at either end. */
  lemma NormalizedEmailShape(email: string)
    ensures var r := NormalizeEmail(email);
      NoUpper(r) && (r != [] ==> !IsSpace(r[0]) && !IsSpace(r[|r| - 1]))
  {
    TrimKeepsMiddle(email);
    ToLowerPointwise(Trim(email));
  }

  lemma NormalizeEmailIdempotent(email: string)
    ensures NormalizeEmail(NormalizeEmail(email)) == NormalizeEmail(email)
  {
    var n := NormalizeEmail(email);
    NormalizedEmailShape(email);
    TrimmedIsFixed(n);
    LowerOfLowerIsFixed(n);
  }

  const AVATAR_PREFIX := "https://ui-avatars.com/api/?name="
  const AVATAR_SUFFIX := "&background=2563EB&color=ffffff"

  /** The default of `profilePicture`: an avatar URL naming the (trimmed) name, or 'User'. */
  function DefaultProfilePicture(name: string): string {
    AVATAR_PREFIX + EncodeURIComponent(if name == "" then "User" else name) + AVATAR_SUFFIX
  }

  /** The name sits inside the `name` parameter of the avatar URL and cannot end it or add another. */
  lemma AvatarNameStaysInItsParameter(name: string)
    ensures var shown := EncodeURIComponent(if name == "" then "User" else name);
      && DefaultProfilePicture(name) == AVATAR_PREFIX + shown + AVATAR_SUFFIX
      && '&' !in shown && '#' !in shown && '=' !in shown && ' ' !in shown
  {
    EncodedHasNoDelimiters(if name == "" then "User" else name);
  }

  lemma DefaultPictureForNamelessUser()
    ensures DefaultProfilePicture("") == AVATAR_PREFIX + "User" + AVATAR_SUFFIX
  {
    assert forall i :: 0 <= i < |"User"| ==> IsUnreserved("User"[i]);
  }

  /** The hashing pre-save hook: only an EMAIL account's new password is hashed. */
  function PasswordOnSave(c: Crypto, kind: RegistrationType, plaintext: string): (p: StoredPassword)
    ensures kind == EMAIL <==> p.Digest?
    ensures p.Digest? ==> p.digest == c.hash(plaintext)
    ensures p.Plain? ==> p.text == plaintext
  {
    if kind == EMAIL then Digest(c.hash(plaintext)) else Plain(plaintext)
  }

  datatype Comparison = Match | Mismatch | Throws

  /** The string the `password` field holds, digest or not. */
  function StoredText(p: StoredPassword): string {
    match p
    case Digest(d) => d
    case Plain(t) => t
  }

  /**
   * `comparePassword`: `bcrypt.compare` throws when the document has no
   * password; otherwise it re-hashes the candidate and compares with the
   * stored string, whether that string is a digest or a text stored as given.
   */
  function ComparePassword(c: Crypto, candidate: string, stored: Option<StoredPassword>): (r: Comparison)
    ensures r == Throws <==> stored.None?
    ensures r == Match <==> stored.Some? && c.hash(candidate) == StoredText(stored.value)
  {
    match stored
    case None => Throws
    case Some(p) => if c.hash(candidate) == StoredText(p) then Match else Mismatch
  }

  /** A password saved on an EMAIL account is accepted again by `comparePassword`. */
  lemma SavedPasswordMatches(c: Crypto, plaintext: string)
    ensures ComparePassword(c, plaintext, Some(PasswordOnSave(c, EMAIL, plaintext))) == Match
  {
  }

  /**
   * A password saved on any other account is kept as given, so a login
   * matches exactly the candidates whose hash is that text: the password
   * itself works only if it is its own hash, and a text that is nobody's
   * hash is never matched.
   */
  lemma UnhashedPasswordMatchesOnlyPreimages(c: Crypto, kind: RegistrationType, plaintext: string, candidate: string)
    requires kind != EMAIL
    ensures var r := ComparePassword(c, candidate, Some(PasswordOnSave(c, kind, plaintext)));
      r != Throws && (r == Match <==> c.hash(candidate) == plaintext)
    ensures ComparePassword(c, plaintext, Some(PasswordOnSave(c, kind, plaintext))) == Match <==> c.hash(plaintext) == plaintext
    ensures (forall q :: c.hash(q) != plaintext) ==> ComparePassword(c, candidate, Some(PasswordOnSave(c, kind, plaintext))) == Mismatch
  {
  }

  /**
   * A new document as `User.create` builds it: setters, defaults (role USER,
   * registration EMAIL, not verified, lastLogin null, the avatar URL), then
   * the pre-save hooks, which set `userId` to the document's own id whatever
   * was passed and hash an EMAIL account's password.
   */
  function NewDocument(c: Crypto, id: ObjectId, d: Draft, now: nat): (u: User)
    ensures u.userId == Some(ObjectIdString(id))
    ensures u.email == NormalizeEmail(d.email)
    ensures u.password.Some? <==> d.password.Some?
    ensures u.password.Some? ==> (u.password.value.Digest? <==> u.registrationType == EMAIL)
  {
    var name := Trim(d.name);
    var kind := d.registrationType.GetOr(EMAIL);
    User(
      userId := Some(ObjectIdString(id)),
      email := NormalizeEmail(d.email),
      password := if d.password.Some? then Some(PasswordOnSave(c, kind, d.password.value)) else None,
      name := name,
      profilePicture := if d.profilePicture.Some? then d.profilePicture.value else DefaultProfilePicture(name),
      createdAt := now,
      role := d.role.GetOr(USER),
      registrationType := kind,
      isEmailVerified := d.isEmailVerified.GetOr(false),
      lastLogin := d.lastLogin)
  }

  /**
   * The schema defaults: a field the draft leaves undefined becomes role
   * USER, registration EMAIL, not verified, no last login, and the avatar
   * URL of the trimmed name; a field it gives is kept.
   */
  lemma NewDocumentDefaults(c: Crypto, id: ObjectId, d: Draft, now: nat)
    ensures var u := NewDocument(c, id, d, now);
      && u.role == (if d.role.Some? then d.role.value else USER)
      && u.registrationType == (if d.registrationType.Some? then d.registrationType.value else EMAIL)
      && u.isEmailVerified == (if d.isEmailVerified.Some? then d.isEmailVerified.value else false)
      && (d.lastLogin.None? ==> u.lastLogin.None?)
      && u.name == Trim(d.name) && u.createdAt == now
      && u.profilePicture == (if d.profilePicture.Some? then d.profilePicture.value else DefaultProfilePicture(Trim(d.name)))
  {
  }

  /** Schema validation on save: email and name are required, and a password exactly for EMAIL accounts. */
  predicate Validates(u: User) {
    u.email != "" && u.name != "" && (u.registrationType == EMAIL ==> u.password.Some?)
  }

  /** Validation of a new document, which runs on the values before the password is hashed. */
  predicate DraftValidates(c: Crypto, id: ObjectId, d: Draft, now: nat) {
    var u := NewDocument(c, id, d, now);
    u.email != "" && u.name != ""
    && (u.registrationType == EMAIL ==> d.password.Some? && d.password.value != "")
  }

  const ACCESS_TOKEN_LIFETIME_SECONDS: nat := 15 * 60
  const REFRESH_TOKEN_LIFETIME_SECONDS: nat := 7 * 24 * 60 * 60

  /** `generateAccessToken`: id, email, name and role, signed with the access secret for 15 minutes. */
  function AccessTokenRequest(id: ObjectId, u: User): (r: SignRequest)
    ensures r.key == AccessKey && r.lifetimeSeconds == 15 * 60
    ensures r.claims == Claims(ObjectIdString(id), Some(u.email), Some(u.name), Some(u.role))
  {
    SignRequest(Claims(ObjectIdString(id), Some(u.email), Some(u.name), Some(u.role)), AccessKey, ACCESS_TOKEN_LIFETIME_SECONDS)
  }

  /** `generateRefreshToken`: the id alone, signed with the refresh secret for 7 days. */
  function RefreshTokenRequest(id: ObjectId): (r: SignRequest)
    ensures r.key == RefreshKey && r.lifetimeSeconds == 7 * 24 * 60 * 60
    ensures r.claims == Claims(ObjectIdString(id), None, None, None)
  {
    SignRequest(Claims(ObjectIdString(id), None, None, None), RefreshKey, REFRESH_TOKEN_LIFETIME_SECONDS)
  }

  /** The two token kinds never share a secret, and a refresh token names its user and nothing else. */
  lemma TokenKindsAreSeparate(id: ObjectId, u: User)
    ensures AccessTokenRequest(id, u).key != RefreshTokenRequest(id).key
    ensures AccessTokenRequest(id, u).claims.id == RefreshTokenRequest(id).claims.id
    ensures ParseObjectId(RefreshTokenRequest(id).claims.id) == Some(id)
    ensures AccessTokenRequest(id, u).lifetimeSeconds < RefreshTokenRequest(id).lifetimeSeconds
  {
    ObjectIdRoundTrip(id);
  }
}
