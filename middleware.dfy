/**
 * The `protect(...roles)` middleware of src/middleware/auth.middleware.ts:
 * take the token from the `Authorization` header, verify it with the access
 * secret, check the role, and either pass the claims on or answer.
 */
module Middleware {
  import opened Wrappers
  import opened Text
  import opened UserModel

  const TOKEN_REQUIRED := "Access token is required"
  const TOKEN_EXPIRED := "Token expired"
  const TOKEN_INVALID := "Invalid token"
  const NOT_PERMITTED := "You do not have permission to perform this action"

  /** Either the request goes on with the decoded claims, or the middleware answers it. */
  datatype Decision =
    | Pass(claims: Claims)
    | Reject(status: nat, message: string, isExpired: bool)

  /** `authHeader && authHeader.split(' ')[1]`, when that is a non-empty string. */
  function BearerToken(header: Option<string>): (token: Option<string>)
    ensures token.Some? ==> token.value != "" && ' ' !in token.value
  {
    if header.None? then None
    else
      var parts := Split(header.value, ' ');
      if |parts| > 1 && parts[1] != "" then
        assert parts[1] in parts;
        Some(parts[1])
      else None
  }

  /** `roles.length > 0 && !roles.includes(decoded.role)`: a missing role claim is never included. */
  predicate Forbidden(roles: seq<UserRole>, claims: Claims) {
    |roles| > 0 && !(claims.role.Some? && claims.role.value in roles)
  }

  /** `protect(...roles)` on one request, at time `now`. */
  function Protect(c: Crypto, roles: seq<UserRole>, header: Option<string>, now: nat): Decision {
    match BearerToken(header)
    case None => Reject(401, TOKEN_REQUIRED, false)
    case Some(token) =>
      match c.verify(token, AccessKey, now)
      case TokenExpired => Reject(401, TOKEN_EXPIRED, true)
      case TokenInvalid => Reject(401, TOKEN_INVALID, false)
      case Decoded(claims) =>
        if Forbidden(roles, claims) then Reject(403, NOT_PERMITTED, false) else Pass(claims)
  }

  /**
   * The request reaches the handler exactly when the header carries a token,
   * the access secret accepts it, and the role (if any are asked for) is one
   * of those allowed; the handler then sees what the token decoded to.
   */
  lemma PassExactly(c: Crypto, roles: seq<UserRole>, header: Option<string>, now: nat)
    ensures Protect(c, roles, header, now).Pass? <==>
      && BearerToken(header).Some?
      && c.verify(BearerToken(header).value, AccessKey, now).Decoded?
      && !Forbidden(roles, c.verify(BearerToken(header).value, AccessKey, now).claims)
    ensures Protect(c, roles, header, now).Pass? ==>
      Protect(c, roles, header, now).claims == c.verify(BearerToken(header).value, AccessKey, now).claims
  {
  }

  /**
   * Every refusal is a 401 or a 403; 403 only for a valid token with the
   * wrong role, and `isExpired` only for an expired one.
   */
  lemma RejectionsAreClassified(c: Crypto, roles: seq<UserRole>, header: Option<string>, now: nat)
    requires Protect(c, roles, header, now).Reject?
    ensures var d := Protect(c, roles, header, now);
      && (d.status == 401 || d.status == 403)
      && (d.status == 403 <==> BearerToken(header).Some? && c.verify(BearerToken(header).value, AccessKey, now).Decoded?)
      && (d.isExpired <==> BearerToken(header).Some? && c.verify(BearerToken(header).value, AccessKey, now) == TokenExpired)
  {
  }

  /** Without a token, the access secret is never consulted. */
  lemma MissingTokenIsRefusedFirst(c: Crypto, roles: seq<UserRole>, header: Option<string>, now: nat)
    requires BearerToken(header).None?
    ensures Protect(c, roles, header, now) == Reject(401, TOKEN_REQUIRED, false)
  {
  }

  /** An empty role list admits every valid token, whatever its role claim. */
  lemma NoRolesAdmitsAnyValidToken(c: Crypto, header: Option<string>, now: nat)
    requires BearerToken(header).Some? && c.verify(BearerToken(header).value, AccessKey, now).Decoded?
    ensures Protect(c, [], header, now).Pass?
  {
  }

  /** The first space-separated word after a word without spaces is what `split(' ')[1]` picks. */
  lemma {:induction false} SplitAfterScheme(scheme: string, token: string)
    requires ' ' !in scheme && ' ' !in token
    ensures Split(scheme + " " + token, ' ') == [scheme, token]
  {
    var h := scheme + " " + token;
    var i := IndexOf(h, ' ');
    assert h[|scheme|] == ' ';
    assert i == |scheme|;
    assert h[..i] == scheme;
    assert h[i + 1..] == token;
    assert IndexOf(token, ' ') == |token|;
  }

  /**
   * `Bearer <token>` with an access token this service signed for a user
   * lets that user through any route open to their role, and the id the
   * handler reads back names the same document. The premise is what the
   * model takes on trust from jsonwebtoken: a token it signed verifies, before
   * expiry, to the claims it was given.
   */
  lemma OwnAccessTokenPasses(c: Crypto, roles: seq<UserRole>, id: ObjectId, u: User, signedAt: nat, now: nat)
    requires var token := c.sign(AccessTokenRequest(id, u), signedAt);
      token != "" && ' ' !in token
      && c.verify(token, AccessKey, now) == Decoded(AccessTokenRequest(id, u).claims)
    requires |roles| == 0 || u.role in roles
    ensures var token := c.sign(AccessTokenRequest(id, u), signedAt);
      Protect(c, roles, Some("Bearer " + token), now) == Pass(AccessTokenRequest(id, u).claims)
    ensures ParseObjectId(AccessTokenRequest(id, u).claims.id) == Some(id)
  {
    var token := c.sign(AccessTokenRequest(id, u), signedAt);
    SplitAfterScheme("Bearer", token);
    assert "Bearer" + " " + token == "Bearer " + token;
    ObjectIdRoundTrip(id);
  }
}
