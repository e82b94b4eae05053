/**
 * The four MongoDB collections the controllers work on, as one value, and
 * the store operations they call: `findOne({ email })`, `User.create`,
 * `user.save()`, `RefreshToken.create`, and the single-use token reads and
 * writes. Unique indexes (`_id`, `email`, `userId`, refresh `token`) are
 * checked where documents are written; a violation is an error, as the
 * driver's duplicate-key error is.
 */
module Persistence {
  import opened Wrappers
  import opened Text
  import opened UserModel

  /** A document of `email_verification_tokens` or `password_reset_tokens`, keyed by its token. */
  datatype TokenRecord = TokenRecord(userId: ObjectId, expiresAt: nat)

  /** A document of `refresh_tokens`, keyed by its (unique) token. */
  datatype RefreshRecord = RefreshRecord(user: ObjectId, expiresAt: nat)

  datatype State = State(
    users: map<ObjectId, User>,
    verificationTokens: map<string, TokenRecord>,
    resetTokens: map<string, TokenRecord>,
    refreshTokens: map<string, RefreshRecord>)

  /** Lifetimes in milliseconds: verification 5 minutes, reset 15 minutes, refresh record 7 days. */
  const VERIFICATION_TTL_MS: nat := 5 * 60 * 1000
  const RESET_TTL_MS: nat := 15 * 60 * 1000
  const REFRESH_RECORD_TTL_MS: nat := 7 * 24 * 60 * 60 * 1000

  /** The refresh record lives as long as the refresh token's own signature does. */
  lemma RefreshRecordMatchesTokenLifetime()
    ensures REFRESH_RECORD_TTL_MS == REFRESH_TOKEN_LIFETIME_SECONDS * 1000
  {
  }

  /** No two accounts share an email (the unique index on `email`). */
  ghost predicate DistinctEmails(users: map<ObjectId, User>) {
    forall a, b :: a in users && b in users && a != b ==> users[a].email != users[b].email
  }

  /** No two accounts share a present `userId` (the sparse unique index on `userId`). */
  ghost predicate DistinctUserIds(users: map<ObjectId, User>) {
    forall a, b :: a in users && b in users && a != b && users[a].userId.Some? ==> users[a].userId != users[b].userId
  }

  /** What the unique indexes keep true of the users collection. */
  ghost predicate Valid(s: State) {
    DistinctEmails(s.users) && DistinctUserIds(s.users)
  }

  /** A document may be written at `id` when no other account holds its email or its `userId`. */
  ghost predicate Fits(users: map<ObjectId, User>, id: ObjectId, u: User) {
    && (forall o :: o in users && o != id ==> users[o].email != u.email)
    && (forall o :: o in users && o != id && u.userId.Some? ==> users[o].userId != u.userId)
  }

  lemma {:induction false} WriteKeepsValid(s: State, id: ObjectId, u: User)
    requires Valid(s) && Fits(s.users, id, u)
    ensures Valid(s.(users := s.users[id := u]))
  {
    var users := s.users[id := u];
    assert DistinctEmails(users) by {
      forall a, b | a in users && b in users && a != b ensures users[a].email != users[b].email {
        if a != id && b != id {
          assert users[a] == s.users[a] && users[b] == s.users[b];
        }
      }
    }
    assert DistinctUserIds(users) by {
      forall a, b | a in users && b in users && a != b && users[a].userId.Some?
        ensures users[a].userId != users[b].userId
      {
        if a != id && b != id {
          assert users[a] == s.users[a] && users[b] == s.users[b];
        }
      }
    }
  }

  /** `User.findOne({ email })`: the filter is normalised like the stored field. */
  ghost function FindByEmail(s: State, email: string): (r: Option<ObjectId>)
    ensures r.Some? ==> r.value in s.users && s.users[r.value].email == NormalizeEmail(email)
    ensures r.None? <==> forall id :: id in s.users ==> s.users[id].email != NormalizeEmail(email)
  {
    var e := NormalizeEmail(email);
    if exists id :: id in s.users && s.users[id].email == e then
      Some(var id :| id in s.users && s.users[id].email == e; id)
    else None
  }

  /** With distinct emails, the account found is the one holding that email. */
  lemma FindByEmailIsUnique(s: State, email: string, id: ObjectId)
    requires Valid(s) && id in s.users && s.users[id].email == NormalizeEmail(email)
    ensures FindByEmail(s, email) == Some(id)
  {
  }

  predicate EmailTaken(s: State, email: string, except: ObjectId) {
    exists o :: o in s.users && o != except && s.users[o].email == email
  }

  predicate UserIdTaken(s: State, userId: Option<string>, except: ObjectId) {
    userId.Some? && exists o :: o in s.users && o != except && s.users[o].userId == userId
  }

  /**
   * `User.create`: build the document, validate it, and insert it unless
   * its `_id`, `email` or `userId` is already taken. `None` is the thrown error.
   */
  function CreateUser(c: Crypto, s: State, id: ObjectId, d: Draft, now: nat): (r: Option<State>)
    ensures r.Some? ==> r.value == s.(users := s.users[id := NewDocument(c, id, d, now)]) && id !in s.users
  {
    var u := NewDocument(c, id, d, now);
    if !DraftValidates(c, id, d, now) then None
    else if id in s.users || EmailTaken(s, u.email, id) || UserIdTaken(s, u.userId, id) then None
    else Some(s.(users := s.users[id := u]))
  }

  /** `user.save()` on an existing document: validation, then the unique `userId` index. */
  function SaveUser(s: State, id: ObjectId, u: User): (r: Option<State>)
    ensures r.Some? ==> r.value == s.(users := s.users[id := u]) && Validates(u)
  {
    if !Validates(u) || UserIdTaken(s, u.userId, id) then None
    else Some(s.(users := s.users[id := u]))
  }

  /** `RefreshToken.create`: the token is required and unique. */
  function CreateRefreshRecord(s: State, token: string, user: ObjectId, expiresAt: nat): (r: Option<State>)
    ensures r.None? <==> token == "" || token in s.refreshTokens
    ensures r.Some? ==> r.value == s.(refreshTokens := s.refreshTokens[token := RefreshRecord(user, expiresAt)])
  {
    if token == "" || token in s.refreshTokens then None
    else Some(s.(refreshTokens := s.refreshTokens[token := RefreshRecord(user, expiresAt)]))
  }

  /** `findOne({ token, expiresAt: { $gt: now } })` on a single-use token collection. */
  function LiveToken(m: map<string, TokenRecord>, token: string, now: nat): (r: Option<TokenRecord>)
    ensures r.Some? <==> token in m && m[token].expiresAt > now
    ensures r.Some? ==> r.value == m[token]
  {
    if token in m && m[token].expiresAt > now then Some(m[token]) else None
  }

  /** `deleteMany({ userId })` on a single-use token collection. */
  function WithoutTokensOf(m: map<string, TokenRecord>, user: ObjectId): (r: map<string, TokenRecord>)
    ensures forall t :: t in r <==> t in m && m[t].userId != user
    ensures forall t :: t in r ==> r[t] == m[t]
  {
    map t | t in m && m[t].userId != user :: m[t]
  }

  /** `deleteMany({ userId })` then `create(...)`: the user's earlier tokens are superseded. */
  function Supersede(m: map<string, TokenRecord>, user: ObjectId, token: string, expiresAt: nat): map<string, TokenRecord> {
    WithoutTokensOf(m, user)[token := TokenRecord(user, expiresAt)]
  }

  /** `RefreshToken.deleteMany({ user })`. */
  function WithoutSessionsOf(m: map<string, RefreshRecord>, user: ObjectId): (r: map<string, RefreshRecord>)
    ensures forall t :: t in r <==> t in m && m[t].user != user
    ensures forall t :: t in r ==> r[t] == m[t]
  {
    map t | t in m && m[t].user != user :: m[t]
  }

  /** The tokens of one user in a single-use collection. */
  function TokensOf(m: map<string, TokenRecord>, user: ObjectId): set<string> {
    set t | t in m && m[t].userId == user
  }

  /** The refresh records of one user. */
  function SessionsOf(m: map<string, RefreshRecord>, user: ObjectId): set<string> {
    set t | t in m && m[t].user == user
  }

  /** After superseding, the user holds exactly the new token, and nobody else's tokens moved. */
  lemma {:induction false} SupersedeLeavesOne(m: map<string, TokenRecord>, user: ObjectId, token: string, expiresAt: nat)
    requires token !in m
    ensures TokensOf(Supersede(m, user, token, expiresAt), user) == {token}
    ensures forall t :: t in m && m[t].userId != user ==> t in Supersede(m, user, token, expiresAt) && Supersede(m, user, token, expiresAt)[t] == m[t]
    ensures forall t :: t in m && m[t].userId == user ==> t !in Supersede(m, user, token, expiresAt)
  {
    var r := Supersede(m, user, token, expiresAt);
    assert forall t :: t in TokensOf(r, user) ==> t == token;
  }
}
