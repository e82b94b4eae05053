# Express authentication API: a Dafny model

This project models the authentication core of an Express/Mongoose service.

- **Email accounts.** Register, login, refresh-token, logout, email verification and its resend, forgotten and reset password, change password, delete account, update profile and user details.
- **Social sign-in.** The Google, Facebook and Microsoft OAuth callbacks.
- **User document.** Its schema setters, defaults, unique indexes and save hooks; `comparePassword`; the two token generators.
- **Validation.** The password rules and the email pattern.
- **Middleware.** The `protect(...roles)` route guard.

The four MongoDB collections the controllers touch are one value, `Persistence.State`:

- `users`
- `email_verification_tokens`
- `password_reset_tokens`
- `refresh_tokens`

Each controller is a function from the store before a request to the store after it plus the HTTP reply (`AuthControllers`, `SocialAuth`). A thrown error becomes the controller's 500 reply (or the social error redirect). Writes made before the throw stay, as they do in MongoDB.

`Service.AuthStore` holds the collections as fields and runs each controller step by step:

- `findOne` is a scan over the users.
- `User.create`, `user.save()` and `RefreshToken.create` are separate methods.
- Every method is proved to produce exactly the store and reply the controller function describes.
- Every method is proved to keep the unique-index invariant (`Persistence.Valid`: distinct emails and distinct `userId`s).

The foreign libraries are parameters, not code:

- **bcrypt and jsonwebtoken** are the arrow functions of a `UserModel.Crypto` value. The model reads `bcrypt.compare(candidate, stored)` as `hash(candidate) == stored`, for any stored string. It assumes nothing about `hash`, `sign` or `verify` themselves. Where a property needs a signed token to verify, the lemma says so in its premise.
- **Clock, ids and random tokens.** `Date.now()`, the ObjectId Mongoose assigns and the random token hex string are arguments.
- **Sending an email** is a boolean `mailSent`: returned or threw.
- **OAuth provider round trips** are datatypes holding either the failure or the fetched profile.

The lemmas in `SessionProperties`, `TokenProperties`, `SocialProperties`, `ErrorPaths`, `Invariants` and `Middleware` state what the service promises its clients. Among them:

- A refused login does not reveal whether the email exists.
- Verification and reset links work once.
- A resend supersedes earlier links.
- Deleting an account takes its refresh records with it.
- A user's own access token passes the guard.

The code differs from its documentation in places. The model follows the code, for example:

- `getUserDetails` returns five fields, not the whole document.
- A password set on a social account is stored unhashed.
- The email is stored trimmed and lower-cased.

## Model

| member | source | states |
|---|---|---|
| Validation.IsPasswordValid | src/controllers/auth/register.controller.ts:11-33 | accepted exactly when all five rules (length 8, upper, lower, digit, special) hold; a rejection carries the message of the first failing rule in the fixed order |
| Validation.ShortPasswordRejected | src/controllers/auth/register.controller.ts:12-17 | any password under eight characters gets the length message, whatever else it contains |
| Validation.AcceptedPasswordIsLongEnough | src/controllers/auth/register.controller.ts:11-33 | an accepted password has at least eight characters, so it is never empty |
| Validation.MessageNamesRule | src/controllers/auth/register.controller.ts:11-33 | when rule k is the first to fail, the message is that rule's message |
| Validation.IsEmailFormat | src/controllers/auth/register.controller.ts:40-47 | an accepted email contains an `@` |
| Validation.FormatImpliesPattern | src/controllers/auth/register.controller.ts:40-47 | whatever the scanning check accepts matches `^[^\s@]+@[^\s@]+\.[^\s@]+$` |
| Validation.PatternImpliesFormat | src/controllers/auth/register.controller.ts:40-47 | whatever matches the pattern is accepted by the scanning check |
| Validation.EmailFormatIsPattern | src/controllers/auth/register.controller.ts:40-47 | the scanning check and the regular expression accept exactly the same strings |
| Validation.EmailFormatHasOneAt | src/controllers/auth/register.controller.ts:40-47 | an accepted email has exactly one `@`, and it is not the first character |
| Text.TrimKeepsMiddle | src/models/User.ts:13-19 | `trim` removes exactly the leading and trailing white space: the result is a slice of the input, only blanks precede and follow it, and its ends are not blank |
| Text.TrimOfBlank | src/models/User.ts:26-30 | trimming an all-blank string gives the empty string |
| Text.TrimIdempotent | src/models/User.ts:13-19 | trimming twice is trimming once |
| Text.ToLowerPointwise | src/models/User.ts:13-19 | `lowercase` leaves no upper-case letter, maps each character by itself, and keeps white space where it was |
| Text.Split | src/middleware/auth.middleware.ts:11 | `split` on a one-character separator gives at least one part, and no part contains the separator |
| Text.JoinSplit | src/middleware/auth.middleware.ts:11 | splitting on a separator and joining again with it gives back the header |
| Text.EncodedHasNoDelimiters | src/models/User.ts:33-37 | `encodeURIComponent` output contains no `&`, `#`, `=` or space |
| UserModel.ObjectIdString | src/models/User.ts:72-78 | an ObjectId's string is 24 characters long |
| UserModel.ParseObjectId | src/controllers/auth/get-user.controller.ts:10 | a string casts to an ObjectId exactly when it is 24 hexadecimal digits |
| UserModel.ObjectIdRoundTrip | src/models/User.ts:72-78 | the id string stored as `userId` and carried in tokens casts back to the same document id |
| UserModel.ObjectIdStringInjective | src/models/User.ts:8-12 | distinct documents get distinct `userId` strings |
| UserModel.NormalizedEmailShape | src/models/User.ts:13-19 | a stored email has no upper-case letter and no white space at either end |
| UserModel.NormalizeEmailIdempotent | src/models/User.ts:13-19 | applying the trim and lowercase setters to a stored email changes nothing, so a query filter finds it |
| UserModel.AvatarNameStaysInItsParameter | src/models/User.ts:31-38 | the default picture is the avatar URL with the encoded name (or `User`) in its `name` parameter, which the name cannot end or extend |
| UserModel.DefaultPictureForNamelessUser | src/models/User.ts:33-37 | a nameless document's avatar names `User` |
| UserModel.NewDocument | src/models/User.ts:6-89 | `User.create` sets `userId` to the document's own id whatever the draft passed, stores the email trimmed and lower-cased, and stores a password exactly when one was given, hashed exactly for an EMAIL account |
| UserModel.NewDocumentDefaults | src/models/User.ts:26-63 | an undefined role, registration type, verification flag, last login or picture becomes USER, EMAIL, false, null or the avatar of the trimmed name; a given one is kept |
| UserModel.PasswordOnSave | src/models/User.ts:81-89 | the save hook stores a bcrypt digest exactly for EMAIL accounts, and the text unchanged for the others |
| UserModel.ComparePassword | src/models/User.ts:92-94 | `comparePassword` throws exactly when no password is stored, and matches exactly when the candidate's hash is the stored string, digest or plain text |
| UserModel.SavedPasswordMatches | src/models/User.ts:81-94 | a password saved on an EMAIL account is accepted again |
| UserModel.UnhashedPasswordMatchesOnlyPreimages | src/models/User.ts:81-94 | a password saved on a non-EMAIL account is kept as given, never makes the compare throw, and matches exactly the candidates whose hash is that text; the password itself works only if it is its own hash, and a text that is no candidate's hash is never matched |
| UserModel.AccessTokenRequest | src/models/User.ts:97-108 | an access token carries id, email, name and role, is signed with the access secret and lives 15 minutes |
| UserModel.RefreshTokenRequest | src/models/User.ts:111-113 | a refresh token carries the id alone, is signed with the refresh secret and lives 7 days |
| UserModel.TokenKindsAreSeparate | src/models/User.ts:97-113 | the two token kinds use different secrets, name the same id, which casts back to the user, and the access token expires sooner |
| Persistence.RefreshRecordMatchesTokenLifetime | src/controllers/auth/login.controller.ts:38-42 | the seven days of a refresh record equal the seven days the refresh token's signature lives |
| Persistence.WriteKeepsValid | src/models/User.ts:8-19 | writing a document whose email and `userId` no other account holds keeps the unique-index invariant |
| Persistence.FindByEmail | src/controllers/auth/login.controller.ts:10 | `findOne({ email })` finds an account holding the normalised email, and finds none exactly when no account holds it |
| Persistence.FindByEmailIsUnique | src/controllers/auth/login.controller.ts:10 | under the invariant, the account found is the one holding the email |
| Persistence.CreateUser | src/controllers/auth/register.controller.ts:70-78 | a successful `User.create` inserts the built document under a fresh id and changes nothing else |
| Persistence.SaveUser | src/controllers/auth/login.controller.ts:30-31 | a successful `save()` replaces only that document, and only with one that passes schema validation |
| Persistence.CreateRefreshRecord | src/controllers/auth/login.controller.ts:38-42 | `RefreshToken.create` fails exactly on an empty or duplicate token, and otherwise adds only that record |
| Persistence.LiveToken | src/controllers/auth/verify-email.controller.ts:13-24 | the query with `expiresAt: { $gt: now }` finds a token exactly when it is stored and expires after now |
| Persistence.WithoutTokensOf | src/controllers/auth/verify-email.controller.ts:88 | `deleteMany({ userId })` removes exactly that user's tokens and keeps the rest unchanged |
| Persistence.WithoutSessionsOf | src/controllers/auth/delete-account.controller.ts:31-32 | `RefreshToken.deleteMany({ user })` removes exactly that user's records and keeps the rest unchanged |
| Persistence.SupersedeLeavesOne | src/controllers/auth/forgot-password.controller.ts:22-31 | after deleting a user's tokens and creating one, the user holds exactly the new token, and other users' tokens are untouched |
| AuthControllers.OpenSession | src/controllers/auth/register.controller.ts:93-101 | opening a session signs both tokens for the user, adds one refresh record expiring in seven days, and fails exactly when the refresh token is empty or already stored |
| AuthControllers.GetUserDetails | src/controllers/auth/get-user.controller.ts:5-37 | the reply is 500 for an id that does not cast, 404 for a missing user, else the five public fields of that user |
| SocialAuth.MicrosoftEmail | src/controllers/social-auth/microsoft-auth.controller.ts:67-71 | the email is `mail` when truthy, else `userPrincipalName` when truthy, else none |
| Middleware.BearerToken | src/middleware/auth.middleware.ts:10-19 | the token taken from the header is non-empty and contains no space |
| Middleware.PassExactly | src/middleware/auth.middleware.ts:6-55 | for `Middleware.Protect`: a request reaches the handler exactly when it carries a token the access secret accepts whose role is allowed, and the handler sees the decoded claims |
| Middleware.RejectionsAreClassified | src/middleware/auth.middleware.ts:28-52 | every refusal is 401 or 403; 403 exactly for a valid token with a disallowed role; `isExpired` exactly for an expired token |
| Middleware.MissingTokenIsRefusedFirst | src/middleware/auth.middleware.ts:13-19 | without a token the answer is 401 `Access token is required`, before any verification |
| Middleware.NoRolesAdmitsAnyValidToken | src/middleware/auth.middleware.ts:28 | `protect()` with no roles admits every valid token |
| Middleware.SplitAfterScheme | src/middleware/auth.middleware.ts:11 | `split(' ')` of `scheme token` is the two words |
| Middleware.OwnAccessTokenPasses | src/middleware/auth.middleware.ts:10-38 | `Bearer` plus an access token signed for a user passes any route open to that user's role, and its id casts back to that user |
| Invariants.CreateUserKeepsValid | src/models/User.ts:8-19 | a successful `User.create` keeps emails and `userId`s distinct |
| Invariants.SaveUserKeepsValid | src/models/User.ts:8-19 | a successful `save()` that keeps the email keeps the invariant |
| Invariants.SameUsersSameValidity | src/controllers/auth/logout.controller.ts:9 | a write to the token collections only keeps the invariant |
| Invariants.OpenSessionKeepsUsers | src/controllers/auth/login.controller.ts:38-42 | opening a session writes only the refresh records |
| Invariants.RegisterKeepsValid | src/controllers/auth/register.controller.ts:35-119 | register keeps the invariant, whatever its outcome |
| Invariants.LoginKeepsValid | src/controllers/auth/login.controller.ts:5-60 | login keeps the invariant |
| Invariants.VerifyEmailKeepsValid | src/controllers/auth/verify-email.controller.ts:9-66 | email verification keeps the invariant |
| Invariants.ResetPasswordKeepsValid | src/controllers/auth/forgot-password.controller.ts:49-102 | a password reset keeps the invariant |
| Invariants.ChangePasswordKeepsValid | src/controllers/auth/change-password.controller.ts:6-58 | a change of password keeps the invariant |
| Invariants.DeleteAccountKeepsValid | src/controllers/auth/delete-account.controller.ts:6-48 | deleting an account keeps the invariant |
| Invariants.UpdateProfileKeepsValid | src/controllers/auth/update-profile.controller.ts:5-38 | a profile update keeps the invariant |
| Invariants.FinishSocialLoginKeepsValid | src/controllers/social-auth/google-auth.controller.ts:72-87 | issuing tokens after a social sign-in keeps the invariant |
| Invariants.GoogleCallbackKeepsValid | src/controllers/social-auth/google-auth.controller.ts:27-93 | the Google callback keeps the invariant |
| Invariants.FacebookCallbackKeepsValid | src/controllers/social-auth/facebook-auth.controller.ts:22-99 | the Facebook callback keeps the invariant |
| Invariants.MicrosoftCallbackKeepsValid | src/controllers/social-auth/microsoft-auth.controller.ts:24-136 | the Microsoft callback keeps the invariant |
| SessionProperties.LoginFailureIsUniform | src/controllers/auth/login.controller.ts:10-27 | login answers the same 401 `Invalid credentials` exactly when no account holds the email or its password mismatches, and such a refusal writes nothing |
| SessionProperties.PasswordlessLoginIsServerError | src/controllers/auth/login.controller.ts:20-59 | logging into an account with no password makes `comparePassword` throw, and the answer is 500 with nothing written |
| SessionProperties.LoginOpensSession | src/controllers/auth/login.controller.ts:20-52 | a successful login matched the password of the account holding the email, stamped `lastLogin`, added one seven-day refresh record and returned both tokens signed for that account |
| SessionProperties.LoginNeedsAccount | src/controllers/auth/login.controller.ts:10-17 | only an account holding the email can be logged into |
| SessionProperties.RegisterCreatesUnverifiedAccount | src/controllers/auth/register.controller.ts:35-111 | a 201 means the email and password checks passed and no account held the email; the new account is an unverified EMAIL account with the hashed password and its own id as `userId`; a five-minute verification token and a refresh record were stored; nothing else changed |
| SessionProperties.RegisterRefusesTakenEmail | src/controllers/auth/register.controller.ts:60-67 | an email already held, in any letter case or padding, gets 400 and nothing is written |
| SessionProperties.RegisterRefusalWritesNothing | src/controllers/auth/register.controller.ts:40-67 | every 400 from register leaves the store unchanged |
| SessionProperties.UnsentMailLeavesAccountBehind | src/controllers/auth/register.controller.ts:70-118 | a failed verification email never gives success; the 500 leaves the new account and its verification token stored, without a session |
| SessionProperties.LoginAcceptsStoredDigest | src/controllers/auth/login.controller.ts:20-27 | an account whose stored digest is the password's hash is never refused as bad credentials |
| SessionProperties.RegisteredAccountCanLogIn | src/controllers/auth/register.controller.ts:70-78 | after a successful register, logging in with the same email and password is not refused as bad credentials |
| SessionProperties.RefreshSucceedsExactly | src/controllers/auth/refresh-token.controller.ts:6-50 | a refresh succeeds exactly when the record exists and is unexpired, the refresh secret accepts the token, and its id names a stored user; the new access token is signed for that user; nothing is written |
| SessionProperties.SessionRefreshRoundTrip | src/controllers/auth/refresh-token.controller.ts:11-42 | a refresh token from a session keeps refreshing for the user for the seven days of its record, while jsonwebtoken accepts it |
| SessionProperties.RefreshRecordHonouredAtExpiry | src/controllers/auth/refresh-token.controller.ts:11-18 | a refresh record is not refused as invalid at the millisecond of its expiry |
| SessionProperties.SingleUseTokenDeadAtExpiry | src/controllers/auth/verify-email.controller.ts:13-24 | a verification or reset token is no longer found at the millisecond of its expiry, and both links are refused with 400 and no write |
| SessionProperties.LogoutRevokesOnlyThatRecord | src/controllers/auth/logout.controller.ts:4-22 | after logout that token cannot refresh, every other token refreshes as before, and nothing else changes |
| SessionProperties.LogoutIsIdempotent | src/controllers/auth/logout.controller.ts:9 | logging out twice is logging out once, and an unknown token still gets 200 |
| SessionProperties.DeleteAccountCascades | src/controllers/auth/delete-account.controller.ts:22-35 | a deleted account loses its refresh records; other accounts and their records are untouched; its verification and reset tokens remain |
| SessionProperties.DeleteAccountNeedsPassword | src/controllers/auth/delete-account.controller.ts:22-29 | without the right password, or with none stored, nothing is deleted |
| SessionProperties.UpdateProfileTouchesOnlyNameAndPicture | src/controllers/auth/update-profile.controller.ts:10-27 | only the trimmed name and the picture change, each only when given non-empty; the reply is the document without its password |
| SessionProperties.BlankNameBreaksLaterLogins | src/controllers/auth/update-profile.controller.ts:10-17 | no validator runs on update, so an all-blank name is stored empty, and the next login with the right password fails its save with 500 |
| SessionProperties.OwnTokenReadsOwnDetails | src/controllers/auth/get-user.controller.ts:10-29 | the id in a user's own access token reads back that user's details |
| TokenProperties.VerifyEmailSucceeds | src/controllers/auth/verify-email.controller.ts:9-58 | a successful verification used a stored, unexpired token whose account exists; it marks that account verified, consumes the token and opens one new session for it |
| TokenProperties.VerificationTokenIsSingleUse | src/controllers/auth/verify-email.controller.ts:35-37 | a second visit with the same link is refused |
| TokenProperties.ExpiredVerificationTokenRejected | src/controllers/auth/verify-email.controller.ts:13-24 | an expired token gets 400 and nothing is written |
| TokenProperties.VerificationTokenLivesFiveMinutes | src/controllers/auth/register.controller.ts:81-86 | a newly stored verification token is live exactly for the 300000 ms after its creation |
| TokenProperties.ResendSupersedes | src/controllers/auth/verify-email.controller.ts:68-100 | after a resend the account holds exactly the new token, every earlier link is refused, and other accounts' tokens and the other collections are untouched |
| TokenProperties.ResendRefusedWhenVerified | src/controllers/auth/verify-email.controller.ts:79-85 | a verified account gets 400 `Email is already verified` and nothing is written |
| TokenProperties.ForgotPasswordDoesNotRevealAccounts | src/controllers/auth/forgot-password.controller.ts:8-40 | when the email goes out, the reply is the same 200 whether or not the email has an account; an unknown email writes nothing |
| TokenProperties.ForgotPasswordIssuesOneToken | src/controllers/auth/forgot-password.controller.ts:22-31 | a known account is left with exactly one reset token, valid for fifteen minutes, and only the reset tokens change |
| TokenProperties.ResetPasswordTakesEffect | src/controllers/auth/forgot-password.controller.ts:49-95 | a successful reset used a live token and a valid password, stored the new password on the token's account, consumed the token, and left every session alive |
| TokenProperties.ResetTokenIsSingleUse | src/controllers/auth/forgot-password.controller.ts:90 | the reset link works once |
| TokenProperties.ResetOnSocialAccountStoresPlaintext | src/models/User.ts:81-89 | a reset on a social account stores the password unhashed; a login then matches exactly the candidates whose hash is that text, so the new password logs in only if it is its own hash |
| TokenProperties.ChangePasswordTakesEffect | src/controllers/auth/change-password.controller.ts:6-50 | a successful change matched the current password and a valid new one; only the password field changed; on an EMAIL account the new password then matches |
| TokenProperties.ChangePasswordRequiresCurrent | src/controllers/auth/change-password.controller.ts:24-57 | a wrong current password gets 401 and a missing one gets 500, and neither writes anything |
| SocialProperties.FinishSocialLoginRedirects | src/controllers/social-auth/google-auth.controller.ts:72-91 | for `SocialAuth.FinishSocialLogin`: after sign-in the browser goes to the callback page with both tokens and the stored `userId` exactly when the refresh record is written; otherwise it goes to the error page with nothing written |
| SocialProperties.MissingCodeIsRejected | src/controllers/social-auth/google-auth.controller.ts:31-34 | with no authorisation code, all three providers answer 400 and write nothing |
| SocialProperties.FailedExchangeRedirectsToError | src/controllers/social-auth/facebook-auth.controller.ts:32-98 | a failed provider exchange sends the browser to the error page and writes nothing, for all three providers |
| SocialProperties.GoogleCreatesVerifiedAccount | src/controllers/social-auth/google-auth.controller.ts:51-64 | for an unknown Google email, a successful redirect means the account was created and the redirect carries its id as `userId`; any account created is the only new one, verified, GOOGLE, with no password, its own id as `userId`, and the given or default picture |
| SocialProperties.GoogleSignsInExistingAccount | src/controllers/social-auth/google-auth.controller.ts:65-69 | a linked account is signed in without any write to users; for an unlinked one the only possible write sets the `sub` and `lastLogin`, and a successful redirect means it happened |
| SocialProperties.FacebookCreatesVerifiedAccount | src/controllers/social-auth/facebook-auth.controller.ts:54-67 | for an unknown Facebook email, a successful redirect means the account was created and carries its id; any account created is the only new one, verified, FACEBOOK, with no password, and a missing or empty picture URL gives the default avatar |
| SocialProperties.SocialSignInChangesOnlyLoginAndLink | src/controllers/social-auth/facebook-auth.controller.ts:68-75 | for `SocialAuth.SocialSignIn`: signing in an existing account stamps `lastLogin`, records the provider id only where no `userId` is stored, and changes nothing else |
| SocialProperties.FacebookSignsInExistingAccount | src/controllers/social-auth/facebook-auth.controller.ts:54-75 | the only possible write to users is the sign-in of the account holding the email (`lastLogin`, and the id where unlinked), and a successful redirect means it happened |
| SocialProperties.MicrosoftSignsInExistingAccount | src/controllers/social-auth/microsoft-auth.controller.ts:91-112 | the only possible write to users is the sign-in of the account holding the email, and a successful redirect means it happened |
| SocialProperties.MicrosoftWithoutEmailRedirectsToError | src/controllers/social-auth/microsoft-auth.controller.ts:67-71 | a Microsoft profile with neither `mail` nor `userPrincipalName` goes to the error page before any lookup |
| SocialProperties.MicrosoftCreatesVerifiedAccount | src/controllers/social-auth/microsoft-auth.controller.ts:74-104 | for an unknown Microsoft email, a successful redirect means the account was created and carries its id; any account created is the only new one, verified, MICROSOFT, with no password, and its picture is the photo as a data URL or the default avatar |
| SocialProperties.SocialAccountRefusesPasswordLogin | src/controllers/auth/login.controller.ts:20-59 | an account created by a provider, with no password, can never be logged into with a password: every attempt is a 500 |
| ErrorPaths.RefreshRefusals | src/controllers/auth/refresh-token.controller.ts:11-49 | a missing or expired record gets 401, a token jsonwebtoken rejects (expired or invalid) gets 500, and a token naming no stored account gets 401 `User not found` |
| ErrorPaths.UnknownAccountIsNotFound | src/controllers/auth/verify-email.controller.ts:70-77 | an id naming no account gets 404 from resend-verification, change-password, delete-account, update-profile and get-user, and nothing is written |
| ErrorPaths.OrphanVerificationTokenKept | src/controllers/auth/verify-email.controller.ts:26-33 | a live verification token whose account is gone gets 400, and the token stays stored |
| ErrorPaths.ResetRefusals | src/controllers/auth/forgot-password.controller.ts:53-83 | a reset refuses a dead token with 400, then a weak password with the rule's message (the token is not consumed), then a missing account with 404; each refusal writes nothing |
| ErrorPaths.WeakNewPasswordRefused | src/controllers/auth/change-password.controller.ts:34-41 | after the current password matches, a new password breaking a rule gets 400 with that rule's message and nothing changes |
| SocialProperties.EmptyGooglePayloadRejected | src/controllers/social-auth/google-auth.controller.ts:43-47 | a Google ticket without a payload gets 400 `Invalid token` and nothing is written |
| Service.AuthStore.FindOne | src/controllers/auth/register.controller.ts:60 | scanning the users finds exactly the account `FindByEmail` specifies |
| Service.AuthStore.Create | src/controllers/auth/register.controller.ts:70-78 | the insertion happens exactly when `User.create` succeeds, with that result |
| Service.AuthStore.Save | src/controllers/auth/login.controller.ts:30-31 | the save happens exactly when `save()` succeeds, with that result |
| Service.AuthStore.Open | src/controllers/auth/login.controller.ts:33-42 | the session tokens and stored record are those `OpenSession` specifies |
| Service.AuthStore.Register | src/controllers/auth/register.controller.ts:35-119 | the new store and reply are those of `AuthControllers.Register`, and the invariant is kept |
| Service.AuthStore.InsertAccount | src/controllers/auth/register.controller.ts:70-111 | creation, verification token, email and session, step by step, with the store and reply of `AuthControllers.InsertAccount` |
| Service.AuthStore.Login | src/controllers/auth/login.controller.ts:5-60 | the new store and reply are those of `AuthControllers.Login`, and the invariant is kept |
| Service.AuthStore.Refresh | src/controllers/auth/refresh-token.controller.ts:6-50 | the reply is that of `AuthControllers.RefreshAccess`, and nothing is written |
| Service.AuthStore.Logout | src/controllers/auth/logout.controller.ts:4-22 | the new store and reply are those of `AuthControllers.Logout`, and the invariant is kept |
| Service.AuthStore.VerifyEmail | src/controllers/auth/verify-email.controller.ts:9-66 | the new store and reply are those of `AuthControllers.VerifyEmail`, and the invariant is kept |
| Service.AuthStore.ResendVerification | src/controllers/auth/verify-email.controller.ts:68-112 | the new store and reply are those of `AuthControllers.ResendVerification`, and the invariant is kept |
| Service.AuthStore.ForgotPassword | src/controllers/auth/forgot-password.controller.ts:8-47 | the new store and reply are those of `AuthControllers.ForgotPassword`, and the invariant is kept |
| Service.AuthStore.ResetPassword | src/controllers/auth/forgot-password.controller.ts:49-102 | the new store and reply are those of `AuthControllers.ResetPassword`, and the invariant is kept |
| Service.AuthStore.ChangePassword | src/controllers/auth/change-password.controller.ts:6-58 | the new store and reply are those of `AuthControllers.ChangePassword`, and the invariant is kept |
| Service.AuthStore.DeleteAccount | src/controllers/auth/delete-account.controller.ts:6-48 | the new store and reply are those of `AuthControllers.DeleteAccount`, and the invariant is kept |
| Service.AuthStore.UpdateProfile | src/controllers/auth/update-profile.controller.ts:5-38 | the new store and reply are those of `AuthControllers.UpdateProfile`, and the invariant is kept |
| Service.AuthStore.GetUserDetails | src/controllers/auth/get-user.controller.ts:5-37 | the reply is that of `AuthControllers.GetUserDetails`, and nothing is written |
| Service.AuthStore.FinishSocial | src/controllers/social-auth/google-auth.controller.ts:72-91 | tokens, record and redirect as `SocialAuth.FinishSocialLogin` specifies, and the invariant is kept |
| Service.AuthStore.GoogleCallback | src/controllers/social-auth/google-auth.controller.ts:27-93 | the new store and reply are those of `SocialAuth.GoogleCallback`, and the invariant is kept |
| Service.AuthStore.FacebookCallback | src/controllers/social-auth/facebook-auth.controller.ts:22-99 | the new store and reply are those of `SocialAuth.FacebookCallback`, and the invariant is kept |
| Service.AuthStore.MicrosoftCallback | src/controllers/social-auth/microsoft-auth.controller.ts:24-136 | the new store and reply are those of `SocialAuth.MicrosoftCallback`, and the invariant is kept |

## Left out

- bcrypt (salt generation, hashing) and jsonwebtoken (signing, verification, expiry) are foreign code. They are the uninterpreted functions of `Crypto`. A bcrypt comparison is read as equality of the candidate's hash with the stored string. The one property taken on trust is the premise of the lemmas that need it: a token the service signed verifies, before expiry, to its claims.
- The OAuth exchanges with Google, Facebook and Microsoft are network calls: code for tokens, ID-token verification, and the profile and photo requests. Their results are parameters. Google's `tokens.id_token!` assertion is folded into the failed exchange.
- The base64 encoding of the Microsoft photo is a parameter: the already-encoded text.
- The Microsoft photo is fetched before the lookup, even for an existing account. Only its effect on a new account is modelled.
- Sending emails (`src/utils/email.ts`) is left out, and so are the link URLs they contain. The model only records whether the send returned or threw.
- `getGoogleAuthURL`, `getFacebookAuthURL` and `getMicrosoftAuthURL` are left out. They only build a redirect URL from environment variables and write no state.
- Console logging and the `error` fields of 500 replies are left out.
- `Date.now()`, the ObjectId Mongoose assigns and `crypto.randomBytes(32)` are parameters. The random token is taken as given, and the proofs that need it fresh say so in their premises.
- Mongoose `timestamps` (`updatedAt`) and the TTL index that purges expired token documents are left out. Expiry is checked at read time, as the queries do.
- Concurrency between requests is left out. Each controller runs alone on the store.
- Request bodies are typed: a field that is absent or not a string is not modelled. `findByIdAndUpdate` with an undefined field is modelled through `Option`.
- UserModel.ComparePassword: what bcryptjs does with a stored string that is not a well-formed hash is not modelled. It answers false, or throws `Invalid salt version` for a 60-character string, which the login would turn into a 500. The model answers Mismatch there unless the candidate's hash equals the string.
- UnhashedPasswordMatchesOnlyPreimages: "matches exactly the candidates whose hash is the text" rests on the comparison above. For a stored text that is a real bcrypt hash, bcryptjs matches its preimage, as the model does. For a malformed 60-character text it throws where the model answers Mismatch.
- Text.ToLower only folds ASCII letters. JavaScript's full Unicode case mapping, and lengths in UTF-16 code units, are not modelled.
- UserModel.ParseObjectId: the cast of a 12-character string to an ObjectId is not modelled. Only the 24-hex-digit form the service produces is accepted.
- Persistence.Valid does not carry the fact that stored emails are normalised, though every write normalises them. `UserModel.NormalizedEmailShape` proves it of each written email instead.
- Aliasing: the store methods do not model aliasing between documents. Each document is a value in a map field, and `findById` returns a copy.
- The database connection (`src/config/db.ts`) is I/O and is not part of this model. `Service.AuthStore` starts from an empty store.
