# Account lifecycle of the jobman auth service, in Dafny

This project models the request handlers of the jobman authentication
service that drive an account through its life: sign-up, sign-in, reading
the current user, resending and redeeming the email-verification token,
and the forgot / reset / change password flow. One `AuthService` object
holds the state the handlers touch:

- the user directory, a map from id to `UserRecord` (username, email, password hash, country,
  profile picture, its public id, `emailVerified` as 0 or 1, verification token, reset token and expiry);
- the wall clock in milliseconds;
- the outbox, the sequence of envelopes handed to the broker. Each envelope names the exchange
  `jobman-email-notification`, the routing key `auth-email`, the receiver (email or username),
  the template and an optional link.

Each handler is a method that returns `Ok(reply)` or `BadRequest(message, comingFrom)`,
using the source's own messages and origin tags. Sign-in and reading the current user write nothing.
They are functions over the directory.

The directory's lookups are exact-match searches (module `Directory`). When several records match,
`Find` returns the least id. Its writes are pure functions on the map. They change the named fields of
one record and leave every other record alone.

Tokens are twenty random bytes in lower-case base16 (section 8 of RFC 4648), modelled in module `Hex`.
Every such token is 40 characters from `[0-9a-f]`. Decoding undoes encoding, so distinct byte strings
give distinct tokens.

Collaborators whose workings are not visible are fixed but arbitrary functions:

- the request schemas (each yields the first detail message or nothing);
- bcrypt hashing and comparison;
- the JWT signer;
- `isEmail`, `lowerCase` and `firstLetterUppercase`.

Values drawn from the outside arrive as parameters: the random bytes, the generated uuid, the image
upload and the parsed `userId`.

Publishing is an append to the outbox that always returns. `publishDirectMessage` catches and logs
every failure, so a handler always goes on after it. A directory write made before the publish
therefore always stands.

Behaviour reproduced as the code has it:

- `changePassword` refuses the request unless `currentPassword` EQUALS `newPassword`
  (src/controllers/password.ts:101). This holds in `ChangePassword`, which reads the body as an object; as written,
  line 100 throws before this test (see "## Findings").
- `resendEmail` looks the user up by `lowerCase(email)`, but writes the new token to the id taken from
  the body, and re-reads that id (src/controllers/current-user.ts:29,44).
- Sign-up mails `/confirm_email?v_token=<token>`, while resend mails `/verify-email?token=<token>`.
- `resetPassword` never compares the stored expiry with the clock. The reset-token lookup's own filter
  is the class constant `lookupChecksExpiry`. `ResetTokenLifetime` and
  `ResetTokenWithoutFilterNeverExpires` show what each setting means.
- The reset handler does not touch the reset token (src/controllers/password.ts:76-89), and the model's
  `updatePassword` writes only the hash, so a redeemed reset token can be redeemed again (`ResetTokenReplayable`).
- Verification clears the token to the empty string. A request that carries the empty string as its
  token therefore matches any already-verified record (`EmptyTokenFindsVerifiedUser`).
- The error messages are the source's: a failed resend says 'Email is invalid', and an unknown
  verification token says 'Verification token is either invalid or expired'.

## Model

| member | source | states |
|---|---|---|
| Hex.Encode | src/controllers/signup.ts:31-32 | a token has two characters per random byte, all from the lower-case hex alphabet |
| Hex.Decode | src/controllers/signup.ts:32 | reading a token back yields half as many bytes as it has characters |
| Hex.DecodeEncode | src/controllers/signup.ts:31-32 | decoding a token gives back exactly the random bytes it was made from |
| Hex.EncodeInjective | src/controllers/password.ts:31-32 | two tokens are equal exactly when their random bytes are equal |
| Hex.Token | src/controllers/current-user.ts:26-27 | a token from 20 random bytes is 40 lower-case hex characters, and no other 20 bytes give the same token |
| Records.Omit | src/controllers/signin.ts:38 | the public view drops the password and nothing else: putting the password back restores the record, and no other view does |
| Directory.Find | src/controllers/password.ts:25-28 | a lookup finds nothing exactly when no record matches the query, and otherwise the least matching id |
| Directory.UpdatePasswordToken | src/controllers/password.ts:37 | the named record gets the reset token and expiry; its other fields and every other record stay as they were |
| Directory.UpdatePassword | src/controllers/password.ts:78 | the named record gets the new hash; its other fields and every other record stay as they were |
| Directory.UpdateVerifyEmailField | src/controllers/verify-email.ts:12 | the record under the id gets the flag and token; an id naming no record changes nothing; every other record stays as it was |
| AuthLifecycle.AuthService.AdvanceClock | src/controllers/password.ts:35 | the clock moves forward by the elapsed time |
| AuthLifecycle.AuthService.Publish | src/queues/auth.producers.ts:9-26 | publishing always returns and appends exactly the one envelope; it accepts only an envelope on exchange `jobman-email-notification` with routing key `auth-email`, whose template agrees with its receiver and link, so every envelope in the outbox has that shape (part of `Valid()`, which every handler keeps) |
| AuthLifecycle.AuthService.CreateAuthUser | src/controllers/signup.ts:44 | the record is stored under an id no record had, and the directory keeps every old record |
| AuthLifecycle.AuthService.ForgotPassword | src/controllers/password.ts:18-57 | a schema error or an unknown email is refused with nothing written or published; otherwise the found user gets a fresh token expiring one hour from now, and one `forgotPassword` envelope to that user's stored email carries CLIENT_URL/reset-password?token= and the same token |
| AuthLifecycle.AuthService.ResetPassword | src/controllers/password.ts:59-92 | a schema error, 'Passwords do not match' and 'Invalid credentials' each leave the directory and outbox untouched, in that order; on success exactly the matched user gets hash(password), then one `resetPasswordSuccess` envelope goes to that username |
| AuthLifecycle.AuthService.ChangePasswordAsWritten | src/controllers/password.ts:94-103 | as written, the handler never succeeds: after a passing schema check it fails with a TypeError before any lookup or write |
| AuthLifecycle.AuthService.ChangePassword | src/controllers/password.ts:94-126 | with the body read as an object: any pair of unequal passwords gets 'Invalid password' before any lookup; an unknown session username gets 'Invalid password'; otherwise the user gets hash(newPassword) and one `resetPasswordSuccess` envelope |
| AuthLifecycle.AuthService.SignUp | src/controllers/signup.ts:13-61 | schema error, an existing username or email, or an upload without public id are refused with nothing created or published; otherwise exactly one new record under a fresh id, one `verifyEmail` envelope to its email with CLIENT_URL/confirm_email?v_token= and the stored token, and a session token signed over its id, email and username |
| AuthLifecycle.AuthService.SignInQuery | src/controllers/signin.ts:17-26 | a record matches sign-in's lookup exactly when its email equals the identifier (if the identifier is an email address) or its username does (otherwise) |
| AuthLifecycle.AuthService.SignIn | src/controllers/signin.ts:9-40 | sign-in succeeds exactly when the schema passes, the dispatched lookup finds a user and the password compares equal; then it returns the record that lookup found, minus its password, and a token signed over that record's id, email and username; every other failure is 'Invalid credentials' |
| AuthLifecycle.AuthService.Read | src/controllers/current-user.ts:10-17 | the reply carries the stored record of the signed-in id when there is one, and no user otherwise |
| AuthLifecycle.AuthService.ResendEmail | src/controllers/current-user.ts:19-46 | an unknown lower-cased email gets 'Email is invalid' with nothing written; otherwise the record under the body's userId becomes unverified with a fresh token, one `verifyEmail` envelope to the lower-cased email carries CLIENT_URL/verify-email?token= and that token, and the reply re-reads the body's userId |
| AuthLifecycle.AuthService.VerifyEmail | src/controllers/verify-email.ts:6-15 | an unmatched token is refused with no write; otherwise exactly the matched user becomes verified with an empty token, the reply shows that updated record, and nothing is published |
| LifecycleFacts.ResetTokenLifetime | src/controllers/password.ts:34-37 | with the expiry filter on, a reset token finds a record for one hour after it is issued and never finds its owner afterwards |
| LifecycleFacts.ResetTokenWithoutFilterNeverExpires | src/controllers/password.ts:71-74 | without the filter, the stored token finds a record at any time, however long after its expiry |
| LifecycleFacts.ResetTokenReplayable | src/controllers/password.ts:71-78 | writing the new password leaves the reset token in place, so the token that found its owner still finds that same owner and can be redeemed again |
| LifecycleFacts.SecondResetReplacesFirst | src/controllers/password.ts:31-37 | a second reset request replaces the first token, which then no longer finds the user |
| LifecycleFacts.VerificationTokenSingleUse | src/controllers/verify-email.ts:8-12 | after redemption the user is verified and the same non-empty token no longer finds it; if no other record held the token, it finds nothing |
| LifecycleFacts.EmptyTokenFindsVerifiedUser | src/controllers/verify-email.ts:8-12 | the empty token finds a record as soon as any record's token has been cleared |
| LifecycleFacts.ResendReplacesToken | src/controllers/current-user.ts:26-29 | a reissued verification token replaces the previous one and leaves the record unverified; the old token no longer finds the user |
| LifecycleFacts.CreatedUserVerifies | src/controllers/signup.ts:31-44 | a newly created record is found by its own token when no earlier record shares it; redeeming the token leaves the record verified with an empty token |
| LifecycleFacts.SignInFailuresIndistinguishable | src/controllers/signin.ts:27-35 | an unknown identifier and a wrong password produce the same reply |

## Left out

- Express routing, the middleware stack and the JWT verification middleware (src/server.ts): framework wiring. The signed-in user's id and username arrive as parameters.
- The broker connection, channel handling, SIGINT close hook and lazy reconnect (src/queues/connection.ts, src/queues/auth.producers.ts:17-22): network I/O and signals. A publish is only an outbox append, and the JSON serialisation and log lines are not modelled.
- The Elasticsearch health loop (src/elasticsearch.ts) and the database setup (src/database.ts): network I/O against external services.
- The seed handler (src/controllers/seeds.ts), token refresh (src/controllers/refresh-token.ts) and the health route (src/routes/health.ts): random fake data or a single call with nothing to state.
- Joi schemas, bcrypt, JWT signing, `isEmail`, `lowerCase`, `firstLetterUppercase`, the Cloudinary upload, `uuid` and `crypto.randomBytes`: their code is not part of this model. They are uninterpreted functions or parameters. bcrypt's salting is not modelled: hashing is a fixed function.
- The auth service's own queries are not part of this model. Its lookups are exact matches, and ties go to the least id. Case-insensitive collation, unique-key constraints and attribute exclusion in the database are not modelled, so the directory may hold two records with the same username or email.
- Directory.Find: for the reset-token lookup, whether the service filters on expiry is the constant `lookupChecksExpiry`, not a fact of the model.
- AuthLifecycle.AuthService.Read: an absent record gives a reply with no user. If the service returned `undefined` instead of an empty document, `Object.keys` would throw; that case is not modelled.
- AuthLifecycle.AuthService.ResendEmail: `userId` is the result of `parseInt`; a `NaN` result is not modelled.
- AuthLifecycle.AuthService.CreateAuthUser: stores the password as the handler passes it. Any hashing hook in the directory is not modelled. New ids count up from 1.
- AuthLifecycle.AuthService.NewUser: the handler leaves `emailVerified`, the reset token and its expiry to the database's defaults; the model takes them to be 0 and absent.
- Directory.UpdatePassword: the model assumes the service's `updatePassword` writes only the hash. If it also clears the reset token, that is not captured. As modelled, a redeemed reset token stays redeemable (`ResetTokenReplayable`): until it expires when the lookup filters on expiry, and for ever otherwise.
- AuthLifecycle.AuthService.SignUp: a missing `public_id` and an empty one are the same in the model (the source tests for a falsy value), and `secure_url` is always a string.
- AuthLifecycle.AuthService.ForgotPassword: the expiry is exactly 3,600,000 ms after the clock. `setHours` on local time across a daylight-saving change is not modelled.
- HTTP status codes of errors and the concurrency between requests: every handler runs to completion, one at a time.

## Findings

| source | as written | input that shows it | evidently intended | confidence | as-written member | corrected member |
|---|---|---|---|---|---|---|
| src/controllers/password.ts:100 | `req.body()` calls the parsed JSON body as a function, which throws a TypeError | any body that passes `changePasswordSchema`, such as `{currentPassword: "a", newPassword: "a"}` | destructure `req.body`, then apply the comparison and the password update | high, not executed | AuthLifecycle.AuthService.ChangePasswordAsWritten | AuthLifecycle.AuthService.ChangePassword |
