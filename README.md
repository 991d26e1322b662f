# basic_user_routes: account lifecycle and token claims, modelled in Dafny

This project models the core of `basic_user_routes`, a pluggable authentication router.
It covers the seven request handlers of `get_basic_user_router`: sign-in, sign-up, activation,
Google sign-in, reset-link request, password reset and activation resend. It also covers the
token codec in `utils.py`: `create_access_token` builds the claim set with its expiry, and
`decode_token` checks the subject and, when asked, the reset purpose.

Layout (one module per file):

- `wrappers.dfy` (`Wrappers`): `Option` and `Result`.
- `jose.dfy` (`Jose`): the JWT library with signing made opaque. A token is the claim set
  plus the key and algorithm that signed it. A key stands for the RSA pair it belongs to.
  Decoding checks the algorithm, the signature, `exp` (RFC 7519, section 4.1.4) and `sub`
  (RFC 7519, section 4.1.2), in the library's order.
- `config.dfy` (`Config`): `BaseRouterConfig` with its defaults: prefix `/internal`,
  algorithm `RS256`, `expire_limit` 180.
- `crud.dfy` (`Crud`): the user row (`email`, `hashed_password`, `is_active`,
  `service_provider_name`). Also the reference behaviour of the abstract `BaseCrud` adapter
  over a table keyed by email.
- `utils.dfy` (`Utils`): `create_access_token` and `decode_token`, with the round-trip and
  purpose lemmas.
- `flows.dfy` (`Flows`): each handler as a transition. A transition takes the user table and
  the outbox (the emails handed to the background mailer) and yields an `Ok` body or an
  `Err(status, detail)`, plus the new state.
- `user_router.dfy` (`UserRouter`): the class `Router`. Its fields are the table and the
  outbox, and its methods update them in place. Each method is proved to give exactly the
  response and state of its transition.
- `flow_properties.dfy` (`FlowProperties`): per-handler guard order, issued tokens, and
  "nothing else changes".
- `traces.dfy` (`Traces`): invariants over any sequence of requests. No user is ever deleted
  or re-provisioned, none is deactivated, and queued emails stay queued.

The clock is a parameter: an integer number of minutes. An exception a handler does not catch
becomes `Err(500, "Internal Server Error")`, which is what the web framework answers.

Three defects are kept as written and made explicit by a `Variant`. `AsWritten` is the code
as it stands; `Intended` is what the code evidently means at those points:

- `nestedCrud`: `router.py:83` calls `config.crud.crud.create_user`.
- `tokenKeysPassed`: `router.py:86,124,139,169` call `create_access_token` without `priv_key`
  and `algo`.
- `resetChecksPurpose`: `router.py:147` decodes without `is_reset=True`.

The model also keeps these behaviours of the code as written:

- `passwordcheck` is never compared (`ResetIgnoresPasswordCheck`).
- Google users are created inactive (`GoogleCreatesInactiveUser`). In the `Intended`
  variant they then get a token without an active check (`GoogleTokenWithoutActiveCheck`); as
  written, the token call raises first (`SignInGoogleAsWrittenFails`).
- `activate` redirects to the fixed path `/app`.
- `activate` accepts a token of any purpose: it decodes without the reset check, and such a
  decode ignores `type` (`Utils.PlainDecodeIgnoresType`). In the `Intended` variant a new
  Google user's bearer token activates that user (`GoogleBearerTokenActivates`).
- Expired tokens are reported as "Token validation error". python-jose's
  ExpiredSignatureError is a JWTError, so the "Token has expired" clauses are never reached
  (`ActivateExpiredToken`).
- An `expire_limit` of 0 is a falsy duration, so it yields a 15-minute token
  (`SignInTokenClaims`).

## Model

| member | source | states |
|---|---|---|
| `Jose.ClaimOf` | basic_user_routes/utils.py:28-29 | `payload.get(name)` is `Some` exactly when the claim is present, and then holds its value |
| `Jose.Decode` | basic_user_routes/utils.py:27 | An accepted token was signed with the private half of the given public key, under an accepted algorithm, and has not expired. It yields exactly the signed claims, and a present `sub` is a string. It fails as expired exactly when the signature checks out and `exp` lies before now |
| `Jose.Encode` | basic_user_routes/utils.py:18 | Signing is opaque: the token records the claims, the key and the algorithm. `Jose.DecodeEncode` states that decoding under the matching public key inverts it |
| `Jose.DecodeEncode` | basic_user_routes/utils.py:18-27 | Decoding with the matching public key inverts encoding for claims that are unexpired and have a string subject |
| `Config.WithDefaults` | basic_user_routes/router.py:45-47 | The given keys and hash are kept; the prefix is "/internal", the algorithm "RS256" and `expire_limit` 180 (positive). `FlowProperties.DefaultSignInTokenLifetime` states that it yields 180-minute sign-in tokens |
| `Crud.AuthenticateUser` | basic_user_routes/router.py:20-21 | A Google-registered email raises the provider conflict. Otherwise a user is returned exactly when a password is given and the stored hash is its hash, and it is that email's row |
| `Crud.AuthenticateUserGoogle` | basic_user_routes/router.py:23-24 | An unknown email gives nothing, and an email registered another way gives the conflict. A Google user's own row is returned |
| `Crud.CreateUser` | basic_user_routes/router.py:26-27 | Adds exactly one row under the email: inactive by default, with the given provider and the password's hash (or none). Every other row is unchanged and the table stays keyed by email |
| `Utils.Truthy` | basic_user_routes/utils.py:13 | `expires_delta` is truthy when present and not a zero duration; `Utils.Lifetime` and `Utils.CreateAccessToken` state what follows from it |
| `Utils.Lifetime` | basic_user_routes/utils.py:13-16 | The applied lifetime is the requested one when it is truthy, the 15-minute default otherwise, and never zero |
| `Utils.CreateAccessToken` | basic_user_routes/utils.py:11-19 | The token is a copy of `data` with `exp` added or overwritten; every other key and value is kept. `exp` is now + delta for a truthy delta, else now + 15. The token is signed with the given key and algorithm |
| `Utils.DecodeToken` | basic_user_routes/utils.py:22-33 | Accepts exactly when the library accepts, `sub` is present and, with `is_reset`, `type` is exactly "reset". The username is the `sub` claim. Library errors are passed on unchanged; when the library accepts but the token is refused, the error is "Could not validate credentials" |
| `Utils.DecodeCreatedToken` | basic_user_routes/utils.py:11-33 | Round trip: before expiry a created token decodes to its subject. With `is_reset`, it does so exactly when its data carries `type` "reset"; otherwise it fails with "Could not validate credentials" |
| `Utils.CreatedTokenExpires` | basic_user_routes/utils.py:13-27 | After its lifetime a created token is refused as expired |
| `Utils.ResetDecodeRejectsOtherPurposes` | basic_user_routes/utils.py:29-31 | With `is_reset`, every token whose `type` is not exactly "reset" is refused, including tokens with no `type` |
| `Utils.PlainDecodeIgnoresType` | basic_user_routes/utils.py:29-30 | Without `is_reset`, two tokens that differ only in `type` decode alike, so a reset token passes as a plain one |
| `Flows.DecodeFailure` | basic_user_routes/router.py:95-100 | Every decoding failure is a 400. Library errors, expiry included, become "Token validation error"; `decode_token`'s own refusal stays "Could not validate credentials"; the answer is never "Token has expired" |
| `Flows.BearerToken` | basic_user_routes/router.py:71-75 | The bearer token is signed with the configured key and algorithm and holds exactly `sub` = the email and `exp` = now + the applied lifetime |
| `Flows.ActivationEmail` | basic_user_routes/router.py:84-89 | The "Activate" email goes to the address; its token holds exactly `sub` = the email and a 180-minute `exp` (also queued by resend_activation, router.py:167-171) |
| `Flows.ResetEmail` | basic_user_routes/router.py:137-141 | The "Reset password" email goes to the address; its token holds exactly `sub`, `type` "reset" and a 30-minute `exp` |
| `Flows.SignIn` | basic_user_routes/router.py:57-76 | Every refusal is a 400 or 401; a token is handed out only to an active user who gave a password. Guard order and the exact condition are in `FlowProperties.SignInErrorPrecedence`, `SignInBearerOnlyForActive` and `SignInWithoutPassword` |
| `Flows.SignUp` | basic_user_routes/router.py:78-90 | Succeeds exactly for a new email when the adapter call and the token call work; a 400 changes nothing; an email is queued only on success; only the given email can be added. See `FlowProperties.SignUpCreatesPendingUser` and `SignUpAsWrittenFails` |
| `Flows.Activate` | basic_user_routes/router.py:92-108 | Never queues an email nor adds a user; only the redirect to "/app" changes state; every refusal is a 400. See `FlowProperties.ActivateNothingElseChanges` and `ActivateIdempotent` |
| `Flows.SignInGoogle` | basic_user_routes/router.py:110-126 | Never queues an email; only the Google email can be added; a 400 changes nothing; a token is issued only for a verified email whose row is a Google row. See `FlowProperties.GoogleCreatesInactiveUser` and `GoogleTokenWithoutActiveCheck` |
| `Flows.GetResetLink` | basic_user_routes/router.py:128-142 | Only success changes state, and then one email is queued to an active local user. See `FlowProperties.ResetLinkPrecedence` and `ResetLinkIssuesResetToken` |
| `Flows.ResetPassword` | basic_user_routes/router.py:144-157 | Never queues an email nor adds or removes a user; only success changes state, and then some user's hash is that of the new password. See `FlowProperties.ResetPasswordNothingElseChanges` |
| `Flows.ResendActivation` | basic_user_routes/router.py:159-172 | The table never changes; only success queues an email, to an inactive user. See `FlowProperties.ResendActivationPrecedence` and `ResendActivationQueuesOneEmail` |
| `FlowProperties.SignInErrorPrecedence` | basic_user_routes/router.py:59-70 | Guard order: a Google conflict gives 400 "Already registered through Google". Next, an unknown email or a wrong password gives 401. Last, an inactive user gives 400 "Inactive user" |
| `FlowProperties.SignInWithoutPassword` | basic_user_routes/router.py:58-68 | A request without a password (the field is optional) gets 400 for a Google row and 401 for any other email, never a token |
| `FlowProperties.SignInBearerOnlyForActive` | basic_user_routes/router.py:59-76 | sign_in succeeds exactly when authentication yields a user who is active, and the body is a bearer token for that email |
| `FlowProperties.SignInTokenClaims` | basic_user_routes/router.py:71-76 | The bearer token holds only `sub` = the email and `exp` = now + `expire_limit` (now + 15 when the limit is 0). It is signed with the configured key and algorithm |
| `FlowProperties.DefaultSignInTokenLifetime` | basic_user_routes/router.py:71-75 | Under the default configuration the sign-in token expires 180 minutes after issue |
| `FlowProperties.SignInTokenDecodes` | basic_user_routes/router.py:71-76 | Until it expires, the bearer token decodes to the user's email as a plain token and is refused as a reset token |
| `FlowProperties.SignUpDuplicateRejected` | basic_user_routes/router.py:80-82 | A registered email gives 400 "Email already registered" and nothing changes, in every variant |
| `FlowProperties.SignUpCreatesPendingUser` | basic_user_routes/router.py:83-90 | Intended variant: exactly one inactive user is added, with provider "email" and the password's hash. Exactly one "Activate" email goes to that address; its token has `sub` = the email and a 180-minute expiry |
| `FlowProperties.SignUpAsWrittenFails` | basic_user_routes/router.py:83 | As written, a new email gives 500 and the state is unchanged: no user and no email |
| `FlowProperties.SignUpTwice` | basic_user_routes/router.py:80-90 | Intended variant: a second sign-up with the same email is refused as a duplicate |
| `FlowProperties.SignUpTwiceAsWritten` | basic_user_routes/router.py:80-83 | As written, both sign-ups fail with 500 and the user is never stored |
| `FlowProperties.ActivateRejectsBadToken` | basic_user_routes/router.py:95-100 | A token that does not decode gives a 400 and changes nothing |
| `FlowProperties.ActivateExpiredToken` | basic_user_routes/router.py:95-100 | A correctly signed but expired token gives 400 "Token validation error" and changes nothing |
| `FlowProperties.ActivateMissingSubject` | basic_user_routes/router.py:95-98 | A token the library accepts but without `sub` gives 400 "Could not validate credentials" and changes nothing |
| `FlowProperties.ActivateUnknownUser` | basic_user_routes/router.py:101-103 | A valid token whose subject is unknown gives 400 "No user for the token" and changes nothing |
| `FlowProperties.ActivateNothingElseChanges` | basic_user_routes/router.py:101-108 | Only the redirect to "/app" changes state. It sets the active flag of the inactive user named by the token and changes nothing else |
| `FlowProperties.ActivateIdempotent` | basic_user_routes/router.py:104-105 | After a successful activation, redeeming the token again gives "Email already confirmed" with no change |
| `FlowProperties.SignUpThenActivate` | basic_user_routes/router.py:83-108 | Intended variant: within 180 minutes, the token emailed on sign-up activates the new user; a second redemption only confirms |
| `FlowProperties.GoogleUnverifiedRejected` | basic_user_routes/router.py:114-115 | An unverified email gives 400 "Email not verified" whatever the table holds, with no change |
| `FlowProperties.GoogleLocalConflict` | basic_user_routes/router.py:116-119 | An email registered another way gives 400 "Already registered with email", with no change |
| `FlowProperties.GoogleCreatesInactiveUser` | basic_user_routes/router.py:120-121 | An absent user is created with provider "google", no password and the inactive default; nothing else changes |
| `FlowProperties.GoogleTokenWithoutActiveCheck` | basic_user_routes/router.py:122-126 | Intended variant: a token with `sub` = the Google email is issued whatever the user's active flag |
| `FlowProperties.SignInGoogleAsWrittenFails` | basic_user_routes/router.py:121-124 | As written, the token call raises: the answer is 500, after the user has been stored |
| `FlowProperties.GoogleBearerTokenActivates` | basic_user_routes/router.py:96-108 | The bearer token of a new, inactive Google user is accepted by activate, which activates that user |
| `FlowProperties.ResetLinkPrecedence` | basic_user_routes/router.py:130-136 | Guard order: "User does not exists", then "User not activated", then "Registered through google". Each is a 400 with no change |
| `FlowProperties.ResetLinkRefusesGoogleUsers` | basic_user_routes/router.py:133-136 | A Google user never gets a reset link, and nothing changes |
| `FlowProperties.ResetLinkIssuesResetToken` | basic_user_routes/router.py:137-142 | Intended variant: the table is unchanged and exactly one "Reset password" email goes to the address. Its token holds exactly `sub`, `type` "reset" and a 30-minute `exp` |
| `FlowProperties.ResetLinkKeepsUsers` | basic_user_routes/router.py:128-142 | get_reset_link never changes the user table |
| `FlowProperties.ResetPasswordNothingElseChanges` | basic_user_routes/router.py:146-157 | Every refusal is a 400 with no change. Success sets only the hashed password of the user named by the token, to `get_password_hash(password)` |
| `FlowProperties.ResetPasswordKeepsFlags` | basic_user_routes/router.py:155 | The active flag and provider of every user are unchanged |
| `FlowProperties.ResetPasswordMissingSubject` | basic_user_routes/router.py:146-149 | In every variant, a library-accepted token without `sub` gives 400 "Could not validate credentials" and changes nothing |
| `FlowProperties.ResetIgnoresPasswordCheck` | basic_user_routes/router.py:155 | The outcome does not depend on `passwordcheck` |
| `FlowProperties.ResetLinkTokenResetsPassword` | basic_user_routes/router.py:139-157 | Within 30 minutes, the reset link's token changes the password in every variant |
| `FlowProperties.ResetAcceptsSignInToken` | basic_user_routes/router.py:147 | As written, a sign-in bearer token is accepted by reset_password and changes the password |
| `FlowProperties.CheckedResetRejectsSignInToken` | basic_user_routes/router.py:147 | With the purpose check, that bearer token gives 400 "Could not validate credentials" and nothing changes |
| `FlowProperties.ResendActivationPrecedence` | basic_user_routes/router.py:162-166 | "Email not found", then "Email already activated", each with no change. The table never changes |
| `FlowProperties.ResendActivationQueuesOneEmail` | basic_user_routes/router.py:167-172 | Intended variant: the table is unchanged and exactly one "Activate" email is queued to the address |
| `Traces.SignUpEvolves` | basic_user_routes/router.py:78-90 | sign_up deletes, re-provisions and deactivates no user, keeps queued emails and keeps the table keyed by email |
| `Traces.ActivateEvolves` | basic_user_routes/router.py:92-108 | The same for activate |
| `Traces.SignInGoogleEvolves` | basic_user_routes/router.py:110-126 | The same for sign_in_google |
| `Traces.GetResetLinkEvolves` | basic_user_routes/router.py:128-142 | The same for get_reset_link |
| `Traces.ResetPasswordEvolves` | basic_user_routes/router.py:144-157 | The same for reset_password |
| `Traces.ResendActivationEvolves` | basic_user_routes/router.py:159-172 | The same for resend_activation |
| `Traces.StepEvolves` | basic_user_routes/router.py:57-172 | Every handler respects these state invariants |
| `Traces.Step` | basic_user_routes/router.py:57-172 | Dispatches a request to its handler; sign-in is read-only and no request queues more than one email. `Traces.StepEvolves` states the state invariants of one step |
| `Traces.Run` | basic_user_routes/router.py:54-174 | Handles requests in order; the queue only grows, by at most one email per request. `Traces.RunEvolves` states the invariants over the whole run |
| `Traces.RunEvolves` | basic_user_routes/router.py:54-174 | Over any sequence of requests, no user is deleted, re-provisioned or deactivated, queued emails stay queued, and the table stays keyed by email |
| `Traces.StepAsWrittenCreatesOnlyGoogleUsers` | basic_user_routes/router.py:83-169 | As written, no single handler queues an email, and every user it creates is a Google user |
| `Traces.RunAsWrittenQueuesNoEmail` | basic_user_routes/router.py:86-170 | As written, no sequence of requests ever queues an email |
| `Traces.RunAsWrittenCreatesOnlyGoogleUsers` | basic_user_routes/router.py:83-121 | As written, every user created by any sequence of requests has provider "google" |
| `UserRouter.Router.constructor` | basic_user_routes/router.py:54-55 | A router over a table keyed by email, with the given configuration and an empty outbox |
| `UserRouter.Router.SignIn` | basic_user_routes/router.py:57-76 | Returns exactly `Flows.SignIn` on the current table, reading the table only |
| `UserRouter.Router.SignUp` | basic_user_routes/router.py:78-90 | Response and new table and outbox are exactly those of `Flows.SignUp`; the table stays keyed by email |
| `UserRouter.Router.Activate` | basic_user_routes/router.py:92-108 | Updates the user row in place; response and new state equal `Flows.Activate` |
| `UserRouter.Router.SignInGoogle` | basic_user_routes/router.py:110-126 | Response and new table equal `Flows.SignInGoogle`; the table stays keyed by email |
| `UserRouter.Router.GetResetLink` | basic_user_routes/router.py:128-142 | Response and new outbox equal `Flows.GetResetLink`; only the outbox may change |
| `UserRouter.Router.ResetPassword` | basic_user_routes/router.py:144-157 | Overwrites the hashed password in place; response and new state equal `Flows.ResetPassword` |
| `UserRouter.Router.ResendActivation` | basic_user_routes/router.py:159-172 | Response and new outbox equal `Flows.ResendActivation`; only the outbox may change |

## Left out

- JWT cryptography (RS256 signing and verification in python-jose): a token is the signed claim set, and a key stands for its RSA pair. Forged and tampered tokens appear only as `Malformed` or as tokens signed by another pair.
- python-jose claim checks other than `exp` and `sub` (`iat`, `nbf`, `aud`, `iss`, `jti`) are not modelled. Neither are leeway and the coercion of a numeric-string `exp`. The router's own tokens never carry these.
- Time is whole minutes, not seconds.
- Google ID-token verification (`decode_google_token`, router.py:50-51) is a network call. Its result is an input record (email, email_verified). A credential it rejects, which raises, is not modelled.
- FastAPI routing, `Depends`, request-body validation and response headers (`WWW-Authenticate`) are not modelled. `HTTPException` and `RedirectResponse` become the `Response` datatype. The prefix is kept in the configuration only.
- `BackgroundTasks` and `send_link_email`: a queued email is an outbox entry, with no delivery. The link string built with `api_base_url` is replaced by the token it carries.
- The database session, `db.commit()` and `get_db` are not modelled. `create_user` is taken to commit its insert, so a later crash in the same handler leaves the user stored. Concurrent requests are not modelled.
- `BaseCrud` is an abstract interface. The model fixes one reference behaviour for it: `authenticate_user` compares the stored hash with `get_password_hash(password)`. The sign-in password is optional (schemas.py:30-32); a missing one matches no row, and a Google row still raises the conflict first. `get_password_hash` is an uninterpreted function held in the configuration.
- `login_redirect` in config.py is not part of this model, because the router's own `BaseRouterConfig` (router.py:36-47) has no such field.
- setup.py (packaging) is not part of this model.

## Findings

| source | as written | input that shows it | evidently intended | confidence | as-written member | corrected member |
|---|---|---|---|---|---|---|
| basic_user_routes/router.py:83 | `config.crud.crud.create_user` looks up a `crud` attribute that the adapter does not have. The AttributeError comes before the insert, so sign-up never creates an account | sign-up with any email not yet registered | `config.crud.create_user(...)` | not executed; high | `FlowProperties.SignUpAsWrittenFails` | `FlowProperties.SignUpCreatesPendingUser` |
| basic_user_routes/router.py:86 | `create_access_token(data, delta)` binds `data` to `priv_key`, and the required `data` is missing. TypeError, so no activation or reset email is ever queued (also lines 139 and 169) | sign-up, reset-link or resend request that passes every guard | pass `priv_key=config.priv_key, algo=config.algorithm` as sign_in does | not executed; high | `Traces.RunAsWrittenQueuesNoEmail` | `FlowProperties.ResendActivationQueuesOneEmail` |
| basic_user_routes/router.py:124 | `create_access_token` is called without `priv_key` and `algo`: TypeError after the Google user has been stored | verified Google sign-in for an email that is new or a Google user | pass the configured key and algorithm | not executed; high | `FlowProperties.SignInGoogleAsWrittenFails` | `FlowProperties.GoogleTokenWithoutActiveCheck` |
| basic_user_routes/router.py:147 | `decode_token(token, config)` without `is_reset=True`, so any token with a subject resets the password | the bearer token returned by sign_in, posted to `/reset_password/{token}` | `decode_token(token, config, is_reset=True)` | not executed; medium | `FlowProperties.ResetAcceptsSignInToken` | `FlowProperties.CheckedResetRejectsSignInToken` |

The handlers take the `Variant` as a parameter. Every single-handler property is proved for the
variant it names: `AsWritten` reproduces the rows' as-written behaviour, and `Intended` gives the
corrected one. The trace invariants of `Traces.RunEvolves` hold for every variant.
