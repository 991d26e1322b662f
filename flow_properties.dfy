/**
 * What each handler promises in one call: the order of its guards, the tokens it issues,
 * and that it changes nothing but what it names.
 */
module FlowProperties {
  import opened Wrappers
  import opened Jose
  import opened Config
  import opened Crud
  import opened Utils
  import opened Flows

  // ----- sign_in -----

  /** Guard order of sign_in: Google conflict, then unknown user or wrong password, then inactive. */
  lemma SignInErrorPrecedence(c: RouterConfig, s: Store, email: string, password: Option<string>, now: int)
    ensures email in s.users && s.users[email].serviceProvider == Some(GoogleProvider) ==>
      SignIn(c, s, email, password, now) == Err(400, "Already registered through Google")
    ensures email !in s.users ==>
      SignIn(c, s, email, password, now) == Err(401, "Incorrect username or password")
    ensures email in s.users && s.users[email].serviceProvider != Some(GoogleProvider) &&
            (password.None? || s.users[email].hashedPassword != Some(c.passwordHash(password.value))) ==>
      SignIn(c, s, email, password, now) == Err(401, "Incorrect username or password")
    ensures AuthenticateUser(s.users, c.passwordHash, email, password).Found? && !s.users[email].isActive ==>
      SignIn(c, s, email, password, now) == Err(400, "Inactive user")
  {
  }

  /** A sign-in request without a password never gets a token: a Google row conflicts, any other email is refused with 401. */
  lemma SignInWithoutPassword(c: RouterConfig, s: Store, email: string, now: int)
    ensures email in s.users && s.users[email].serviceProvider == Some(GoogleProvider) ==>
      SignIn(c, s, email, None, now) == Err(400, "Already registered through Google")
    ensures !(email in s.users && s.users[email].serviceProvider == Some(GoogleProvider)) ==>
      SignIn(c, s, email, None, now) == Err(401, "Incorrect username or password")
  {
  }

  /** sign_in hands out a bearer token exactly when authentication yields an active user. */
  lemma SignInBearerOnlyForActive(c: RouterConfig, s: Store, email: string, password: Option<string>, now: int)
    requires WellKeyed(s.users)
    ensures SignIn(c, s, email, password, now).Ok? <==>
      AuthenticateUser(s.users, c.passwordHash, email, password).Found? && s.users[email].isActive
    ensures SignIn(c, s, email, password, now).Ok? ==>
      SignIn(c, s, email, password, now) == Ok(Bearer(BearerToken(c, email, now)))
  {
  }

  /**
   * The sign-in token names the user as subject and expires `expire_limit` minutes after
   * issue, or 15 minutes after issue when `expire_limit` is zero.
   */
  lemma SignInTokenClaims(c: RouterConfig, s: Store, email: string, password: Option<string>, now: int)
    requires WellKeyed(s.users)
    requires SignIn(c, s, email, password, now).Ok?
    ensures SignIn(c, s, email, password, now).body.Bearer?
    ensures var t := SignIn(c, s, email, password, now).body.accessToken;
      && t.Signed? && t.signer == c.privKey && t.alg == c.algorithm
      && t.claims == map[SubClaim := Str(email),
                         ExpClaim := Num(now + if c.expireLimit != 0 then c.expireLimit else DefaultLifetime)]
  {
  }

  /** Under the default configuration a sign-in token lasts `expire_limit` = 180 minutes. */
  lemma DefaultSignInTokenLifetime(privKey: Key, pubKey: Key, passwordHash: string -> string, s: Store, email: string, password: Option<string>, now: int)
    requires SignIn(WithDefaults(privKey, pubKey, passwordHash), s, email, password, now).Ok?
    ensures var t := SignIn(WithDefaults(privKey, pubKey, passwordHash), s, email, password, now).body.accessToken;
      t.Signed? && t.claims[ExpClaim] == Num(now + 180)
  {
  }

  /** The sign-in token is accepted as a plain token until it expires, and never as a reset token. */
  lemma SignInTokenDecodes(c: RouterConfig, s: Store, email: string, password: Option<string>, now: int, later: int)
    requires WellKeyed(s.users) && Verifies(c.pubKey, c.privKey)
    requires SignIn(c, s, email, password, now).Ok?
    requires later <= now + Lifetime(Some(c.expireLimit))
    ensures SignIn(c, s, email, password, now).body.Bearer?
    ensures DecodeToken(SignIn(c, s, email, password, now).body.accessToken, c, false, later) == Success(TokenData(email))
    ensures DecodeToken(SignIn(c, s, email, password, now).body.accessToken, c, true, later) == Failure(InvalidCredentials)
  {
  }

  // ----- sign_up -----

  /** An email already in the table is refused, whatever the variant, and nothing changes. */
  lemma SignUpDuplicateRejected(c: RouterConfig, v: Variant, s: Store, email: string, password: string, now: int)
    requires email in s.users
    ensures SignUp(c, v, s, email, password, now) == Outcome(Err(400, "Email already registered"), s)
  {
  }

  /**
   * As intended, a new email gets exactly one inactive user with provider "email" and the
   * hash of the password, and exactly one "Activate" email addressed to it, whose token has
   * that email as subject and a three-hour lifetime.
   */
  lemma SignUpCreatesPendingUser(c: RouterConfig, s: Store, email: string, password: string, now: int)
    requires email !in s.users
    ensures var o := SignUp(c, Intended, s, email, password, now);
      && o.response == Ok(Message("Check email for confirmation message"))
      && o.store.users == s.users[email := User(email, Some(c.passwordHash(password)), false, Some(EmailProvider))]
      && |o.store.outbox| == |s.outbox| + 1 && o.store.outbox[..|s.outbox|] == s.outbox
      && var sent := o.store.outbox[|s.outbox|];
         && sent.recipient == email && sent.subject == "Activate"
         && sent.token.Signed? && sent.token.claims == map[SubClaim := Str(email), ExpClaim := Num(now + 180)]
  {
  }

  /** As written, `config.crud.crud` raises before anything is stored: a new email fails with 500 and nothing changes. */
  lemma SignUpAsWrittenFails(c: RouterConfig, s: Store, email: string, password: string, now: int)
    requires email !in s.users
    ensures SignUp(c, AsWritten, s, email, password, now) == Outcome(InternalServerError, s)
  {
  }

  /** Signing up twice with one email: as intended the second attempt is refused as a duplicate. */
  lemma SignUpTwice(c: RouterConfig, s: Store, email: string, password: string, password2: string, now: int, later: int)
    requires email !in s.users
    ensures var o1 := SignUp(c, Intended, s, email, password, now);
      o1.response.Ok? && SignUp(c, Intended, o1.store, email, password2, later) == Outcome(Err(400, "Email already registered"), o1.store)
  {
  }

  /** Signing up twice with one email as written: both attempts fail with 500 and the table never gains the user. */
  lemma SignUpTwiceAsWritten(c: RouterConfig, s: Store, email: string, password: string, password2: string, now: int, later: int)
    requires email !in s.users
    ensures var o1 := SignUp(c, AsWritten, s, email, password, now);
      o1 == Outcome(InternalServerError, s) && SignUp(c, AsWritten, o1.store, email, password2, later) == o1
  {
  }

  // ----- activate -----

  /** A token that fails to decode gives 400 and changes nothing. */
  lemma ActivateRejectsBadToken(c: RouterConfig, s: Store, token: Jwt, now: int)
    requires DecodeToken(token, c, false, now).Failure?
    ensures Activate(c, s, token, now).store == s
    ensures Activate(c, s, token, now).response.Err? && Activate(c, s, token, now).response.status == 400
  {
  }

  /** An expired token is reported as a validation error, never as "Token has expired". */
  lemma ActivateExpiredToken(c: RouterConfig, s: Store, token: Jwt, now: int)
    requires token.Signed? && token.alg == c.algorithm && Verifies(c.pubKey, token.signer)
    requires ExpClaim in token.claims && token.claims[ExpClaim].Num? && token.claims[ExpClaim].value < now
    ensures Activate(c, s, token, now) == Outcome(Err(400, "Token validation error"), s)
  {
  }

  /**
   * A token the library accepts but that carries no `sub` is refused by `decode_token` itself,
   * with "Could not validate credentials", and nothing changes.
   */
  lemma ActivateMissingSubject(c: RouterConfig, s: Store, token: Jwt, now: int)
    requires token.Signed? && token.alg == c.algorithm && Verifies(c.pubKey, token.signer)
    requires Unexpired(token.claims, now) && SubClaim !in token.claims
    ensures Activate(c, s, token, now) == Outcome(Err(400, "Could not validate credentials"), s)
  {
  }

  /** A valid token whose subject is not in the table gives 400 and changes nothing. */
  lemma ActivateUnknownUser(c: RouterConfig, s: Store, token: Jwt, now: int)
    requires DecodeToken(token, c, false, now).Success? && DecodeToken(token, c, false, now).value.username !in s.users
    ensures Activate(c, s, token, now) == Outcome(Err(400, "No user for the token"), s)
  {
  }

  /**
   * activate changes at most one thing: the active flag of the inactive user the token
   * names, and only when it answers with the redirect; every other answer leaves the state as it was.
   */
  lemma ActivateNothingElseChanges(c: RouterConfig, s: Store, token: Jwt, now: int)
    ensures Activate(c, s, token, now).response != Ok(Redirect(AfterActivation)) ==> Activate(c, s, token, now).store == s
    ensures Activate(c, s, token, now).response == Ok(Redirect(AfterActivation)) ==>
      && DecodeToken(token, c, false, now).Success?
      && var e := DecodeToken(token, c, false, now).value.username;
         && e in s.users && !s.users[e].isActive
         && Activate(c, s, token, now).store == Store(s.users[e := s.users[e].(isActive := true)], s.outbox)
  {
  }

  /** Activation is idempotent: once a token has been redeemed, redeeming it again confirms and changes nothing. */
  lemma ActivateIdempotent(c: RouterConfig, s: Store, token: Jwt, now: int, later: int)
    requires Activate(c, s, token, now).response.Ok?
    requires DecodeToken(token, c, false, later).Success?
    ensures var s1 := Activate(c, s, token, now).store;
      Activate(c, s1, token, later) == Outcome(Ok(Message("Email already confirmed")), s1)
  {
  }

  /**
   * The whole activation flow, as intended: the token emailed on sign-up activates the new
   * user within three hours, and a second redemption only confirms.
   */
  lemma SignUpThenActivate(c: RouterConfig, s: Store, email: string, password: string, now: int, later: int)
    requires Verifies(c.pubKey, c.privKey)
    requires email !in s.users
    requires now <= later <= now + ActivationLifetime
    ensures var s1 := SignUp(c, Intended, s, email, password, now).store;
      var token := s1.outbox[|s.outbox|].token;
      var o2 := Activate(c, s1, token, later);
      && o2.response == Ok(Redirect(AfterActivation))
      && o2.store.users[email].isActive
      && Activate(c, o2.store, token, later) == Outcome(Ok(Message("Email already confirmed")), o2.store)
  {
  }

  // ----- sign_in_google -----

  /** An unverified Google email is refused whatever the table holds, and nothing changes. */
  lemma GoogleUnverifiedRejected(c: RouterConfig, v: Variant, s: Store, google: GoogleIdentity, now: int)
    requires !google.emailVerified
    ensures SignInGoogle(c, v, s, google, now) == Outcome(Err(400, "Email not verified"), s)
  {
  }

  /** An email registered locally cannot sign in through Google, and nothing changes. */
  lemma GoogleLocalConflict(c: RouterConfig, v: Variant, s: Store, google: GoogleIdentity, now: int)
    requires google.emailVerified && google.email in s.users
    requires s.users[google.email].serviceProvider != Some(GoogleProvider)
    ensures SignInGoogle(c, v, s, google, now) == Outcome(Err(400, "Already registered with email"), s)
  {
  }

  /** A first Google sign-in creates the user with provider "google", no password and the inactive default, whatever the variant. */
  lemma GoogleCreatesInactiveUser(c: RouterConfig, v: Variant, s: Store, google: GoogleIdentity, now: int)
    requires google.emailVerified && google.email !in s.users
    ensures SignInGoogle(c, v, s, google, now).store ==
      Store(s.users[google.email := User(google.email, None, false, Some(GoogleProvider))], s.outbox)
  {
  }

  /** As intended, a Google user gets a bearer token for the Google email without any check of the active flag. */
  lemma GoogleTokenWithoutActiveCheck(c: RouterConfig, s: Store, google: GoogleIdentity, now: int)
    requires google.emailVerified
    requires google.email in s.users ==> s.users[google.email].serviceProvider == Some(GoogleProvider)
    ensures SignInGoogle(c, Intended, s, google, now).response == Ok(Bearer(BearerToken(c, google.email, now)))
    ensures BearerToken(c, google.email, now).claims[SubClaim] == Str(google.email)
  {
  }

  /** As written, the token call raises: a verified, non-conflicting Google sign-in fails with 500, after the user has been created. */
  lemma SignInGoogleAsWrittenFails(c: RouterConfig, s: Store, google: GoogleIdentity, now: int)
    requires google.emailVerified
    requires google.email in s.users ==> s.users[google.email].serviceProvider == Some(GoogleProvider)
    ensures SignInGoogle(c, AsWritten, s, google, now).response == InternalServerError
    ensures google.email in SignInGoogle(c, AsWritten, s, google, now).store.users
  {
  }

  /**
   * Token purpose is not enforced by activate: the bearer token of a new Google user, itself
   * inactive, activates that user.
   */
  lemma GoogleBearerTokenActivates(c: RouterConfig, s: Store, google: GoogleIdentity, now: int)
    requires Verifies(c.pubKey, c.privKey) && c.expireLimit >= 0
    requires google.emailVerified && google.email !in s.users
    ensures var o1 := SignInGoogle(c, Intended, s, google, now);
      && o1.response.Ok? && o1.response.body.Bearer?
      && !o1.store.users[google.email].isActive
      && Activate(c, o1.store, o1.response.body.accessToken, now).response == Ok(Redirect(AfterActivation))
  {
  }

  // ----- get_reset_link -----

  /** Guard order of get_reset_link: unknown, then inactive, then Google; each refusal changes nothing. */
  lemma ResetLinkPrecedence(c: RouterConfig, v: Variant, s: Store, email: string, now: int)
    ensures email !in s.users ==>
      GetResetLink(c, v, s, email, now) == Outcome(Err(400, "User does not exists"), s)
    ensures email in s.users && !s.users[email].isActive ==>
      GetResetLink(c, v, s, email, now) == Outcome(Err(400, "User not activated"), s)
    ensures email in s.users && s.users[email].isActive && s.users[email].serviceProvider == Some(GoogleProvider) ==>
      GetResetLink(c, v, s, email, now) == Outcome(Err(400, "Registered through google"), s)
  {
  }

  /** A Google user never receives a reset link. */
  lemma ResetLinkRefusesGoogleUsers(c: RouterConfig, v: Variant, s: Store, email: string, now: int)
    requires email in s.users && s.users[email].serviceProvider == Some(GoogleProvider)
    ensures GetResetLink(c, v, s, email, now).response.Err?
    ensures GetResetLink(c, v, s, email, now).store == s
  {
  }

  /**
   * As intended, an active local user gets exactly one "Reset password" email, whose token
   * carries `type` "reset" and a 30-minute lifetime; the table is left unchanged.
   */
  lemma ResetLinkIssuesResetToken(c: RouterConfig, s: Store, email: string, now: int)
    requires email in s.users && s.users[email].isActive
    requires s.users[email].serviceProvider != Some(GoogleProvider)
    ensures var o := GetResetLink(c, Intended, s, email, now);
      && o.response == Ok(Message("Check email for reset link"))
      && o.store.users == s.users
      && |o.store.outbox| == |s.outbox| + 1 && o.store.outbox[..|s.outbox|] == s.outbox
      && var sent := o.store.outbox[|s.outbox|];
         && sent.recipient == email && sent.subject == "Reset password"
         && sent.token.Signed?
         && sent.token.claims == map[SubClaim := Str(email), TypeClaim := Str(ResetType), ExpClaim := Num(now + ResetLifetime)]
  {
  }

  /** get_reset_link never changes the user table. */
  lemma ResetLinkKeepsUsers(c: RouterConfig, v: Variant, s: Store, email: string, now: int)
    ensures GetResetLink(c, v, s, email, now).store.users == s.users
  {
  }

  // ----- reset_password -----

  /**
   * reset_password changes only the password hash of the user the token names, to the hash
   * of the new password, and only when it succeeds; every refusal is a 400 and changes nothing.
   */
  lemma ResetPasswordNothingElseChanges(c: RouterConfig, v: Variant, s: Store, token: Jwt, password: string, passwordcheck: string, now: int)
    ensures var o := ResetPassword(c, v, s, token, password, passwordcheck, now);
      !o.response.Ok? ==> o.store == s && o.response.status == 400
    ensures var o := ResetPassword(c, v, s, token, password, passwordcheck, now);
      o.response.Ok? ==>
        && o.response == Ok(Message("Password changed"))
        && DecodeToken(token, c, v.resetChecksPurpose, now).Success?
        && var e := DecodeToken(token, c, v.resetChecksPurpose, now).value.username;
           && e in s.users
           && o.store == Store(s.users[e := s.users[e].(hashedPassword := Some(c.passwordHash(password)))], s.outbox)
  {
  }

  /** reset_password keeps every user's active flag and provider. */
  lemma ResetPasswordKeepsFlags(c: RouterConfig, v: Variant, s: Store, token: Jwt, password: string, passwordcheck: string, now: int)
    ensures var users' := ResetPassword(c, v, s, token, password, passwordcheck, now).store.users;
      users'.Keys == s.users.Keys &&
      forall e :: e in s.users ==>
        users'[e].isActive == s.users[e].isActive && users'[e].serviceProvider == s.users[e].serviceProvider
  {
  }

  /** Whatever the variant, a library-accepted token without `sub` is refused with "Could not validate credentials", and nothing changes. */
  lemma ResetPasswordMissingSubject(c: RouterConfig, v: Variant, s: Store, token: Jwt, password: string, passwordcheck: string, now: int)
    requires token.Signed? && token.alg == c.algorithm && Verifies(c.pubKey, token.signer)
    requires Unexpired(token.claims, now) && SubClaim !in token.claims
    ensures ResetPassword(c, v, s, token, password, passwordcheck, now) == Outcome(Err(400, "Could not validate credentials"), s)
  {
  }

  /** The confirmation field is never compared: the outcome does not depend on it. */
  lemma ResetIgnoresPasswordCheck(c: RouterConfig, v: Variant, s: Store, token: Jwt, password: string, check1: string, check2: string, now: int)
    ensures ResetPassword(c, v, s, token, password, check1, now) == ResetPassword(c, v, s, token, password, check2, now)
  {
  }

  /** The reset link's token changes the password of its user before it expires, whatever the variant. */
  lemma ResetLinkTokenResetsPassword(c: RouterConfig, v: Variant, s: Store, email: string, password: string, passwordcheck: string, now: int, later: int)
    requires Verifies(c.pubKey, c.privKey)
    requires email in s.users
    requires now <= later <= now + ResetLifetime
    ensures ResetPassword(c, v, s, ResetEmail(c, email, now).token, password, passwordcheck, later).response == Ok(Message("Password changed"))
  {
  }

  /** As written, a sign-in bearer token is accepted by reset_password and changes the password. */
  lemma ResetAcceptsSignInToken(c: RouterConfig, s: Store, email: string, password: Option<string>, now: int, later: int, newPassword: string, check: string)
    requires WellKeyed(s.users) && Verifies(c.pubKey, c.privKey)
    requires SignIn(c, s, email, password, now).Ok?
    requires later <= now + Lifetime(Some(c.expireLimit))
    ensures SignIn(c, s, email, password, now).body.Bearer?
    ensures ResetPassword(c, AsWritten, s, SignIn(c, s, email, password, now).body.accessToken, newPassword, check, later).response ==
      Ok(Message("Password changed"))
  {
  }

  /** With the purpose check, the same bearer token is refused and nothing changes. */
  lemma CheckedResetRejectsSignInToken(c: RouterConfig, v: Variant, s: Store, email: string, password: Option<string>, now: int, later: int, newPassword: string, check: string)
    requires v.resetChecksPurpose
    requires WellKeyed(s.users) && Verifies(c.pubKey, c.privKey)
    requires SignIn(c, s, email, password, now).Ok?
    requires later <= now + Lifetime(Some(c.expireLimit))
    ensures SignIn(c, s, email, password, now).body.Bearer?
    ensures ResetPassword(c, v, s, SignIn(c, s, email, password, now).body.accessToken, newPassword, check, later) ==
      Outcome(Err(400, "Could not validate credentials"), s)
  {
  }

  // ----- resend_activation -----

  /** Guard order of resend_activation: unknown email, then already active; each refusal changes nothing. */
  lemma ResendActivationPrecedence(c: RouterConfig, v: Variant, s: Store, email: string, now: int)
    ensures email !in s.users ==>
      ResendActivation(c, v, s, email, now) == Outcome(Err(400, "Email not found"), s)
    ensures email in s.users && s.users[email].isActive ==>
      ResendActivation(c, v, s, email, now) == Outcome(Err(400, "Email already activated"), s)
    ensures ResendActivation(c, v, s, email, now).store.users == s.users
  {
  }

  /** As intended, an inactive user gets exactly one more "Activate" email, addressed to that email. */
  lemma ResendActivationQueuesOneEmail(c: RouterConfig, s: Store, email: string, now: int)
    requires email in s.users && !s.users[email].isActive
    ensures var o := ResendActivation(c, Intended, s, email, now);
      && o.response == Ok(Message("Check your email for confirmation message"))
      && o.store.users == s.users
      && o.store.outbox == s.outbox + [ActivationEmail(c, email, now)]
      && ActivationEmail(c, email, now).recipient == email
      && ActivationEmail(c, email, now).subject == "Activate"
  {
  }
}
