/**
 * The account state machine over whole sequences of requests: what holds however the seven
 * handlers are called, one after another.
 */
module Traces {
  import opened Wrappers
  import opened Jose
  import opened Config
  import opened Crud
  import opened Flows

  /** One request to the router, by route. */
  datatype Request =
    | PostSignIn(email: string, optionalPassword: Option<string>)
    | PostSignUp(email: string, password: string)
    | GetActivate(token: Jwt)
    | PostSignInGoogle(google: GoogleIdentity)
    | GetResetPassword(email: string)
    | PostResetPassword(token: Jwt, password: string, passwordcheck: string)
    | GetResendActivation(email: string)

  /** A request and the time, in minutes, at which it is handled. */
  datatype Call = Call(request: Request, now: int)

  /** One request, handled: sign-in is read-only, and no request queues more than one email. */
  function Step(c: RouterConfig, v: Variant, s: Store, call: Call): (o: Outcome)
    ensures call.request.PostSignIn? ==> o.store == s
    ensures o.store.outbox == s.outbox || (|o.store.outbox| == |s.outbox| + 1 && s.outbox <= o.store.outbox)
  {
    var now := call.now;
    match call.request
    case PostSignIn(email, password) => Outcome(SignIn(c, s, email, password, now), s)
    case PostSignUp(email, password) => SignUp(c, v, s, email, password, now)
    case GetActivate(token) => Activate(c, s, token, now)
    case PostSignInGoogle(google) => SignInGoogle(c, v, s, google, now)
    case GetResetPassword(email) => GetResetLink(c, v, s, email, now)
    case PostResetPassword(token, password, passwordcheck) => ResetPassword(c, v, s, token, password, passwordcheck, now)
    case GetResendActivation(email) => ResendActivation(c, v, s, email, now)
  }

  /** The state after handling `calls` in order: the queue only grows, by at most one email per request. */
  function Run(c: RouterConfig, v: Variant, s: Store, calls: seq<Call>): (r: Store)
    ensures s.outbox <= r.outbox && |r.outbox| <= |s.outbox| + |calls|
    decreases |calls|
  {
    if calls == [] then s else Run(c, v, Step(c, v, s, calls[0]).store, calls[1..])
  }

  /**
   * How the state may evolve: no user is deleted, a user's email and provider never change,
   * no active user becomes inactive again, and emails already queued stay queued.
   */
  ghost predicate Evolves(s: Store, s': Store)
  {
    && (forall e :: e in s.users ==>
          && e in s'.users
          && s'.users[e].email == s.users[e].email
          && s'.users[e].serviceProvider == s.users[e].serviceProvider
          && (s.users[e].isActive ==> s'.users[e].isActive))
    && s.outbox <= s'.outbox
  }

  lemma EvolvesTransitive(s1: Store, s2: Store, s3: Store)
    requires Evolves(s1, s2) && Evolves(s2, s3)
    ensures Evolves(s1, s3)
  {
  }

  lemma SignUpEvolves(c: RouterConfig, v: Variant, s: Store, email: string, password: string, now: int)
    requires WellKeyed(s.users)
    ensures Evolves(s, SignUp(c, v, s, email, password, now).store)
    ensures WellKeyed(SignUp(c, v, s, email, password, now).store.users)
  {
  }

  lemma ActivateEvolves(c: RouterConfig, s: Store, token: Jwt, now: int)
    requires WellKeyed(s.users)
    ensures Evolves(s, Activate(c, s, token, now).store)
    ensures WellKeyed(Activate(c, s, token, now).store.users)
  {
  }

  lemma SignInGoogleEvolves(c: RouterConfig, v: Variant, s: Store, google: GoogleIdentity, now: int)
    requires WellKeyed(s.users)
    ensures Evolves(s, SignInGoogle(c, v, s, google, now).store)
    ensures WellKeyed(SignInGoogle(c, v, s, google, now).store.users)
  {
  }

  lemma GetResetLinkEvolves(c: RouterConfig, v: Variant, s: Store, email: string, now: int)
    requires WellKeyed(s.users)
    ensures Evolves(s, GetResetLink(c, v, s, email, now).store)
    ensures WellKeyed(GetResetLink(c, v, s, email, now).store.users)
  {
  }

  lemma ResetPasswordEvolves(c: RouterConfig, v: Variant, s: Store, token: Jwt, password: string, passwordcheck: string, now: int)
    requires WellKeyed(s.users)
    ensures Evolves(s, ResetPassword(c, v, s, token, password, passwordcheck, now).store)
    ensures WellKeyed(ResetPassword(c, v, s, token, password, passwordcheck, now).store.users)
  {
  }

  lemma ResendActivationEvolves(c: RouterConfig, v: Variant, s: Store, email: string, now: int)
    requires WellKeyed(s.users)
    ensures Evolves(s, ResendActivation(c, v, s, email, now).store)
    ensures WellKeyed(ResendActivation(c, v, s, email, now).store.users)
  {
  }

  /** Every handler respects `Evolves` and keeps the table well keyed. */
  lemma StepEvolves(c: RouterConfig, v: Variant, s: Store, call: Call)
    requires WellKeyed(s.users)
    ensures Evolves(s, Step(c, v, s, call).store)
    ensures WellKeyed(Step(c, v, s, call).store.users)
  {
    var now := call.now;
    match call.request
    case PostSignIn(_, _) =>
    case PostSignUp(email, password) => SignUpEvolves(c, v, s, email, password, now);
    case GetActivate(token) => ActivateEvolves(c, s, token, now);
    case PostSignInGoogle(google) => SignInGoogleEvolves(c, v, s, google, now);
    case GetResetPassword(email) => GetResetLinkEvolves(c, v, s, email, now);
    case PostResetPassword(token, password, passwordcheck) => ResetPasswordEvolves(c, v, s, token, password, passwordcheck, now);
    case GetResendActivation(email) => ResendActivationEvolves(c, v, s, email, now);
  }

  /** However the handlers are called, users are never deleted, re-provisioned or deactivated, and queued emails stay queued. */
  lemma {:induction false} RunEvolves(c: RouterConfig, v: Variant, s: Store, calls: seq<Call>)
    requires WellKeyed(s.users)
    ensures Evolves(s, Run(c, v, s, calls))
    ensures WellKeyed(Run(c, v, s, calls).users)
    decreases |calls|
  {
    if calls != [] {
      var s1 := Step(c, v, s, calls[0]).store;
      StepEvolves(c, v, s, calls[0]);
      RunEvolves(c, v, s1, calls[1..]);
      EvolvesTransitive(s, s1, Run(c, v, s1, calls[1..]));
    }
  }

  /** Every user a single handler creates is a Google user when the handlers run as written. */
  lemma StepAsWrittenCreatesOnlyGoogleUsers(c: RouterConfig, s: Store, call: Call)
    ensures s.outbox == Step(c, AsWritten, s, call).store.outbox
    ensures forall e :: e in Step(c, AsWritten, s, call).store.users && e !in s.users ==>
      Step(c, AsWritten, s, call).store.users[e].serviceProvider == Some(GoogleProvider)
  {
  }

  /** As written, no sequence of requests ever queues an email. */
  lemma {:induction false} RunAsWrittenQueuesNoEmail(c: RouterConfig, s: Store, calls: seq<Call>)
    ensures Run(c, AsWritten, s, calls).outbox == s.outbox
    decreases |calls|
  {
    if calls != [] {
      StepAsWrittenCreatesOnlyGoogleUsers(c, s, calls[0]);
      RunAsWrittenQueuesNoEmail(c, Step(c, AsWritten, s, calls[0]).store, calls[1..]);
    }
  }

  /** As written, no sequence of requests creates an email/password account: every new user comes from Google. */
  lemma {:induction false} RunAsWrittenCreatesOnlyGoogleUsers(c: RouterConfig, s: Store, calls: seq<Call>)
    requires WellKeyed(s.users)
    ensures forall e :: e in Run(c, AsWritten, s, calls).users && e !in s.users ==>
      Run(c, AsWritten, s, calls).users[e].serviceProvider == Some(GoogleProvider)
    decreases |calls|
  {
    if calls != [] {
      var s1 := Step(c, AsWritten, s, calls[0]).store;
      var final := Run(c, AsWritten, s1, calls[1..]);
      StepEvolves(c, AsWritten, s, calls[0]);
      StepAsWrittenCreatesOnlyGoogleUsers(c, s, calls[0]);
      RunAsWrittenCreatesOnlyGoogleUsers(c, s1, calls[1..]);
      RunEvolves(c, AsWritten, s1, calls[1..]);
      forall e | e in final.users && e !in s.users
        ensures final.users[e].serviceProvider == Some(GoogleProvider)
      {
        if e in s1.users {
          assert s1.users[e].serviceProvider == Some(GoogleProvider);
        }
      }
    }
  }
}
