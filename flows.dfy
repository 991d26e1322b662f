/**
 * The seven request handlers of the user router, each as a transition over the router's
 * state: the user table and the queue of emails handed to the background mailer. A handler
 * runs its chain of guards and either fails with an HTTP status and detail or returns a
 * body, together with the state it leaves behind.
 *
 * Three defects of the handlers are kept as written and made explicit by a `Variant`; the
 * variant `AsWritten` is the code as it stands.
 */
module Flows {
  import opened Wrappers
  import opened Jose
  import opened Config
  import opened Crud
  import opened Utils

  /** An email handed to `send_link_email`: recipient, the token its link carries, body text, subject. */
  datatype Email = Email(recipient: string, token: Jwt, body: string, subject: string)

  /** The state the handlers act on. */
  datatype Store = Store(users: Users, outbox: seq<Email>)

  /**
   * A successful response body: `{"access_token": t, "token_type": "bearer"}`,
   * `{"status": "ok", "message": m}`, or a redirect.
   */
  datatype Body = Bearer(accessToken: Jwt) | Message(text: string) | Redirect(location: string)

  /** A response: a body, or an HTTPException's status and detail. */
  datatype Response = Ok(body: Body) | Err(status: int, detail: string)

  /** A response and the state after the handler ran. */
  datatype Outcome = Outcome(response: Response, store: Store)

  /** What the web framework answers when a handler raises an exception it does not catch. */
  const InternalServerError: Response := Err(500, "Internal Server Error")

  /** Where `activate` redirects a newly activated user (a fixed path, not a configured one). */
  const AfterActivation: string := "/app"

  /** Token lifetimes fixed in the handlers, in minutes. */
  const ActivationLifetime: int := 60 * 3
  const ResetLifetime: int := 30

  /**
   * Three points where the handlers as written cannot do what they evidently mean to:
   * - `nestedCrud`: `sign_up` calls `config.crud.crud.create_user`; with an ordinary adapter
   *   the attribute `crud` does not exist and the call raises AttributeError. True models an
   *   adapter that exposes itself (or an equivalent) under that name.
   * - `tokenKeysPassed`: the token calls of `sign_up`, `sign_in_google`, `get_reset_link` and
   *   `resend_activation` do not pass `priv_key` and `algo`, so each raises TypeError. True
   *   models them signing with the configured key and algorithm, as `sign_in` does.
   * - `resetChecksPurpose`: `reset_password` decodes without `is_reset=True`. True models the
   *   decode with the purpose check.
   */
  datatype Variant = Variant(nestedCrud: bool, tokenKeysPassed: bool, resetChecksPurpose: bool)

  /** The handlers exactly as written. */
  const AsWritten: Variant := Variant(false, false, false)

  /** The behaviour the handlers evidently intend at those three points. */
  const Intended: Variant := Variant(true, true, true)

  /** The decoded claims of the Google ID token that `sign_in_google` uses. */
  datatype GoogleIdentity = GoogleIdentity(email: string, emailVerified: bool)

  /**
   * The `except JWTError` clause around `decode_token`. Every library decoding error,
   * ExpiredSignatureError included, is a JWTError, so this clause catches them all and the
   * following "Token has expired" clause is never reached; the HTTPException that
   * `decode_token` itself raises is no JWTError and reaches the caller unchanged.
   */
  function DecodeFailure(e: DecodeError): (r: Response)
    ensures r.Err? && r.status == 400
    ensures r.detail == "Token validation error" <==> e.JoseFailure?
    ensures r.detail != "Token has expired"
    ensures e == InvalidCredentials ==> r == Err(400, "Could not validate credentials")
  {
    match e
    case JoseFailure(_) => Err(400, "Token validation error")
    case InvalidCredentials => Err(400, "Could not validate credentials")
  }

  /** The token that `sign_in` and `sign_in_google` hand out for `email`. */
  function BearerToken(c: RouterConfig, email: string, now: int): (t: Jwt)
    ensures t.Signed? && t.signer == c.privKey && t.alg == c.algorithm
    ensures t.claims.Keys == {SubClaim, ExpClaim} && t.claims[SubClaim] == Str(email)
    ensures t.claims[ExpClaim] == Num(now + Lifetime(Some(c.expireLimit)))
  {
    CreateAccessToken(c.privKey, c.algorithm, map[SubClaim := Str(email)], Some(c.expireLimit), now)
  }

  /** The activation email that `sign_up` and `resend_activation` queue for `email`. */
  function ActivationEmail(c: RouterConfig, email: string, now: int): (m: Email)
    ensures m.recipient == email && m.subject == "Activate"
    ensures m.token.Signed? && m.token.signer == c.privKey && m.token.alg == c.algorithm
    ensures m.token.claims == map[SubClaim := Str(email), ExpClaim := Num(now + ActivationLifetime)]
  {
    var token := CreateAccessToken(c.privKey, c.algorithm, map[SubClaim := Str(email)], Some(ActivationLifetime), now);
    Email(email, token, "Click the link to activate your account", "Activate")
  }

  /** The reset email that `get_reset_link` queues for `email`. */
  function ResetEmail(c: RouterConfig, email: string, now: int): (m: Email)
    ensures m.recipient == email && m.subject == "Reset password"
    ensures m.token.Signed? && m.token.signer == c.privKey && m.token.alg == c.algorithm
    ensures m.token.claims == map[SubClaim := Str(email), TypeClaim := Str(ResetType), ExpClaim := Num(now + ResetLifetime)]
  {
    var data := map[SubClaim := Str(email), TypeClaim := Str(ResetType)];
    var token := CreateAccessToken(c.privKey, c.algorithm, data, Some(ResetLifetime), now);
    Email(email, token, "Click the link to reset your password", "Reset password")
  }

  /** `POST /sign_in`: read-only. */
  function SignIn(c: RouterConfig, s: Store, email: string, password: Option<string>, now: int): (r: Response)
    ensures r.Err? ==> r.status == 400 || r.status == 401
    ensures r.Ok? ==> r.body.Bearer? && email in s.users && s.users[email].isActive && password.Some?
  {
    match AuthenticateUser(s.users, c.passwordHash, email, password)
    case ProviderConflict => Err(400, "Already registered through Google")
    case Absent => Err(401, "Incorrect username or password")
    case Found(user) =>
      if !user.isActive then Err(400, "Inactive user")
      else Ok(Bearer(BearerToken(c, user.email, now)))
  }

  /** `POST /sign_up`. */
  function SignUp(c: RouterConfig, v: Variant, s: Store, email: string, password: string, now: int): (o: Outcome)
    ensures o.response.Ok? <==> email !in s.users && v.nestedCrud && v.tokenKeysPassed
    ensures o.response.Err? && o.response.status == 400 ==> o.store == s
    ensures o.store.outbox != s.outbox ==> o.response.Ok?
    ensures o.store.users.Keys <= s.users.Keys + {email}
  {
    if email in s.users then Outcome(Err(400, "Email already registered"), s)
    else if !v.nestedCrud then Outcome(InternalServerError, s)
    else
      var created := s.(users := CreateUser(s.users, c.passwordHash, email, Some(password), EmailProvider));
      if !v.tokenKeysPassed then Outcome(InternalServerError, created)
      else
        Outcome(Ok(Message("Check email for confirmation message")),
                created.(outbox := s.outbox + [ActivationEmail(c, email, now)]))
  }

  /** `GET /activate/{token}`. */
  function Activate(c: RouterConfig, s: Store, token: Jwt, now: int): (o: Outcome)
    ensures o.store.outbox == s.outbox && o.store.users.Keys == s.users.Keys
    ensures o.store != s ==> o.response == Ok(Redirect(AfterActivation))
    ensures o.response.Err? ==> o.response.status == 400
  {
    match DecodeToken(token, c, false, now)
    case Failure(e) => Outcome(DecodeFailure(e), s)
    case Success(tokenData) =>
      var email := tokenData.username;
      if email !in s.users then Outcome(Err(400, "No user for the token"), s)
      else if s.users[email].isActive then Outcome(Ok(Message("Email already confirmed")), s)
      else
        Outcome(Ok(Redirect(AfterActivation)),
                s.(users := s.users[email := s.users[email].(isActive := true)]))
  }

  /** `POST /sign_in_google`, given the claims of the verified Google ID token. */
  function SignInGoogle(c: RouterConfig, v: Variant, s: Store, google: GoogleIdentity, now: int): (o: Outcome)
    ensures o.store.outbox == s.outbox
    ensures o.store.users.Keys <= s.users.Keys + {google.email}
    ensures o.response.Err? && o.response.status == 400 ==> o.store == s
    ensures o.response.Ok? ==>
      google.emailVerified && o.response.body.Bearer? &&
      google.email in o.store.users && o.store.users[google.email].serviceProvider == Some(GoogleProvider)
  {
    if !google.emailVerified then Outcome(Err(400, "Email not verified"), s)
    else
      var lookup := AuthenticateUserGoogle(s.users, google.email);
      if lookup.ProviderConflict? then Outcome(Err(400, "Already registered with email"), s)
      else
        var s' := if lookup.Absent?
                  then s.(users := CreateUser(s.users, c.passwordHash, google.email, None, GoogleProvider))
                  else s;
        if !v.tokenKeysPassed then Outcome(InternalServerError, s')
        else Outcome(Ok(Bearer(BearerToken(c, google.email, now))), s')
  }

  /** `GET /reset_password?email=`. */
  function GetResetLink(c: RouterConfig, v: Variant, s: Store, email: string, now: int): (o: Outcome)
    ensures !o.response.Ok? ==> o.store == s
    ensures o.response.Ok? ==>
      email in s.users && s.users[email].isActive && s.users[email].serviceProvider != Some(GoogleProvider) &&
      |o.store.outbox| == |s.outbox| + 1 && o.store.outbox[|s.outbox|].recipient == email
  {
    if email !in s.users then Outcome(Err(400, "User does not exists"), s)
    else if !s.users[email].isActive then Outcome(Err(400, "User not activated"), s)
    else if s.users[email].serviceProvider == Some(GoogleProvider) then Outcome(Err(400, "Registered through google"), s)
    else if !v.tokenKeysPassed then Outcome(InternalServerError, s)
    else Outcome(Ok(Message("Check email for reset link")), s.(outbox := s.outbox + [ResetEmail(c, email, now)]))
  }

  /** `POST /reset_password/{token}`; `passwordcheck` is received but never compared. */
  function ResetPassword(c: RouterConfig, v: Variant, s: Store, token: Jwt, password: string, passwordcheck: string, now: int): (o: Outcome)
    ensures o.store.outbox == s.outbox && o.store.users.Keys == s.users.Keys
    ensures !o.response.Ok? ==> o.store == s
    ensures o.response.Ok? ==> exists e :: e in s.users && o.store.users[e].hashedPassword == Some(c.passwordHash(password))
  {
    match DecodeToken(token, c, v.resetChecksPurpose, now)
    case Failure(e) => Outcome(DecodeFailure(e), s)
    case Success(tokenData) =>
      var email := tokenData.username;
      if email !in s.users then Outcome(Err(400, "No user for the token"), s)
      else
        Outcome(Ok(Message("Password changed")),
                s.(users := s.users[email := s.users[email].(hashedPassword := Some(c.passwordHash(password)))]))
  }

  /** `GET /resend_activation`. */
  function ResendActivation(c: RouterConfig, v: Variant, s: Store, email: string, now: int): (o: Outcome)
    ensures o.store.users == s.users
    ensures !o.response.Ok? ==> o.store == s
    ensures o.response.Ok? ==>
      email in s.users && !s.users[email].isActive &&
      |o.store.outbox| == |s.outbox| + 1 && o.store.outbox[|s.outbox|].recipient == email
  {
    if email !in s.users then Outcome(Err(400, "Email not found"), s)
    else if s.users[email].isActive then Outcome(Err(400, "Email already activated"), s)
    else if !v.tokenKeysPassed then Outcome(InternalServerError, s)
    else
      Outcome(Ok(Message("Check your email for confirmation message")),
              s.(outbox := s.outbox + [ActivationEmail(c, email, now)]))
  }
}
