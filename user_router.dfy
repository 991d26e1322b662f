/**
 * The router object: the user table and the mail queue as fields that the handlers update
 * in place. Each handler is proved to produce exactly the response and the new state that
 * the corresponding transition in `Flows` prescribes.
 */
module UserRouter {
  import opened Wrappers
  import opened Jose
  import opened Config
  import opened Crud
  import opened Utils
  import opened Flows

  class Router {
    const config: RouterConfig
    const variant: Variant
    var users: Users
    var outbox: seq<Email>

    /** Every user row is stored under its own email. */
    ghost predicate Valid()
      reads this
    {
      WellKeyed(users)
    }

    /** The state as the transitions see it. */
    function State(): Store
      reads this
    {
      Store(users, outbox)
    }

    constructor (config: RouterConfig, variant: Variant, users: Users)
      requires WellKeyed(users)
      ensures Valid()
      ensures this.config == config && this.variant == variant
      ensures this.users == users && outbox == []
    {
      this.config := config;
      this.variant := variant;
      this.users := users;
      outbox := [];
    }

    method SignIn(email: string, password: Option<string>, now: int) returns (r: Response)
      ensures r == Flows.SignIn(config, State(), email, password, now)
    {
      var lookup := AuthenticateUser(users, config.passwordHash, email, password);
      if lookup.ProviderConflict? {
        return Err(400, "Already registered through Google");
      }
      if lookup.Absent? {
        return Err(401, "Incorrect username or password");
      }
      if !lookup.user.isActive {
        return Err(400, "Inactive user");
      }
      var token := CreateAccessToken(config.privKey, config.algorithm, map[SubClaim := Str(lookup.user.email)],
                                     Some(config.expireLimit), now);
      return Ok(Bearer(token));
    }

    method SignUp(email: string, password: string, now: int) returns (r: Response)
      requires Valid()
      modifies this`users, this`outbox
      ensures Valid()
      ensures Outcome(r, State()) == Flows.SignUp(config, variant, old(State()), email, password, now)
    {
      if email in users {
        return Err(400, "Email already registered");
      }
      if !variant.nestedCrud {
        return InternalServerError;
      }
      users := CreateUser(users, config.passwordHash, email, Some(password), EmailProvider);
      if !variant.tokenKeysPassed {
        return InternalServerError;
      }
      var token := CreateAccessToken(config.privKey, config.algorithm, map[SubClaim := Str(email)],
                                     Some(ActivationLifetime), now);
      outbox := outbox + [Email(email, token, "Click the link to activate your account", "Activate")];
      return Ok(Message("Check email for confirmation message"));
    }

    method Activate(token: Jwt, now: int) returns (r: Response)
      requires Valid()
      modifies this`users
      ensures Valid()
      ensures Outcome(r, State()) == Flows.Activate(config, old(State()), token, now)
    {
      var decoded := DecodeToken(token, config, false, now);
      if decoded.Failure? {
        return DecodeFailure(decoded.error);
      }
      var email := decoded.value.username;
      if email !in users {
        return Err(400, "No user for the token");
      }
      var user := users[email];
      if user.isActive {
        return Ok(Message("Email already confirmed"));
      }
      users := users[email := user.(isActive := true)];
      return Ok(Redirect(AfterActivation));
    }

    method SignInGoogle(google: GoogleIdentity, now: int) returns (r: Response)
      requires Valid()
      modifies this`users
      ensures Valid()
      ensures Outcome(r, State()) == Flows.SignInGoogle(config, variant, old(State()), google, now)
    {
      if !google.emailVerified {
        return Err(400, "Email not verified");
      }
      var lookup := AuthenticateUserGoogle(users, google.email);
      if lookup.ProviderConflict? {
        return Err(400, "Already registered with email");
      }
      if lookup.Absent? {
        users := CreateUser(users, config.passwordHash, google.email, None, GoogleProvider);
      }
      if !variant.tokenKeysPassed {
        return InternalServerError;
      }
      var token := CreateAccessToken(config.privKey, config.algorithm, map[SubClaim := Str(google.email)],
                                     Some(config.expireLimit), now);
      return Ok(Bearer(token));
    }

    method GetResetLink(email: string, now: int) returns (r: Response)
      requires Valid()
      modifies this`outbox
      ensures Valid()
      ensures Outcome(r, State()) == Flows.GetResetLink(config, variant, old(State()), email, now)
    {
      if email !in users {
        return Err(400, "User does not exists");
      }
      var user := users[email];
      if !user.isActive {
        return Err(400, "User not activated");
      }
      if user.serviceProvider == Some(GoogleProvider) {
        return Err(400, "Registered through google");
      }
      if !variant.tokenKeysPassed {
        return InternalServerError;
      }
      var data := map[SubClaim := Str(email), TypeClaim := Str(ResetType)];
      var token := CreateAccessToken(config.privKey, config.algorithm, data, Some(ResetLifetime), now);
      outbox := outbox + [Email(email, token, "Click the link to reset your password", "Reset password")];
      return Ok(Message("Check email for reset link"));
    }

    method ResetPassword(token: Jwt, password: string, passwordcheck: string, now: int) returns (r: Response)
      requires Valid()
      modifies this`users
      ensures Valid()
      ensures Outcome(r, State()) == Flows.ResetPassword(config, variant, old(State()), token, password, passwordcheck, now)
    {
      var decoded := DecodeToken(token, config, variant.resetChecksPurpose, now);
      if decoded.Failure? {
        return DecodeFailure(decoded.error);
      }
      var email := decoded.value.username;
      if email !in users {
        return Err(400, "No user for the token");
      }
      users := users[email := users[email].(hashedPassword := Some(config.passwordHash(password)))];
      return Ok(Message("Password changed"));
    }

    method ResendActivation(email: string, now: int) returns (r: Response)
      requires Valid()
      modifies this`outbox
      ensures Valid()
      ensures Outcome(r, State()) == Flows.ResendActivation(config, variant, old(State()), email, now)
    {
      if email !in users {
        return Err(400, "Email not found");
      }
      if users[email].isActive {
        return Err(400, "Email already activated");
      }
      if !variant.tokenKeysPassed {
        return InternalServerError;
      }
      var token := CreateAccessToken(config.privKey, config.algorithm, map[SubClaim := Str(email)],
                                     Some(ActivationLifetime), now);
      outbox := outbox + [Email(email, token, "Click the link to activate your account", "Activate")];
      return Ok(Message("Check your email for confirmation message"));
    }
  }
}
