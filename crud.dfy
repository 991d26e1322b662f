/**
 * The user record and the storage adapter (`BaseCrud`) the router works through. The adapter
 * is an abstract interface in the system; this module fixes the reference behaviour the
 * handlers rely on, over a table of users keyed by email.
 */
module Crud {
  import opened Wrappers

  /** A row of the user table: `email`, `hashed_password`, `is_active`, `service_provider_name`. */
  datatype User = User(email: string, hashedPassword: Option<string>, isActive: bool, serviceProvider: Option<string>)

  /** The user table, keyed by the (unique, case-sensitive) email. */
  type Users = map<string, User>

  /** Every row is stored under its own email. */
  ghost predicate WellKeyed(users: Users)
  {
    forall e :: e in users ==> users[e].email == e
  }

  /** Provider names the router passes to `create_user`. */
  const EmailProvider: string := "email"
  const GoogleProvider: string := "google"

  /** What an authentication call yields: a user, nothing, or the ValueError for the other provider. */
  datatype Lookup = Found(user: User) | Absent | ProviderConflict

  /**
   * `authenticate_user(email, password)`: a user registered through Google raises ValueError;
   * otherwise the user comes back exactly when a password was given and the stored hash is
   * its hash. The password of a sign-in request is optional, and a missing one matches no row.
   */
  function AuthenticateUser(users: Users, passwordHash: string -> string, email: string, password: Option<string>): (r: Lookup)
    ensures r.ProviderConflict? <==> email in users && users[email].serviceProvider == Some(GoogleProvider)
    ensures r.Found? <==>
      email in users && users[email].serviceProvider != Some(GoogleProvider) &&
      password.Some? && users[email].hashedPassword == Some(passwordHash(password.value))
    ensures r.Found? ==> r.user == users[email]
  {
    if email !in users then Absent
    else if users[email].serviceProvider == Some(GoogleProvider) then ProviderConflict
    else if password.Some? && users[email].hashedPassword == Some(passwordHash(password.value)) then Found(users[email])
    else Absent
  }

  /**
   * `authenticate_user_google(email)`: a user registered any other way than through Google
   * raises ValueError; a Google user comes back; an unknown email gives nothing.
   */
  function AuthenticateUserGoogle(users: Users, email: string): (r: Lookup)
    ensures r.Absent? <==> email !in users
    ensures r.ProviderConflict? <==> email in users && users[email].serviceProvider != Some(GoogleProvider)
    ensures r.Found? ==> r.user == users[email] && r.user.serviceProvider == Some(GoogleProvider)
  {
    if email !in users then Absent
    else if users[email].serviceProvider != Some(GoogleProvider) then ProviderConflict
    else Found(users[email])
  }

  /**
   * `create_user(user, service_provider)`: inserts one row under `email`, inactive (the column
   * default), with the hash of the password when one is given, and commits it. Every other
   * row is left as it was.
   */
  function CreateUser(users: Users, passwordHash: string -> string, email: string, password: Option<string>, provider: string): (r: Users)
    ensures r.Keys == users.Keys + {email}
    ensures r[email].email == email && !r[email].isActive && r[email].serviceProvider == Some(provider)
    ensures r[email].hashedPassword == if password.Some? then Some(passwordHash(password.value)) else None
    ensures forall e :: e in users && e != email ==> r[e] == users[e]
    ensures WellKeyed(users) ==> WellKeyed(r)
  {
    var hashed := if password.Some? then Some(passwordHash(password.value)) else None;
    users[email := User(email, hashed, false, Some(provider))]
  }
}
