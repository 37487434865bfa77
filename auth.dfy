/**
 * Sign-in (app/lib/auth.ts): the credentials provider's `authorize`
 * decision and the `jwt` and `session` callbacks. The user table is a
 * sequence searched by email (the column is unique); bcrypt is a parameter.
 */
module Auth {
  import opened Wrappers
  import Http

  datatype User = User(id: string, email: Option<string>, name: Option<string>, role: string, passwordHash: string)

  /** The submitted form; either field may be absent. */
  datatype Credentials = Credentials(email: Option<string>, password: Option<string>)

  /** What `authorize` hands to next-auth. */
  datatype AuthUser = AuthUser(id: string, email: string, name: string, role: string)

  const DEMO_EMAIL: string := "john@doe.com"
  const DEMO_PASSWORD: string := "johndoe123"

  /** `prisma.user.findUnique({ where: { email } })`: the user with that email, if any. */
  function FindUser(users: seq<User>, email: string): (found: Option<User>)
    ensures found.Some? ==> found.value in users && found.value.email == Some(email)
    ensures found.None? ==> forall u :: u in users ==> u.email != Some(email)
  {
    if users == [] then None
    else if users[0].email == Some(email) then Some(users[0])
    else FindUser(users[1..], email)
  }

  /** The record returned for a user; a missing email or name becomes "". */
  function ToAuthUser(u: User): (a: AuthUser)
    ensures a.id == u.id && a.role == u.role
    ensures a.email == (if u.email.Some? then u.email.value else "")
    ensures a.name == (if u.name.Some? then u.name.value else "")
  {
    AuthUser(u.id, u.email.GetOr(""), u.name.GetOr(""), u.role)
  }

  /** Both fields were filled in. */
  predicate Filled(credentials: Option<Credentials>) {
    credentials.Some? && Http.Truthy(credentials.value.email) && Http.Truthy(credentials.value.password)
  }

  /**
   * `authorize` as written: the demo branch and the final return give the
   * same record, and the password comparison is commented out, so any
   * password signs in a known user.
   */
  function Authorize(users: seq<User>, credentials: Option<Credentials>): (r: Option<AuthUser>)
    ensures r.Some? <==> Filled(credentials) && FindUser(users, credentials.value.email.value).Some?
    ensures r.Some? ==> r.value == ToAuthUser(FindUser(users, credentials.value.email.value).value)
  {
    if !Filled(credentials) then None
    else
      var email := credentials.value.email.value;
      var password := credentials.value.password.value;
      match FindUser(users, email)
      case None => None
      case Some(user) =>
        if email == DEMO_EMAIL && password == DEMO_PASSWORD then Some(ToAuthUser(user))
        else Some(ToAuthUser(user))
  }

  /** The password plays no part in the decision. */
  lemma PasswordIgnored(users: seq<User>, email: string, password: string, other: string)
    requires password != "" && other != ""
    ensures Authorize(users, Some(Credentials(Some(email), Some(password))))
         == Authorize(users, Some(Credentials(Some(email), Some(other))))
  {
  }

  /** A known user whose hash does not match the typed password still signs in. */
  lemma WrongPasswordSignsIn()
    ensures var users := [User("u1", Some("ann@example.com"), None, "user", "$2a$12$hash")];
            var credentials := Some(Credentials(Some("ann@example.com"), Some("wrong")));
            var bcryptMatches := (u: User, p: string) => false;
            && Authorize(users, credentials) == Some(AuthUser("u1", "ann@example.com", "", "user"))
            && AuthorizeChecked(users, credentials, bcryptMatches) == None
  {
  }

  /**
   * `authorize` with the commented-out check in place: outside the demo
   * account a known user is returned only when `passwordMatches` (bcrypt's
   * compare against the stored hash) accepts the password.
   */
  function AuthorizeChecked(users: seq<User>, credentials: Option<Credentials>, passwordMatches: (User, string) -> bool)
    : (r: Option<AuthUser>)
    ensures r.Some? <==>
      && Filled(credentials)
      && FindUser(users, credentials.value.email.value).Some?
      && ((credentials.value.email.value == DEMO_EMAIL && credentials.value.password.value == DEMO_PASSWORD)
          || passwordMatches(FindUser(users, credentials.value.email.value).value, credentials.value.password.value))
  {
    if !Filled(credentials) then None
    else
      var email := credentials.value.email.value;
      var password := credentials.value.password.value;
      match FindUser(users, email)
      case None => None
      case Some(user) =>
        if email == DEMO_EMAIL && password == DEMO_PASSWORD then Some(ToAuthUser(user))
        else if !passwordMatches(user, password) then None
        else Some(ToAuthUser(user))
  }

  /** The checked decision only ever narrows the written one: it admits no one new, with the same record. */
  lemma CheckedRefinesWritten(users: seq<User>, credentials: Option<Credentials>, passwordMatches: (User, string) -> bool)
    ensures AuthorizeChecked(users, credentials, passwordMatches).Some? ==>
      AuthorizeChecked(users, credentials, passwordMatches) == Authorize(users, credentials)
  {
  }

  // ---------------------------------------------------------------- callbacks

  /** The JWT; `sub` is the user id next-auth puts there. */
  datatype Token = Token(sub: Option<string>, role: Option<string>)

  /** The `jwt` callback: copy the role when a sign-in just happened. */
  function Jwt(token: Token, user: Option<AuthUser>): (t: Token)
    ensures t.sub == token.sub
    ensures user.Some? ==> t.role == Some(user.value.role)
    ensures user.None? ==> t == token
  {
    if user.Some? then token.(role := Some(user.value.role)) else token
  }

  /** The role a sign-in writes survives every later refresh without a user. */
  lemma {:induction false} RoleSurvivesRefreshes(token: Token, u: AuthUser, refreshes: nat)
    ensures Refreshed(Jwt(token, Some(u)), refreshes).role == Some(u.role)
  {
    if refreshes > 0 {
      RoleSurvivesRefreshes(token, u, refreshes - 1);
    }
  }

  function Refreshed(token: Token, n: nat): Token {
    if n == 0 then token else Jwt(Refreshed(token, n - 1), None)
  }

  datatype SessionUser = SessionUser(id: Option<string>, email: string, name: string, role: Option<string>)

  /** The `session` callback: id from `sub`, role from the token, when both a token and a user exist. */
  function Session(user: Option<SessionUser>, token: Option<Token>): (r: Option<SessionUser>)
    ensures r.Some? <==> user.Some?
    ensures token.None? ==> r == user
    ensures r.Some? ==> r.value.email == user.value.email && r.value.name == user.value.name
    ensures token.Some? && user.Some? ==> r.value.id == token.value.sub && r.value.role == token.value.role
  {
    if token.Some? && user.Some? then Some(user.value.(id := token.value.sub, role := token.value.role)) else user
  }

  /**
   * From `authorize` (with the password check in place) through `jwt` to
   * `session`: a signed-in user's session carries that user's id and role.
   */
  lemma SignInReachesSession(users: seq<User>, credentials: Option<Credentials>, passwordMatches: (User, string) -> bool,
                             token: Token, shown: SessionUser)
    requires AuthorizeChecked(users, credentials, passwordMatches).Some?
    requires token.sub == Some(AuthorizeChecked(users, credentials, passwordMatches).value.id)
    ensures var u := FindUser(users, credentials.value.email.value).value;
            var s := Session(Some(shown), Some(Jwt(token, AuthorizeChecked(users, credentials, passwordMatches))));
            s.Some? && s.value.id == Some(u.id) && s.value.role == Some(u.role)
  {
    CheckedRefinesWritten(users, credentials, passwordMatches);
  }
}
