/** The credentials provider and the session callbacks of the authentication
    setup. The user table is a map from e-mail address to user record. */
module Auth {
  import opened Options
  import opened Storage

  datatype Credentials = Credentials(email: Option<string>, password: Option<string>)

  /** A stored user; accounts made through an identity provider have no password. */
  datatype UserRecord = UserRecord(id: string, email: string, name: Option<string>, password: Option<string>)

  /** The user object `authorize` hands to the session layer. */
  datatype AuthorizedUser = AuthorizedUser(id: string, email: string, name: Option<string>)

  /** Both an e-mail address and a password were supplied, and neither is empty. */
  predicate Complete(credentials: Option<Credentials>) {
    credentials.Some? && Truthy(credentials.value.email) && Truthy(credentials.value.password)
  }

  /** `authorize`: a user is returned exactly when the credentials are complete,
      a user with that e-mail address exists, and its stored password equals
      the supplied one. */
  function Authorize(credentials: Option<Credentials>, users: map<string, UserRecord>): (r: Option<AuthorizedUser>)
    ensures r.Some? <==>
              Complete(credentials) && credentials.value.email.value in users
              && users[credentials.value.email.value].password == credentials.value.password
    ensures r.Some? ==>
              var u := users[credentials.value.email.value];
              r.value.id == u.id && r.value.email == u.email && r.value.name == u.name
  {
    if !Complete(credentials) then None
    else
      var email := credentials.value.email.value;
      if email in users && users[email].password == credentials.value.password then
        var u := users[email];
        Some(AuthorizedUser(u.id, u.email, u.name))
      else None
  }

  /** Incomplete credentials are refused before the user table is consulted:
      the answer is the same whatever the table holds. */
  lemma IncompleteRefusedBeforeLookup(credentials: Option<Credentials>, users1: map<string, UserRecord>, users2: map<string, UserRecord>)
    requires !Complete(credentials)
    ensures Authorize(credentials, users1) == Authorize(credentials, users2) == None
  {
  }

  /** A user without a stored password can never sign in with credentials. */
  lemma NoPasswordNoSignIn(credentials: Option<Credentials>, users: map<string, UserRecord>)
    requires Complete(credentials)
    requires credentials.value.email.value in users
    requires users[credentials.value.email.value].password.None?
    ensures Authorize(credentials, users).None?
  {
  }

  /** The JSON web token; `id` is absent until a user has been copied into it. */
  class Token {
    var id: Option<string>

    constructor (id: Option<string>)
      ensures this.id == id
    {
      this.id := id;
    }
  }

  class SessionUser {
    var id: Option<string>

    constructor (id: Option<string>)
      ensures this.id == id
    {
      this.id := id;
    }
  }

  class AuthSession {
    var user: SessionUser?

    constructor (user: SessionUser?)
      ensures this.user == user
    {
      this.user := user;
    }
  }

  /** The `jwt` callback: a signing-in user's id is copied into the token, which
      is then handed back; without a user the token is left alone. */
  method Jwt(token: Token, user: Option<AuthorizedUser>) returns (r: Token)
    modifies token
    ensures r == token
    ensures user.Some? ==> token.id == Some(user.value.id)
    ensures user.None? ==> token.id == old(token.id)
  {
    if user.Some? {
      token.id := Some(user.value.id);
    }
    r := token;
  }

  /** The `session` callback: the token's id is copied into the session's user
      when there is both a token and a session user. */
  method SessionCallback(session: AuthSession, token: Token?) returns (r: AuthSession)
    modifies session.user
    ensures r == session && session.user == old(session.user)
    ensures token != null && session.user != null ==> session.user.id == token.id
    ensures token == null && session.user != null ==> session.user.id == old(session.user.id)
  {
    if token != null && session.user != null {
      session.user.id := token.id;
    }
    r := session;
  }

  /** The `signIn` callback admits every sign-in, whichever provider it came
      through; credentials were already checked by `Authorize`. */
  function SignIn(user: Option<AuthorizedUser>, provider: Option<string>): (r: bool)
    ensures r
  {
    true
  }
}
