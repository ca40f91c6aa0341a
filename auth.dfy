/**
 * The admin sign-in: the credentials check (`authorize`) and the two
 * callbacks that carry the admin's id from the sign-in result into the
 * token and from the token into the session. The password hash comparison
 * is a parameter, `passwordMatches(password, hash)`.
 */
module Auth {
  import opened Wrappers
  import opened Js
  import opened Seqs
  import opened Store

  /** The submitted form: either field may be absent. */
  datatype Credentials = Credentials(username: Option<string>, password: Option<string>)

  /** The user object a successful sign-in yields. */
  datatype AuthUser = AuthUser(id: string, name: string, email: string)

  predicate HasUsername(a: Row<AdminUser>, username: string) {
    a.data.username == username
  }

  /** The sign-in answer for a stored admin whose password matched. */
  function SignedIn(admin: Row<AdminUser>): (u: AuthUser)
    ensures u.name == u.email == admin.data.username
    ensures ParseNumeral(u.id) == Finite(admin.id)
  {
    NumberOfString(admin.id);
    AuthUser(IntToString(admin.id), admin.data.username, admin.data.username)
  }

  /**
   * `authorize`: None unless both fields are present, an admin has that
   * username, and the password matches that admin's hash. An unknown user
   * and a wrong password give the same answer.
   */
  function Authorize(credentials: Option<Credentials>, admins: seq<Row<AdminUser>>, passwordMatches: (string, string) -> bool): (r: Option<AuthUser>)
    ensures credentials.None? || !Present(credentials.value.username) || !Present(credentials.value.password) ==> r.None?
    ensures r.Some? ==>
      exists i :: 0 <= i < |admins| && HasUsername(admins[i], credentials.value.username.value)
                  && passwordMatches(credentials.value.password.value, admins[i].data.passwordHash)
                  && r.value == SignedIn(admins[i])
    ensures credentials.Some? && Present(credentials.value.username) && Present(credentials.value.password)
            && (forall i :: 0 <= i < |admins| ==> !HasUsername(admins[i], credentials.value.username.value))
            ==> r.None?
  {
    if credentials.None? || !Present(credentials.value.username) || !Present(credentials.value.password) then None
    else
      var c := credentials.value;
      match Find(admins, a => HasUsername(a, c.username.value))
      case None => None
      case Some(admin) =>
        if !passwordMatches(c.password.value, admin.data.passwordHash) then None
        else Some(SignedIn(admin))
  }

  /**
   * With unique usernames, signing in as the admin stored at `k` succeeds
   * exactly when the password matches that admin's hash, and yields that
   * admin's id, with the username as name and e-mail.
   */
  lemma {:induction false} AuthorizeKnownAdmin(admins: seq<Row<AdminUser>>, k: nat, password: string, passwordMatches: (string, string) -> bool)
    requires UniqueUsernames(admins)
    requires k < |admins| && admins[k].data.username != "" && password != ""
    ensures Authorize(Some(Credentials(Some(admins[k].data.username), Some(password))), admins, passwordMatches) ==
      if passwordMatches(password, admins[k].data.passwordHash) then Some(SignedIn(admins[k])) else None
  {
    var u := admins[k].data.username;
    var i := FirstIndex(admins, a => HasUsername(a, u));
    assert i.Some? && i.value <= k;
    assert i.value == k;
  }

  /** The JWT being issued or refreshed; only the claim this site adds is modelled. */
  class Token {
    var id: Option<string>

    constructor (id: Option<string>)
      ensures this.id == id
    {
      this.id := id;
    }
  }

  /** `session.user` as the client sees it. */
  class SessionUser {
    var id: Option<string>
    var name: Option<string>

    constructor (name: Option<string>)
      ensures this.name == name && id.None?
    {
      this.name := name;
      id := None;
    }
  }

  /** The session object NextAuth builds; `user` may be missing. */
  class AuthSession {
    var user: SessionUser?

    constructor (user: SessionUser?)
      ensures this.user == user
    {
      this.user := user;
    }
  }

  /** The `jwt` callback: copy the signed-in user's id onto the token; without a user the token is unchanged. */
  method Jwt(token: Token, user: Option<AuthUser>) returns (t: Token)
    modifies token
    ensures t == token
    ensures user.Some? ==> token.id == Some(user.value.id)
    ensures user.None? ==> token.id == old(token.id)
  {
    if user.Some? {
      token.id := Some(user.value.id);
    }
    t := token;
  }

  /** The `session` callback: copy the token's id onto `session.user` when both exist. */
  method Session(session: AuthSession, token: Token?) returns (s: AuthSession)
    modifies session.user
    ensures s == session && session.user == old(session.user)
    ensures token != null && session.user != null ==> session.user.id == token.id
    ensures token == null && session.user != null ==> session.user.id == old(session.user.id)
    ensures session.user != null ==> session.user.name == old(session.user.name)
  {
    if token != null && session.user != null {
      session.user.id := token.id;
    }
    s := session;
  }

  /**
   * A sign-in as NextAuth runs it: `authorize`, then the `jwt` callback
   * with its result, then the `session` callback. After a successful
   * sign-in the session's user id reads back as the admin's stored id.
   */
  method SignIn(credentials: Option<Credentials>, admins: seq<Row<AdminUser>>, passwordMatches: (string, string) -> bool,
                token: Token, session: AuthSession) returns (user: Option<AuthUser>)
    requires session.user != null
    modifies token, session.user
    ensures user == Authorize(credentials, admins, passwordMatches)
    ensures user.Some? ==> session.user.id == token.id == Some(user.value.id)
    ensures user.Some? ==> exists i :: 0 <= i < |admins| && ParseNumeral(session.user.id.value) == Finite(admins[i].id)
    ensures user.None? ==> token.id == old(token.id) && session.user.id == old(token.id)
  {
    user := Authorize(credentials, admins, passwordMatches);
    var t := Jwt(token, user);
    var s := Session(session, t);
  }
}
