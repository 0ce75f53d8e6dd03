/**
 * Credential sign-in: the `authorize` decision, and the `jwt` and `session` callbacks
 * that carry the user id from the sign-in into the token and from the token into the
 * session.
 *
 * Password comparison is the parameter `compare(plain, hashed)`.
 */
module Auth {
  import opened Wrappers
  import opened Strings
  import opened Store

  /** Sessions last two hours. */
  const SessionMaxAge: nat := 2 * 60 * 60

  datatype Credentials = Credentials(email: Option<string>, password: Option<string>)

  /** What `authorize` hands to the session: id, email and name, never the password. */
  datatype AuthUser = AuthUser(id: nat, email: string, name: string)

  /** `authorize`: `None` (null) when a credential is missing or empty, when no user has the
      email, or when the password does not match; otherwise that user's id, email and
      name. */
  function Authorize(credentials: Option<Credentials>, users: seq<User>, compare: (string, string) -> bool)
    : (r: Option<AuthUser>)
    ensures credentials.None? || !Truthy(credentials.value.email) || !Truthy(credentials.value.password) ==> r.None?
    ensures (credentials.Some? && Truthy(credentials.value.email) && Truthy(credentials.value.password)
             && FindByEmail(users, credentials.value.email.value).None?) ==> r.None?
    ensures r.Some? <==>
      && credentials.Some? && Truthy(credentials.value.email) && Truthy(credentials.value.password)
      && FindByEmail(users, credentials.value.email.value).Some?
      && compare(credentials.value.password.value, users[FindByEmail(users, credentials.value.email.value).value].password)
    ensures r.Some? ==>
      var u := users[FindByEmail(users, credentials.value.email.value).value];
      r.value == AuthUser(u.id, u.email, u.name)
  {
    if credentials.None? || !Truthy(credentials.value.email) || !Truthy(credentials.value.password) then None
    else
      var found := FindByEmail(users, credentials.value.email.value);
      if found.None? then None
      else
        var user := users[found.value];
        if !compare(credentials.value.password.value, user.password) then None
        else Some(AuthUser(user.id, user.email, user.name))
  }

  /** A user who registered can sign in with the same email and password, provided the
      comparison accepts a password against its own hash. */
  lemma RegisteredUserCanSignIn(users: seq<User>, user: User, password: string,
                                hash: string -> string, compare: (string, string) -> bool)
    requires DistinctEmails(users + [user]) && user.email != "" && password != ""
    requires user.password == hash(password) && compare(password, hash(password))
    ensures Authorize(Some(Credentials(Some(user.email), Some(password))), users + [user], compare)
      == Some(AuthUser(user.id, user.email, user.name))
  {
    FindByEmailFindsOwner(users + [user], |users|);
  }

  /** The signed token: the user id once sign-in has set it, and the claims next-auth
      keeps in it (name, email, picture, expiry), which the callback does not touch. */
  class Token {
    var id: Option<nat>
    var claims: map<string, string>

    constructor (claims: map<string, string>)
      ensures id == None && this.claims == claims
    {
      id := None;
      this.claims := claims;
    }

    /** The `jwt` callback: on sign-in (a user is passed) the token takes the user's id;
        on every later call the token is returned as it is. */
    method Jwt(user: Option<AuthUser>)
      modifies this`id
      ensures user.Some? ==> id == Some(user.value.id)
      ensures user.None? ==> id == old(id)
    {
      if user.Some? {
        id := Some(user.value.id);
      }
    }
  }

  datatype SessionUser = SessionUser(name: Option<string>, email: Option<string>, image: Option<string>, id: Option<nat>)

  datatype Session = Session(user: Option<SessionUser>, expires: string)

  /** The `session` callback: the session's user gains the token's id; its other fields
      and the rest of the session are kept (a session without a user gets one holding only
      the id). */
  function SessionWithId(s: Session, tokenId: Option<nat>): (r: Session)
    ensures r.expires == s.expires
    ensures r.user.Some? && r.user.value.id == tokenId
    ensures s.user.Some? ==> r.user.value == s.user.value.(id := tokenId)
    ensures s.user.None? ==> r.user.value == SessionUser(None, None, None, tokenId)
  {
    var base := s.user.GetOr(SessionUser(None, None, None, None));
    s.(user := Some(base.(id := tokenId)))
  }

  /** The session callback can run any number of times: once the id is in, running it
      again changes nothing. */
  lemma SessionIdempotent(s: Session, tokenId: Option<nat>)
    ensures SessionWithId(SessionWithId(s, tokenId), tokenId) == SessionWithId(s, tokenId)
  {
  }

  /** Signing in and then reading the session gives the id `authorize` found. */
  method SignInSession(credentials: Option<Credentials>, users: seq<User>, compare: (string, string) -> bool,
                       s: Session) returns (result: Option<Session>)
    ensures Authorize(credentials, users, compare).None? ==> result.None?
    ensures Authorize(credentials, users, compare).Some? ==>
      result.Some? && result.value.user.Some?
      && result.value.user.value.id == Some(Authorize(credentials, users, compare).value.id)
  {
    var user := Authorize(credentials, users, compare);
    if user.None? {
      return None;
    }
    var token := new Token(map[]);
    token.Jwt(user);
    result := Some(SessionWithId(s, token.id));
  }
}
