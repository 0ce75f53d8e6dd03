/**
 * The route that gives an existing user a username and creates their default profile.
 */
module UsersUpdateRoute {
  import opened Wrappers
  import opened Strings
  import opened Store

  datatype UpdateBody = UpdateBody(email: Option<string>, username: Option<string>)

  const Required := "Email and username are required"
  const NotFound := "User not found"
  const Taken := "Username already exists"

  /** The answer to a request the route turns away before writing anything, if it does:
      400 for a missing field, 404 for an unknown email, 409 for a username any user holds,
      the caller included. */
  function Rejection(users: seq<User>, b: UpdateBody): (r: Option<Response>)
    ensures !Truthy(b.email) || !Truthy(b.username) ==> r == Some(Response(400, Error(Required)))
    ensures Truthy(b.email) && Truthy(b.username) && FindByEmail(users, b.email.value).None? ==>
      r == Some(Response(404, Error(NotFound)))
    ensures (Truthy(b.email) && Truthy(b.username) && FindByEmail(users, b.email.value).Some?
             && FindByUsername(users, b.username.value).Some?) ==> r == Some(Response(409, Error(Taken)))
    ensures r.None? <==>
      Truthy(b.email) && Truthy(b.username)
      && FindByEmail(users, b.email.value).Some? && FindByUsername(users, b.username.value).None?
  {
    if !Truthy(b.email) || !Truthy(b.username) then Some(Response(400, Error(Required)))
    else if FindByEmail(users, b.email.value).None? then Some(Response(404, Error(NotFound)))
    else if FindByUsername(users, b.username.value).Some? then Some(Response(409, Error(Taken)))
    else None
  }

  /** Asking for the username one already has is refused like any taken username. */
  lemma OwnUsernameRefused(users: seq<User>, k: nat)
    requires k < |users| && users[k].email != "" && users[k].username != ""
    ensures Rejection(users, UpdateBody(Some(users[k].email), Some(users[k].username))) == Some(Response(409, Error(Taken)))
  {
    assert FindByUsername(users, users[k].username).Some?;
  }

  /** `POST /api/users/update`. A rejection leaves the store alone. Otherwise the user with
      that email takes the username and a default profile is created for them; the answer is
      200 with the user's id, email, username and creation time only. When that user already
      has a profile the create fails and the answer is 500, with the username already
      changed. */
  method UpdateUser(db: Database, b: UpdateBody) returns (r: Response)
    requires db.Valid()
    modifies db
    ensures db.Valid()
    ensures Rejection(old(db.users), b).Some? ==>
      r == Rejection(old(db.users), b).value && db.users == old(db.users) && db.profiles == old(db.profiles)
    ensures Rejection(old(db.users), b).None? ==>
      var k := FindByEmail(old(db.users), b.email.value).value;
      var user := old(db.users)[k].(username := b.username.value);
      && db.users == old(db.users)[k := user]
      && (user.id in old(db.profiles) ==> r == InternalError && db.profiles == old(db.profiles))
      && (user.id !in old(db.profiles) ==>
            r == Response(200, PublicUser(user.id, user.email, user.username, user.createdAt))
            && db.profiles == old(db.profiles)[user.id := DefaultProfile(user.id)])
  {
    var rejected := Rejection(db.users, b);
    if rejected.Some? {
      return rejected.value;
    }
    var k := FindByEmail(db.users, b.email.value).value;
    var ok := db.SetUsername(k, b.username.value);
    var user := db.users[k];
    var created := db.CreateProfile(DefaultProfile(user.id));
    if !created {
      return InternalError;
    }
    r := Response(200, PublicUser(user.id, user.email, user.username, user.createdAt));
  }
}
