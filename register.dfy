/**
 * The registration route: checks the body in a fixed order, then creates the user with a
 * hashed password and a default profile for it.
 *
 * Password hashing is a parameter `hash`; the clock is the parameter `now`.
 */
module RegisterRoute {
  import opened Wrappers
  import opened Strings
  import opened Store

  /** The JSON body; a field the client left out is `None`. */
  datatype RegisterBody = RegisterBody(email: Option<string>, name: Option<string>,
                                       password: Option<string>, username: Option<string>)

  const MissingFields := "Missing fields"
  const ShortPassword := "Password must be at least 6 characters long"
  const InvalidEmail := "Invalid email"
  const UserExists := "User already exists"

  predicate AllPresent(b: RegisterBody)
  {
    Truthy(b.email) && Truthy(b.name) && Truthy(b.password) && Truthy(b.username)
  }

  /** The checks that need no store, in order: every field present and non-empty, a
      password of at least 6 characters, an email containing "@". */
  function Precheck(b: RegisterBody): (r: Option<string>)
    ensures !AllPresent(b) ==> r == Some(MissingFields)
    ensures AllPresent(b) && |b.password.value| < 6 ==> r == Some(ShortPassword)
    ensures AllPresent(b) && |b.password.value| >= 6 && !Contains(b.email.value, "@") ==> r == Some(InvalidEmail)
    ensures r.None? <==> AllPresent(b) && |b.password.value| >= 6 && Contains(b.email.value, "@")
  {
    if !AllPresent(b) then Some(MissingFields)
    else if |b.password.value| < 6 then Some(ShortPassword)
    else if !Contains(b.email.value, "@") then Some(InvalidEmail)
    else None
  }

  /** Six characters is enough: the minimum is inclusive. */
  lemma SixCharactersAccepted(email: string, name: string, password: string, username: string)
    requires email != "" && name != "" && username != "" && |password| == 6 && Contains(email, "@")
    ensures Precheck(RegisterBody(Some(email), Some(name), Some(password), Some(username))) == None
    ensures Precheck(RegisterBody(Some(email), Some(name), Some(password[..5]), Some(username))) == Some(ShortPassword)
  {
  }

  /** `POST /api/auth/register`. A failed check answers 422 and leaves the store alone; so
      does a registered email. A username already taken is not checked here: the database
      refuses the create and the route answers 500. Otherwise one user is added, holding the
      hash of the password, with one default profile, and the answer is 201 with that user. */
  method Register(db: Database, b: RegisterBody, hash: string -> string, now: int) returns (r: Response)
    requires db.Valid()
    modifies db
    ensures db.Valid()
    ensures Precheck(b).Some? ==>
      r == Response(422, Error(Precheck(b).value))
      && db.users == old(db.users) && db.profiles == old(db.profiles)
    ensures Precheck(b).None? && FindByEmail(old(db.users), b.email.value).Some? ==>
      r == Response(422, Error(UserExists))
      && db.users == old(db.users) && db.profiles == old(db.profiles)
    ensures (Precheck(b).None? && FindByEmail(old(db.users), b.email.value).None?
             && FindByUsername(old(db.users), b.username.value).Some?) ==>
      r == InternalError && db.users == old(db.users) && db.profiles == old(db.profiles)
    ensures (Precheck(b).None? && FindByEmail(old(db.users), b.email.value).None?
             && FindByUsername(old(db.users), b.username.value).None?) ==>
      var user := User(old(db.nextId), b.email.value, b.name.value, b.username.value, hash(b.password.value), now);
      && r == Response(201, UserBody(user))
      && db.users == old(db.users) + [user]
      && db.profiles == old(db.profiles)[user.id := DefaultProfile(user.id)]
  {
    var problem := Precheck(b);
    if problem.Some? {
      return Response(422, Error(problem.value));
    }
    if FindByEmail(db.users, b.email.value).Some? {
      return Response(422, Error(UserExists));
    }
    var hashedPassword := hash(b.password.value);
    var user := db.CreateUser(b.email.value, b.name.value, b.username.value, hashedPassword, now);
    if user.None? {
      return InternalError;
    }
    assert db.users[|db.users| - 1].id == user.value.id;
    assert user.value.id !in db.profiles;
    var created := db.CreateProfile(DefaultProfile(user.value.id));
    r := Response(201, UserBody(user.value));
  }
}
