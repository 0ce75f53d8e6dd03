/**
 * The read-only route the public site page uses to fetch a profile by username.
 */
module UsersLookupRoute {
  import opened Wrappers
  import opened Strings
  import opened Store
  import ProfileUpdateRoute

  const UsernameRequired := "Username is required"
  const UserNotFound := "User not found"
  const ProfileNotFound := "User profile not found"

  /** `POST /api/users`: 400 without a username, 404 for an unknown user or a user without
      a profile, otherwise 200 with that user's profile. It reads the store and changes
      nothing. */
  function Lookup(users: seq<User>, profiles: map<nat, Profile>, username: Option<string>): (r: Response)
    ensures !Truthy(username) ==> r == Response(400, Error(UsernameRequired))
    ensures Truthy(username) && FindByUsername(users, username.value).None? ==> r == Response(404, Error(UserNotFound))
    ensures (Truthy(username) && FindByUsername(users, username.value).Some?
             && users[FindByUsername(users, username.value).value].id !in profiles) ==>
      r == Response(404, Error(ProfileNotFound))
    ensures r.status == 200 <==>
      Truthy(username) && FindByUsername(users, username.value).Some?
      && users[FindByUsername(users, username.value).value].id in profiles
    ensures r.status == 200 ==> r.body == ProfileBody(profiles[users[FindByUsername(users, username.value).value].id])
  {
    if !Truthy(username) then Response(400, Error(UsernameRequired))
    else
      var found := FindByUsername(users, username.value);
      if found.None? then Response(404, Error(UserNotFound))
      else if users[found.value].id !in profiles then Response(404, Error(ProfileNotFound))
      else Response(200, ProfileBody(profiles[users[found.value].id]))
  }

  /** A freshly registered user's page shows the default profile: once registration has
      appended the user and filed its default profile, looking up its username answers 200
      with exactly that profile. */
  lemma RegisteredUserHasDefaultPage(users: seq<User>, profiles: map<nat, Profile>, user: User)
    requires DistinctUsernames(users + [user]) && user.username != ""
    ensures Lookup(users + [user], profiles[user.id := DefaultProfile(user.id)], Some(user.username))
      == Response(200, ProfileBody(DefaultProfile(user.id)))
  {
    FindByUsernameFindsOwner(users + [user], |users|);
  }

  /** What the profile route saves is what the lookup returns: after a successful save for a
      username, looking that username up gives the saved profile. */
  lemma SavedProfileIsServed(users: seq<User>, profiles: map<nat, Profile>, req: ProfileUpdateRoute.ProfileRequest)
    requires "username" in req.values && req.values["username"] != ""
    requires FindByUsername(users, req.values["username"]).Some?
    requires users[FindByUsername(users, req.values["username"]).value].id in profiles
    ensures var id := users[FindByUsername(users, req.values["username"]).value].id;
      var q := ProfileUpdateRoute.Updated(profiles[id], req);
      Lookup(users, profiles[id := q], Some(req.values["username"])) == Response(200, ProfileBody(q))
  {
  }
}
