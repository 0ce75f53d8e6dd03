/**
 * The persistent store behind the API routes: the user table and the profile table, with
 * the uniqueness the routes rely on (a user's email and username, a profile's user id)
 * enforced as the database does, by refusing a create that would break it.
 *
 * Users are kept in insertion order; profiles are keyed by the id of their user.
 */
module Store {
  import opened Wrappers

  datatype User = User(id: nat, email: string, name: string, username: string, password: string, createdAt: int)

  /** A profile row: layout, theme, colour palette and the text columns that have been
      written (column name to value). */
  datatype Profile = Profile(userId: nat, selectedLayout: string, selectedTheme: string,
                             customColors: map<string, string>, fields: map<string, string>)

  /** What a route sends back: an error message, or the record it returns. */
  datatype Body =
    | Error(message: string)
    | UserBody(user: User)
    | PublicUser(id: nat, email: string, username: string, createdAt: int)
    | ProfileBody(profile: Profile)

  datatype Response = Response(status: nat, body: Body)

  const InternalError := Response(500, Error("Internal server error"))

  /** The palette every new profile starts with. */
  const DefaultColors: map<string, string> := map[
    "primary" := "#2563eb", "secondary" := "#64748b", "background" := "#ffffff",
    "text" := "#1e293b", "accent" := "#0ea5e9"]

  /** The profile created for a new user: modern layout, professional theme, the default
      palette and no text written yet. */
  function DefaultProfile(userId: nat): (p: Profile)
    ensures p.userId == userId && p.selectedLayout == "modern" && p.selectedTheme == "professional"
    ensures p.customColors == DefaultColors && p.fields == map[]
  {
    Profile(userId, "modern", "professional", DefaultColors, map[])
  }

  /** The index of the user with that email, if any. */
  function FindByEmail(users: seq<User>, email: string): (r: Option<nat>)
    ensures r.Some? ==> r.value < |users| && users[r.value].email == email
    ensures r.None? ==> forall k :: 0 <= k < |users| ==> users[k].email != email
  {
    if users == [] then None
    else if users[|users| - 1].email == email then Some(|users| - 1)
    else FindByEmail(users[..|users| - 1], email)
  }

  /** The index of the user with that username, if any. */
  function FindByUsername(users: seq<User>, username: string): (r: Option<nat>)
    ensures r.Some? ==> r.value < |users| && users[r.value].username == username
    ensures r.None? ==> forall k :: 0 <= k < |users| ==> users[k].username != username
  {
    if users == [] then None
    else if users[|users| - 1].username == username then Some(|users| - 1)
    else FindByUsername(users[..|users| - 1], username)
  }

  predicate DistinctEmails(users: seq<User>)
  {
    forall i, j :: 0 <= i < j < |users| ==> users[i].email != users[j].email
  }

  predicate DistinctUsernames(users: seq<User>)
  {
    forall i, j :: 0 <= i < j < |users| ==> users[i].username != users[j].username
  }

  /** With distinct emails, the user found by email is the only one with it. */
  lemma {:induction false} FindByEmailFindsOwner(users: seq<User>, k: nat)
    requires k < |users| && DistinctEmails(users)
    ensures FindByEmail(users, users[k].email) == Some(k)
  {
    var n := |users| - 1;
    if k < n {
      assert users[k].email != users[n].email;
      assert users[..n][k] == users[k];
      FindByEmailFindsOwner(users[..n], k);
    }
  }

  /** With distinct usernames, the user found by username is the only one with it. */
  lemma {:induction false} FindByUsernameFindsOwner(users: seq<User>, k: nat)
    requires k < |users| && DistinctUsernames(users)
    ensures FindByUsername(users, users[k].username) == Some(k)
  {
    var n := |users| - 1;
    if k < n {
      assert users[k].username != users[n].username;
      assert users[..n][k] == users[k];
      FindByUsernameFindsOwner(users[..n], k);
    }
  }

  /** Whether some user has id `id`. */
  predicate HasUser(users: seq<User>, id: nat)
  {
    exists k :: 0 <= k < |users| && users[k].id == id
  }

  /** Ids are increasing in insertion order and below the next id to hand out. */
  predicate IdsBelow(users: seq<User>, nextId: nat)
  {
    && (forall i, j :: 0 <= i < j < |users| ==> users[i].id < users[j].id)
    && (forall k :: 0 <= k < |users| ==> users[k].id < nextId)
  }

  /** Every profile is filed under its own user id, which belongs to a user. */
  predicate ProfilesOwned(users: seq<User>, profiles: map<nat, Profile>)
  {
    forall id :: id in profiles ==> profiles[id].userId == id && HasUser(users, id)
  }

  /** The database's invariant: emails and usernames are unique, ids are distinct and below
      `nextId`, and every profile belongs to a user. */
  predicate Tables(users: seq<User>, profiles: map<nat, Profile>, nextId: nat)
  {
    DistinctEmails(users) && DistinctUsernames(users) && IdsBelow(users, nextId) && ProfilesOwned(users, profiles)
  }

  /** Appending a user whose email and username nobody holds, under the next id, keeps the
      invariant; no profile is filed under the new id yet. */
  lemma {:induction false} AppendKeepsTables(users: seq<User>, profiles: map<nat, Profile>, nextId: nat, user: User)
    requires Tables(users, profiles, nextId) && user.id == nextId
    requires FindByEmail(users, user.email).None? && FindByUsername(users, user.username).None?
    ensures Tables(users + [user], profiles, nextId + 1)
    ensures user.id !in profiles
  {
    var all := users + [user];
    forall i, j | 0 <= i < j < |all|
      ensures all[i].email != all[j].email && all[i].username != all[j].username && all[i].id < all[j].id
    {
      assert all[i] == users[i];
      if j < |users| {
        assert all[j] == users[j];
      }
    }
    forall k | 0 <= k < |all|
      ensures all[k].id < nextId + 1
    {
      if k < |users| {
        assert all[k] == users[k];
      }
    }
    forall id | id in profiles
      ensures HasUser(all, id) && id != user.id
    {
      var k :| 0 <= k < |users| && users[k].id == id;
      assert all[k] == users[k];
    }
  }

  /** Giving user `k` a username nobody else holds keeps the invariant. */
  lemma {:induction false} RenameKeepsTables(users: seq<User>, profiles: map<nat, Profile>, nextId: nat, k: nat, username: string)
    requires Tables(users, profiles, nextId) && k < |users|
    requires forall j :: 0 <= j < |users| && j != k ==> users[j].username != username
    ensures Tables(users[k := users[k].(username := username)], profiles, nextId)
  {
    var all := users[k := users[k].(username := username)];
    assert forall j :: 0 <= j < |all| ==> all[j].id == users[j].id && all[j].email == users[j].email;
    forall i, j | 0 <= i < j < |all|
      ensures all[i].username != all[j].username
    {
      if i != k && j != k {
        assert all[i] == users[i] && all[j] == users[j];
      }
    }
    forall id | id in profiles
      ensures HasUser(all, id)
    {
      var j :| 0 <= j < |users| && users[j].id == id;
      assert all[j].id == id;
    }
  }

  /** Filing a profile under the id of an existing user keeps the invariant. */
  lemma FileKeepsTables(users: seq<User>, profiles: map<nat, Profile>, nextId: nat, p: Profile)
    requires Tables(users, profiles, nextId) && HasUser(users, p.userId)
    ensures Tables(users, profiles[p.userId := p], nextId)
  {
  }

  class Database {
    var users: seq<User>
    var profiles: map<nat, Profile>
    /** The id the next created user receives. */
    var nextId: nat

    predicate Valid()
      reads this
    {
      Tables(users, profiles, nextId)
    }

    constructor ()
      ensures Valid() && users == [] && profiles == map[] && nextId == 0
    {
      users, profiles, nextId := [], map[], 0;
    }

    /** `user.create`: refused (`None`, nothing changes) when the email or the username is
        taken; otherwise the user is appended under a fresh id. */
    method CreateUser(email: string, name: string, username: string, password: string, now: int)
      returns (u: Option<User>)
      requires Valid()
      modifies this`users, this`nextId
      ensures Valid()
      ensures (FindByEmail(old(users), email).Some? || FindByUsername(old(users), username).Some?) ==>
        u.None? && users == old(users) && nextId == old(nextId)
      ensures (FindByEmail(old(users), email).None? && FindByUsername(old(users), username).None?) ==>
        u == Some(User(old(nextId), email, name, username, password, now))
        && users == old(users) + [u.value] && nextId == old(nextId) + 1
    ensures u.Some? ==> u.value.id !in profiles
    {
      if FindByEmail(users, email).Some? || FindByUsername(users, username).Some? {
        return None;
      }
      var user := User(nextId, email, name, username, password, now);
      AppendKeepsTables(users, profiles, nextId, user);
      users := users + [user];
      nextId := nextId + 1;
      u := Some(user);
    }

    /** `user.update` of the username, for the user at index `k`: refused when another
        user holds that username; otherwise only that user's username changes. */
    method SetUsername(k: nat, username: string) returns (ok: bool)
      requires Valid() && k < |users|
      modifies this`users
      ensures Valid()
      ensures !ok ==> users == old(users)
      ensures ok <==> FindByUsername(old(users), username).None? || FindByUsername(old(users), username) == Some(k)
      ensures ok ==> users == old(users)[k := old(users)[k].(username := username)]
    {
      var holder := FindByUsername(users, username);
      if holder.Some? && holder.value != k {
        return false;
      }
      if holder == Some(k) {
        FindByUsernameFindsOwner(users, k);
      }
      RenameKeepsTables(users, profiles, nextId, k, username);
      users := users[k := users[k].(username := username)];
      ok := true;
    }

    /** `userProfile.create`: refused when the user already has a profile; otherwise the
        profile is filed under its user id. */
    method CreateProfile(p: Profile) returns (ok: bool)
      requires Valid() && HasUser(users, p.userId)
      modifies this`profiles
      ensures Valid()
      ensures ok <==> p.userId !in old(profiles)
      ensures ok ==> profiles == old(profiles)[p.userId := p]
      ensures !ok ==> profiles == old(profiles)
    {
      if p.userId in profiles {
        return false;
      }
      FileKeepsTables(users, profiles, nextId, p);
      profiles := profiles[p.userId := p];
      ok := true;
    }

    /** `userProfile.update`: the profile of user `id` is replaced; every other profile and
        the user table stay as they were. */
    method ReplaceProfile(id: nat, p: Profile)
      requires Valid() && id in profiles && p.userId == id
      modifies this`profiles
      ensures Valid() && profiles == old(profiles)[id := p]
    {
      FileKeepsTables(users, profiles, nextId, p);
      profiles := profiles[id := p];
    }
  }
}
