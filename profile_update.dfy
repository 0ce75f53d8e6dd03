/**
 * The route that saves a user's profile: it finds the user by username, then their
 * profile, then overwrites layout, theme, colours and every text column, each from its
 * request key or a default.
 */
module ProfileUpdateRoute {
  import opened Wrappers
  import opened Strings
  import opened Store

  /** The JSON body: its string members by key, and the colour object if one was sent. */
  datatype ProfileRequest = ProfileRequest(values: map<string, string>, customColors: Option<map<string, string>>)

  const UsernameRequired := "username are required"
  const UserNotFound := "User not found"
  const ProfileNotFound := "User profile not found"

  /** The text columns the route writes, each with the request key it reads. The keys are
      case-sensitive: `soundCloud`, `bandCamp` and `whatsApp` are read with capitals, and
      the `etsy` key is written to the `Etsy` column. */
  const ColumnKey: map<string, string> := map[
    "name" := "name", "title" := "title", "bio" := "bio", "email" := "email", "location" := "location",
    "behance" := "behance", "dribbble" := "dribbble", "github" := "github", "medium" := "medium",
    "linkedin" := "linkedin",
    "spotify" := "spotify", "soundCloud" := "soundCloud", "bandCamp" := "bandCamp", "patreon" := "patreon",
    "kofi" := "kofi",
    "shopee" := "shopee", "lazada" := "lazada", "Etsy" := "etsy", "facebookPage" := "facebookPage",
    "instagram" := "instagram", "twitch" := "twitch", "twitter" := "twitter", "tiktok" := "tiktok",
    "youtube" := "youtube", "discord" := "discord", "telegram" := "telegram", "threads" := "threads",
    "pinterest" := "pinterest",
    "website" := "website", "whatsApp" := "whatsApp"]

  /** `data[key] || fallback`: the sent value unless it is missing or empty. */
  function ValueOr(values: map<string, string>, key: string, fallback: string): (v: string)
    ensures key in values && values[key] != "" ==> v == values[key]
    ensures key !in values || values[key] == "" ==> v == fallback
  {
    if key in values && values[key] != "" then values[key] else fallback
  }

  /** The profile after the update: every column in `ColumnKey` is rewritten, every other
      column (phone, pictures) is kept. */
  function Updated(p: Profile, req: ProfileRequest): (q: Profile)
    ensures q.userId == p.userId
    ensures q.selectedLayout == ValueOr(req.values, "selectedLayout", "modern")
    ensures q.selectedTheme == ValueOr(req.values, "selectedTheme", "professional")
    ensures q.customColors == req.customColors.GetOr(DefaultColors)
    ensures q.fields.Keys == p.fields.Keys + ColumnKey.Keys
    ensures forall c :: c in ColumnKey ==> q.fields[c] == ValueOr(req.values, ColumnKey[c], "")
    ensures forall c :: c in p.fields && c !in ColumnKey ==> q.fields[c] == p.fields[c]
  {
    var fields := map c | c in p.fields.Keys + ColumnKey.Keys ::
      if c in ColumnKey then ValueOr(req.values, ColumnKey[c], "") else p.fields[c];
    Profile(p.userId, ValueOr(req.values, "selectedLayout", "modern"),
            ValueOr(req.values, "selectedTheme", "professional"),
            req.customColors.GetOr(DefaultColors), fields)
  }

  /** A link sent under an all-lower-case key is dropped: `soundcloud` does not reach the
      `soundCloud` column, and neither key names a column of its own. */
  lemma LowerCaseKeyIgnored(p: Profile, link: string)
    requires "soundCloud" !in p.fields && "soundcloud" !in p.fields
    ensures Updated(p, ProfileRequest(map["soundcloud" := link], None)).fields["soundCloud"] == ""
    ensures "soundcloud" !in Updated(p, ProfileRequest(map["soundcloud" := link], None)).fields
  {
    SoundCloudColumn();
  }

  lemma SoundCloudColumn()
    ensures "soundcloud" !in ColumnKey && "soundCloud" in ColumnKey && ColumnKey["soundCloud"] == "soundCloud"
  {
  }

  /** The `etsy` key lands in the `Etsy` column. */
  lemma EtsyStoredCapitalised(p: Profile, link: string)
    requires link != "" && "etsy" !in p.fields
    ensures var q := Updated(p, ProfileRequest(map["etsy" := link], None));
      q.fields["Etsy"] == link && "etsy" !in q.fields
  {
    EtsyColumn();
  }

  lemma EtsyColumn()
    ensures "etsy" !in ColumnKey && "Etsy" in ColumnKey && ColumnKey["Etsy"] == "etsy"
  {
  }

  /** Saving the same request twice gives the same profile as saving it once. */
  lemma UpdateIdempotent(p: Profile, req: ProfileRequest)
    ensures Updated(Updated(p, req), req) == Updated(p, req)
  {
    var once := Updated(p, req);
    var twice := Updated(once, req);
    assert twice.fields.Keys == once.fields.Keys;
    assert twice.fields == once.fields;
  }

  /** `POST /api/userProfile/update`. A missing username answers 400, an unknown one 404,
      a user without a profile 404, and none of these writes anything. Otherwise only that
      user's profile is replaced by its update, the user table is untouched, and the answer
      is 200 with the new profile. */
  method UpdateProfile(db: Database, req: ProfileRequest) returns (r: Response)
    requires db.Valid()
    modifies db
    ensures db.Valid() && db.users == old(db.users)
    ensures !("username" in req.values && req.values["username"] != "") ==>
      r == Response(400, Error(UsernameRequired)) && db.profiles == old(db.profiles)
    ensures "username" in req.values && req.values["username"] != "" ==>
      var found := FindByUsername(db.users, req.values["username"]);
      && (found.None? ==> r == Response(404, Error(UserNotFound)) && db.profiles == old(db.profiles))
      && (found.Some? && db.users[found.value].id !in old(db.profiles) ==>
            r == Response(404, Error(ProfileNotFound)) && db.profiles == old(db.profiles))
      && (found.Some? && db.users[found.value].id in old(db.profiles) ==>
            var id := db.users[found.value].id;
            var q := Updated(old(db.profiles)[id], req);
            r == Response(200, ProfileBody(q)) && db.profiles == old(db.profiles)[id := q])
  {
    if !("username" in req.values && req.values["username"] != "") {
      return Response(400, Error(UsernameRequired));
    }
    var found := FindByUsername(db.users, req.values["username"]);
    if found.None? {
      return Response(404, Error(UserNotFound));
    }
    var id := db.users[found.value].id;
    if id !in db.profiles {
      return Response(404, Error(ProfileNotFound));
    }
    var q := Updated(db.profiles[id], req);
    db.ReplaceProfile(id, q);
    r := Response(200, ProfileBody(q));
  }
}
