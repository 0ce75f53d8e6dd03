/**
 * The helpers every profile layout shares: the fixed table of 25 link platforms, the icon
 * lookup with its globe default, the filter that keeps the links a user has filled in,
 * the initials shown in place of a missing picture, and the banner and picture tests.
 *
 * A profile is a map from field name to its string value; a field the profile lacks is
 * `undefined` in the layouts, `None` here.
 */
module SocialLinks {
  import opened Wrappers
  import opened Strings

  function Get(data: map<string, string>, key: string): Option<string>
  {
    if key in data then Some(data[key]) else None
  }

  datatype Icon = Globe | Linkedin | Github | Twitter | Instagram | Youtube | Palette | Music
                | Headphones | Heart | ShoppingBag | Camera | MessageCircle | Gamepad2

  datatype IconData = IconData(icon: Icon, color: string, bgColor: string)

  const InstagramGradient := "linear-gradient" + "(45deg, #f09433 0%,#e6683c 25%,#dc2743 50%,#cc2366 75%,#bc1888 100%)"
  const TikTokGradient := "linear-gradient" + "(45deg, #ff0050, #00f2ea)"

  const IconMap: map<string, IconData> := map[
    "website" := IconData(Globe, "#6366f1", "#6366f1"),
    "linkedin" := IconData(Linkedin, "#0077b5", "#0077b5"),
    "github" := IconData(Github, "#333", "#333"),
    "twitter" := IconData(Twitter, "#1da1f2", "#1da1f2"),
    "instagram" := IconData(Instagram, "#e4405f", InstagramGradient),
    "youtube" := IconData(Youtube, "#ff0000", "#ff0000"),
    "behance" := IconData(Palette, "#1769ff", "#1769ff"),
    "dribbble" := IconData(Palette, "#ea4c89", "#ea4c89"),
    "medium" := IconData(Globe, "#00ab6c", "#00ab6c"),
    "spotify" := IconData(Music, "#1db954", "#1db954"),
    "soundcloud" := IconData(Headphones, "#ff5500", "#ff5500"),
    "bandcamp" := IconData(Music, "#629aa0", "#629aa0"),
    "patreon" := IconData(Heart, "#f96854", "#f96854"),
    "kofi" := IconData(Heart, "#ff5f5f", "#ff5f5f"),
    "shopee" := IconData(ShoppingBag, "#ee4d2d", "#ee4d2d"),
    "lazada" := IconData(ShoppingBag, "#0f146d", "#0f146d"),
    "etsy" := IconData(ShoppingBag, "#f16521", "#f16521"),
    "facebookPage" := IconData(Globe, "#1877f2", "#1877f2"),
    "tiktok" := IconData(Camera, "#000", TikTokGradient),
    "discord" := IconData(MessageCircle, "#5865f2", "#5865f2"),
    "twitch" := IconData(Gamepad2, "#9146ff", "#9146ff"),
    "telegram" := IconData(MessageCircle, "#0088cc", "#0088cc"),
    "threads" := IconData(Globe, "#000", "#000"),
    "pinterest" := IconData(Camera, "#bd081c", "#bd081c"),
    "whatsapp" := IconData(MessageCircle, "#25d366", "#25d366")]

  const DefaultIcon := IconData(Globe, "#6366f1", "#6366f1")

  /** `getSocialIcon`: the table's entry for a known platform, the indigo globe for any
      other key. */
  function SocialIcon(platform: string): (d: IconData)
    ensures platform in IconMap ==> d == IconMap[platform]
    ensures platform !in IconMap ==> d == DefaultIcon
  {
    if platform in IconMap then IconMap[platform] else DefaultIcon
  }

  datatype Platform = Platform(key: string, name: string)

  /** The platforms in the order the layouts list them. */
  const Platforms: seq<Platform> := [
    Platform("website", "Website"), Platform("linkedin", "LinkedIn"), Platform("github", "GitHub"),
    Platform("twitter", "X"), Platform("instagram", "Instagram"), Platform("youtube", "YouTube"),
    Platform("behance", "Behance"), Platform("dribbble", "Dribbble"), Platform("medium", "Medium"),
    Platform("spotify", "Spotify"), Platform("soundcloud", "SoundCloud"), Platform("bandcamp", "Bandcamp"),
    Platform("patreon", "Patreon"), Platform("kofi", "Ko-fi"), Platform("shopee", "Shopee"),
    Platform("lazada", "Lazada"), Platform("etsy", "Etsy"), Platform("facebookPage", "Facebook"),
    Platform("tiktok", "TikTok"), Platform("discord", "Discord"), Platform("twitch", "Twitch"),
    Platform("telegram", "Telegram"), Platform("threads", "Threads"), Platform("pinterest", "Pinterest"),
    Platform("whatsapp", "WhatsApp")]

  /** Every listed platform has its own icon entry, so the globe default only serves keys
      outside the table. */
  lemma PlatformsHaveIcons()
    ensures |Platforms| == 25
    ensures forall k :: 0 <= k < |Platforms| ==> Platforms[k].key in IconMap
  {
  }

  /** A rendered link: the platform's key and name, its icon data, and the user's value as
      the url, untrimmed. */
  datatype SocialLink = SocialLink(key: string, name: string, icon: IconData, url: string)

  /** The filter's test: the value is present, non-empty, and not only whitespace. */
  predicate IsActive(data: map<string, string>, key: string)
  {
    Truthy(Get(data, key)) && Trim(data[key]) != ""
  }

  /** The filter over a list of platforms, keeping their order. */
  function ActiveAmong(ps: seq<Platform>, data: map<string, string>): (links: seq<SocialLink>)
    ensures |links| <= |ps|
  {
    if ps == [] then []
    else
      var rest := ActiveAmong(ps[1..], data);
      if IsActive(data, ps[0].key) then [SocialLink(ps[0].key, ps[0].name, SocialIcon(ps[0].key), data[ps[0].key])] + rest
      else rest
  }

  /** `getActiveSocialLinks`. */
  function ActiveLinks(data: map<string, string>): (links: seq<SocialLink>)
    ensures |links| <= 25
  {
    ActiveAmong(Platforms, data)
  }

  /** A platform is listed exactly when its value passes the test, and it keeps its name
      from the table. */
  lemma {:induction false} ActiveAmongExact(ps: seq<Platform>, data: map<string, string>, p: Platform)
    requires p in ps
    requires forall i, j :: 0 <= i < j < |ps| ==> ps[i].key != ps[j].key
    ensures ListedExactly(ActiveAmong(ps, data), data, p)
  {
    var rest := ActiveAmong(ps[1..], data);
    if ps[0] == p {
      forall k | 0 <= k < |rest|
        ensures rest[k].key != p.key
      {
        KeysFromTable(ps[1..], data, k);
      }
      ListedAtHead(ps, data);
    } else {
      ActiveAmongExact(ps[1..], data, p);
      assert ps[0].key != p.key by {
        var j :| 0 <= j < |ps| && ps[j] == p;
        assert ps[0].key != ps[j].key;
      }
      ListedAfterHead(ps, data, p);
    }
  }

  /** Whether `p` is listed in `links` exactly when its value passes the test, under its
      table name. */
  predicate ListedExactly(links: seq<SocialLink>, data: map<string, string>, p: Platform)
  {
    && (IsActive(data, p.key) <==> exists k :: 0 <= k < |links| && links[k].key == p.key)
    && (forall k :: 0 <= k < |links| && links[k].key == p.key ==> links[k].name == p.name)
  }

  /** The first platform of the list, when no later link carries its key. */
  lemma {:induction false} ListedAtHead(ps: seq<Platform>, data: map<string, string>)
    requires ps != []
    requires forall k :: 0 <= k < |ActiveAmong(ps[1..], data)| ==> ActiveAmong(ps[1..], data)[k].key != ps[0].key
    ensures ListedExactly(ActiveAmong(ps, data), data, ps[0])
  {
    var links := ActiveAmong(ps, data);
    var rest := ActiveAmong(ps[1..], data);
    var off := if IsActive(data, ps[0].key) then 1 else 0;
    assert forall k :: off <= k < |links| ==> links[k] == rest[k - off];
    if off == 1 {
      assert links[0] == SocialLink(ps[0].key, ps[0].name, SocialIcon(ps[0].key), data[ps[0].key]);
    }
    forall k | 0 <= k < |links| && links[k].key == ps[0].key
      ensures k == 0 && off == 1
    {
    }
  }

  /** A later platform is listed in the whole list exactly as it is in the tail. */
  lemma {:induction false} ListedAfterHead(ps: seq<Platform>, data: map<string, string>, p: Platform)
    requires ps != [] && ps[0].key != p.key
    requires ListedExactly(ActiveAmong(ps[1..], data), data, p)
    ensures ListedExactly(ActiveAmong(ps, data), data, p)
  {
    var links := ActiveAmong(ps, data);
    var rest := ActiveAmong(ps[1..], data);
    var off := if IsActive(data, ps[0].key) then 1 else 0;
    assert |links| == |rest| + off;
    assert forall k :: off <= k < |links| ==> links[k] == rest[k - off];
    if IsActive(data, p.key) {
      var k :| 0 <= k < |rest| && rest[k].key == p.key;
      assert links[k + off] == rest[k];
    }
    forall k | 0 <= k < |links| && links[k].key == p.key
      ensures k >= off && links[k] == rest[k - off]
    {
    }
  }

  /** Every kept link passes the filter's test, carries the user's value untrimmed as its
      url, and its platform's icon. */
  lemma {:induction false} ActiveAmongSound(ps: seq<Platform>, data: map<string, string>, k: nat)
    requires k < |ActiveAmong(ps, data)|
    ensures var l := ActiveAmong(ps, data)[k];
      IsActive(data, l.key) && l.url == data[l.key] && l.icon == SocialIcon(l.key)
  {
    var rest := ActiveAmong(ps[1..], data);
    if !(IsActive(data, ps[0].key) && k == 0) {
      var k' := if IsActive(data, ps[0].key) then k - 1 else k;
      assert ActiveAmong(ps, data)[k] == rest[k'];
      ActiveAmongSound(ps[1..], data, k');
    }
  }

  /** Every listed link comes from a later platform of the list. */
  lemma {:induction false} KeysFromTable(ps: seq<Platform>, data: map<string, string>, k: nat)
    requires k < |ActiveAmong(ps, data)|
    ensures exists j :: 0 <= j < |ps| && ps[j].key == ActiveAmong(ps, data)[k].key && ps[j].name == ActiveAmong(ps, data)[k].name
  {
    var rest := ActiveAmong(ps[1..], data);
    if IsActive(data, ps[0].key) && k == 0 {
      assert ps[0].key == ActiveAmong(ps, data)[0].key;
    } else {
      var k' := if IsActive(data, ps[0].key) then k - 1 else k;
      assert ActiveAmong(ps, data)[k] == rest[k'];
      KeysFromTable(ps[1..], data, k');
      var j :| 0 <= j < |ps[1..]| && ps[1..][j].key == rest[k'].key && ps[1..][j].name == rest[k'].name;
      assert ps[j + 1] == ps[1..][j];
    }
  }

  /** The table's keys are pairwise distinct. */
  lemma PlatformKeysDistinct()
    ensures forall i, j :: 0 <= i < j < |Platforms| ==> Platforms[i].key != Platforms[j].key
  {
  }

  function Keys(links: seq<SocialLink>): (ks: seq<string>)
    ensures |ks| == |links| && forall k :: 0 <= k < |links| ==> ks[k] == links[k].key
  {
    if links == [] then [] else [links[0].key] + Keys(links[1..])
  }

  function PlatformKeys(ps: seq<Platform>): (ks: seq<string>)
    ensures |ks| == |ps| && forall k :: 0 <= k < |ps| ==> ks[k] == ps[k].key
  {
    if ps == [] then [] else [ps[0].key] + PlatformKeys(ps[1..])
  }

  /** `a` is `b` with some elements removed, the rest in their order. */
  predicate Subsequence(a: seq<string>, b: seq<string>)
  {
    if a == [] then true
    else if b == [] then false
    else if a[0] == b[0] then Subsequence(a[1..], b[1..])
    else Subsequence(a, b[1..])
  }

  lemma {:induction false} SubsequenceOfTail(a: seq<string>, b: seq<string>, x: string)
    requires Subsequence(a, b)
    ensures Subsequence(a, [x] + b)
  {
    if a != [] {
      if a[0] == x {
        assert ([x] + b)[1..] == b;
        assert [a[0]] + a[1..] == a;
        SubsequenceOfSame(a[1..], b, a[0]);
      } else {
        assert ([x] + b)[1..] == b;
      }
    }
  }

  lemma {:induction false} SubsequenceOfSame(a: seq<string>, b: seq<string>, x: string)
    requires Subsequence([x] + a, b)
    ensures Subsequence(a, b)
  {
    if b != [] {
      if x == b[0] {
        assert ([x] + a)[1..] == a;
        SubsequenceOfTail(a, b[1..], b[0]);
        assert [b[0]] + b[1..] == b;
      } else {
        SubsequenceOfSame(a, b[1..], x);
        SubsequenceOfTail(a, b[1..], b[0]);
        assert [b[0]] + b[1..] == b;
      }
    }
  }

  /** The filtered links keep the table's order: their keys are a subsequence of the
      table's keys. */
  lemma {:induction false} ActiveAmongInOrder(ps: seq<Platform>, data: map<string, string>)
    ensures Subsequence(Keys(ActiveAmong(ps, data)), PlatformKeys(ps))
  {
    if ps != [] {
      var rest := ActiveAmong(ps[1..], data);
      ActiveAmongInOrder(ps[1..], data);
      assert PlatformKeys(ps) == [ps[0].key] + PlatformKeys(ps[1..]);
      if IsActive(data, ps[0].key) {
        var links := ActiveAmong(ps, data);
        assert links[1..] == rest;
        assert Keys(links) == [ps[0].key] + Keys(rest);
        assert ([ps[0].key] + Keys(rest))[1..] == Keys(rest);
        assert (PlatformKeys(ps))[1..] == PlatformKeys(ps[1..]);
      } else {
        SubsequenceOfTail(Keys(rest), PlatformKeys(ps[1..]), ps[0].key);
      }
    }
  }

  /** The properties of `getActiveSocialLinks` together: a platform appears exactly when
      its value is filled in, under its table name, in table order. */
  lemma ActiveLinksExact(data: map<string, string>, p: Platform)
    requires p in Platforms
    ensures IsActive(data, p.key) <==> p.key in Keys(ActiveLinks(data))
  {
    ListedIffActive(Platforms, data, p);
  }

  /** The links keep the table's order. */
  lemma ActiveLinksInOrder(data: map<string, string>)
    ensures Subsequence(Keys(ActiveLinks(data)), PlatformKeys(Platforms))
  {
    ActiveAmongInOrder(Platforms, data);
  }

  lemma {:induction false} ListedIffActive(ps: seq<Platform>, data: map<string, string>, p: Platform)
    requires p in ps
    ensures IsActive(data, p.key) <==> p.key in Keys(ActiveAmong(ps, data))
  {
    var links := ActiveAmong(ps, data);
    if p.key in Keys(links) {
      var k :| 0 <= k < |Keys(links)| && Keys(links)[k] == p.key;
      ActiveAmongSound(ps, data, k);
    }
    if IsActive(data, p.key) {
      ListedWhenActive(ps, data, p);
    }
  }

  /** A platform of the list whose value passes the test is listed. */
  lemma {:induction false} ListedWhenActive(ps: seq<Platform>, data: map<string, string>, p: Platform)
    requires p in ps && IsActive(data, p.key)
    ensures p.key in Keys(ActiveAmong(ps, data))
  {
    KeysOfActiveAmong(ps, data);
    if ps[0] != p {
      ListedWhenActive(ps[1..], data, p);
    }
  }

  /** The keys listed for a table are its head's key when that is filled in, then the keys
      listed for the rest. */
  lemma KeysOfActiveAmong(ps: seq<Platform>, data: map<string, string>)
    requires ps != []
    ensures Keys(ActiveAmong(ps, data))
      == (if IsActive(data, ps[0].key) then [ps[0].key] else []) + Keys(ActiveAmong(ps[1..], data))
  {
    var links := ActiveAmong(ps, data);
    if IsActive(data, ps[0].key) {
      assert links[1..] == ActiveAmong(ps[1..], data);
    }
  }

  /** A value of spaces is not a link, but the user's value is kept as the url, untrimmed. */
  lemma BlankValueSkipped(data: map<string, string>, key: string)
    requires key in data && data[key] == "  "
    ensures !IsActive(data, key)
  {
    assert IsBlank(data[key]);
    TrimEmptyIffBlank(data[key]);
  }

  /** The first characters of the non-empty parts, in order. */
  function FirstChars(parts: seq<string>): (s: string)
    ensures |s| <= |parts|
  {
    if parts == [] then ""
    else (if parts[0] == "" then "" else [parts[0][0]]) + FirstChars(parts[1..])
  }

  /** The initials shown without a picture: `name.split(" ").map(n => n[0]).join("")`; an
      empty part's `undefined` joins as nothing. */
  function Initials(name: string): (s: string)
    ensures |s| <= |Split(name, ' ')|
    ensures ' ' !in s
  {
    SplitPartsLackSeparator(name, ' ');
    FirstCharsLackSpace(Split(name, ' '));
    FirstChars(Split(name, ' '))
  }

  lemma {:induction false} FirstCharsLackSpace(parts: seq<string>)
    requires forall k :: 0 <= k < |parts| ==> ' ' !in parts[k]
    ensures ' ' !in FirstChars(parts)
  {
    if parts != [] {
      FirstCharsLackSpace(parts[1..]);
    }
  }

  /** A name made of two space-separated words gives their two first letters; doubled
      spaces add nothing. */
  lemma InitialsOfTwoWords(first: string, last: string)
    requires first != "" && last != "" && ' ' !in first && ' ' !in last
    ensures Initials(first + " " + last) == [first[0], last[0]]
    ensures Initials(first + "  " + last) == [first[0], last[0]]
  {
    SplitAtSeparator(first, ' ', last);
    SplitWithoutSeparator(last, ' ');
    assert first + " " + last == first + [' '] + last;
    assert Split(first + " " + last, ' ') == [first, last];
    SplitAtSeparator(first, ' ', " " + last);
    SplitAtSeparator("", ' ', last);
    assert "" + [' '] + last == " " + last;
    assert first + "  " + last == first + [' '] + (" " + last);
    assert Split(first + "  " + last, ' ') == [first, "", last];
    assert FirstChars([last]) == [last[0]];
    assert [first, last][1..] == [last];
    assert FirstChars([first, last]) == [first[0]] + FirstChars([last]);
    assert [first, "", last][1..] == ["", last];
    assert ["", last][1..] == [last];
    assert FirstChars(["", last]) == FirstChars([last]);
    assert FirstChars([first, "", last]) == [first[0]] + FirstChars(["", last]);
  }

  /** The picture is shown when the field has a non-blank value. */
  predicate HasProfilePicture(data: map<string, string>)
  {
    Truthy(Get(data, "profilePicture")) && Trim(data["profilePicture"]) != ""
  }

  const Placeholder := "/placeholder.svg"

  /** The banner is shown when the field has a non-blank value other than the placeholder. */
  predicate HasBannerImage(data: map<string, string>)
  {
    Truthy(Get(data, "bannerImage")) && Trim(data["bannerImage"]) != "" && data["bannerImage"] != Placeholder
  }

  /** The banner test is the picture test plus the placeholder exclusion. */
  lemma BannerShownIff(data: map<string, string>)
    ensures HasBannerImage(data) <==>
      "bannerImage" in data && !IsBlank(data["bannerImage"]) && data["bannerImage"] != Placeholder
    ensures HasProfilePicture(data) <==> "profilePicture" in data && !IsBlank(data["profilePicture"])
  {
    if "bannerImage" in data {
      TrimEmptyIffBlank(data["bannerImage"]);
    }
    if "profilePicture" in data {
      TrimEmptyIffBlank(data["profilePicture"]);
    }
  }
}
