/**
 * The rules the minimal layout adds to the shared helpers: at most eight link icons, and
 * the icon colour and tile background chosen by whether the platform's background is a
 * gradient.
 */
module MinimalLayout {
  import opened Strings
  import opened SocialLinks

  const MaxLinks := 8

  /** `activeSocialLinks.slice(0, 8)`: the first eight links in table order. */
  function ShownLinks(data: map<string, string>): (shown: seq<SocialLink>)
    ensures |shown| == if |ActiveLinks(data)| < MaxLinks then |ActiveLinks(data)| else MaxLinks
    ensures shown <= ActiveLinks(data)
  {
    var links := ActiveLinks(data);
    if |links| < MaxLinks then links else links[..MaxLinks]
  }

  predicate IsGradient(d: IconData)
  {
    Contains(d.bgColor, "gradient")
  }

  /** The icon is white on a gradient and in the platform's colour otherwise. */
  function IconColor(d: IconData): (c: string)
    ensures IsGradient(d) ==> c == "white"
    ensures !IsGradient(d) ==> c == d.color
  {
    if IsGradient(d) then "white" else d.color
  }

  /** A gradient is used as it is; a plain colour gets the "20" alpha suffix. */
  function TileBackground(d: IconData): (b: string)
    ensures IsGradient(d) ==> b == d.bgColor
    ensures !IsGradient(d) ==> b == d.bgColor + "20" && b[..|d.bgColor|] == d.bgColor
  {
    if IsGradient(d) then d.bgColor else d.bgColor + "20"
  }

  /** Of the 25 platforms only Instagram and TikTok have gradient backgrounds, so theirs
      are the only white icons. */
  lemma GradientPlatforms()
    ensures forall key :: key in IconMap ==> (IsGradient(IconMap[key]) <==> key == "instagram" || key == "tiktok")
    ensures IconColor(SocialIcon("instagram")) == "white" && IconColor(SocialIcon("tiktok")) == "white"
  {
    GradientBackgrounds();
    PlainBackgrounds();
  }

  /** Instagram's and TikTok's backgrounds are the two gradients. */
  lemma GradientBackgrounds()
    ensures IsGradient(IconMap["instagram"]) && IsGradient(IconMap["tiktok"])
  {
    assert IconMap["instagram"].bgColor == InstagramGradient;
    assert IconMap["tiktok"].bgColor == TikTokGradient;
    GradientWords();
  }

  /** Both gradients name "gradient" seven characters in. */
  lemma GradientWords()
    ensures Contains(InstagramGradient, "gradient") && Contains(TikTokGradient, "gradient")
  {
    assert InstagramGradient[7..][..8] == "gradient";
    ContainsAt(InstagramGradient, "gradient", 7);
    assert TikTokGradient[7..][..8] == "gradient";
    ContainsAt(TikTokGradient, "gradient", 7);
  }

  /** Every other background is a colour code too short to hold the word. */
  lemma PlainBackgrounds()
    ensures forall key :: key in IconMap && key != "instagram" && key != "tiktok" ==> !IsGradient(IconMap[key])
  {
    forall key | key in IconMap && key != "instagram" && key != "tiktok"
      ensures !IsGradient(IconMap[key])
    {
      ContainsNeedsRoom(IconMap[key].bgColor, "gradient");
    }
  }
}
