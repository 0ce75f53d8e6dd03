/**
 * The dashboard's editing state: the profile form, the colour settings and theme, and
 * the crop dialog it opens for the banner and the profile picture.
 *
 * Records the page spreads with a computed key (`{ ...prev, [field]: value }`) are maps
 * from field name to value.
 */
module Dashboard {
  import opened Wrappers
  import ImageUtils
  import EnhancedImageCropper

  datatype ImageType = Profile | Banner

  /** The five colours of a theme or of the editor's settings. */
  datatype Swatch = Swatch(primary: string, secondary: string, background: string, text: string, accent: string)

  /** The colour settings object, keyed by the five colour sections. */
  function Palette(sw: Swatch): (m: map<string, string>)
    ensures m.Keys == ColorSections
    ensures m["primary"] == sw.primary && m["secondary"] == sw.secondary && m["background"] == sw.background
    ensures m["text"] == sw.text && m["accent"] == sw.accent
  {
    map["primary" := sw.primary, "secondary" := sw.secondary, "background" := sw.background,
        "text" := sw.text, "accent" := sw.accent]
  }

  const ColorSections: set<string> := {"primary", "secondary", "background", "text", "accent"}

  datatype Theme = Theme(id: string, name: string, swatch: Swatch)

  const Themes: seq<Theme> := [
    Theme("professional", "Professional", Swatch("#2563eb", "#64748b", "#ffffff", "#1e293b", "#0ea5e9")),
    Theme("creative", "Creative", Swatch("#7c3aed", "#6b7280", "#ffffff", "#1f2937", "#f59e0b")),
    Theme("gamer", "Gamer", Swatch("#10b981", "#6b7280", "#0f172a", "#f1f5f9", "#06ffa5")),
    Theme("developer", "Developer", Swatch("#6366f1", "#9ca3af", "#111827", "#f9fafb", "#8b5cf6")),
    Theme("influencer", "Influencer", Swatch("#ec4899", "#6b7280", "#ffffff", "#1f2937", "#f97316")),
    Theme("business", "Business", Swatch("#059669", "#6b7280", "#ffffff", "#1f2937", "#dc2626")),
    Theme("student", "Student", Swatch("#1d4ed8", "#6b7280", "#ffffff", "#1f2937", "#7c2d12")),
    Theme("artist", "Artist", Swatch("#be185d", "#6b7280", "#ffffff", "#1f2937", "#7c3aed"))
  ]

  /** `themes.find(t => t.id === id)`: the first theme with that id, if any. */
  function FindTheme(ts: seq<Theme>, id: string): (r: Option<Theme>)
    ensures r.Some? ==> r.value in ts && r.value.id == id
    ensures r.None? ==> forall k :: 0 <= k < |ts| ==> ts[k].id != id
  {
    if ts == [] then None
    else if ts[0].id == id then Some(ts[0])
    else FindTheme(ts[1..], id)
  }

  /** No two themes share an id. */
  lemma ThemeIdsDistinct()
    ensures forall i, j :: 0 <= i < j < |Themes| ==> Themes[i].id != Themes[j].id
  {
    var initials := "pcgdibsa";
    assert forall k :: 0 <= k < |Themes| ==> Themes[k].id != "" && Themes[k].id[0] == initials[k];
    forall i, j | 0 <= i < j < |Themes|
      ensures Themes[i].id != Themes[j].id
    {
      assert initials[i] != initials[j];
    }
  }

  /** With distinct ids, looking a theme up by its own id finds that theme. */
  lemma {:induction false} FindThemeByOwnId(ts: seq<Theme>, k: nat)
    requires k < |ts|
    requires forall i, j :: 0 <= i < j < |ts| ==> ts[i].id != ts[j].id
    ensures FindTheme(ts, ts[k].id) == Some(ts[k])
  {
    if k > 0 {
      assert ts[0].id != ts[k].id;
      FindThemeByOwnId(ts[1..], k - 1);
    }
  }

  const InitialColors := Palette(Swatch("#3b82f6", "#64748b", "#ffffff", "#1f2937", "#f59e0b"))

  /** The two fields the editor starts with sample text in. */
  const SampleFields: map<string, string> := map["name" := "Alex Johnson", "email" := "alex@example.com"]

  /** The other profile fields, which start empty. */
  const BlankFields: seq<string> := [
    "title", "bio", "phone", "location", "profilePicture", "bannerImage",
    "behance", "dribbble", "github", "medium", "linkedin",
    "spotify", "soundcloud", "bandcamp", "patreon", "kofi",
    "shopee", "lazada", "etsy", "facebookPage",
    "instagram", "twitter", "tiktok", "youtube", "discord", "twitch", "telegram", "threads", "pinterest",
    "website", "whatsapp"
  ]

  /** Every field starts empty except the sample name and email. */
  function InitialProfile(): (m: map<string, string>)
    ensures m.Keys == SampleFields.Keys + set f | f in BlankFields
    ensures m["name"] == "Alex Johnson" && m["email"] == "alex@example.com"
    ensures forall f :: f in m && f != "name" && f != "email" ==> m[f] == ""
  {
    map f | f in SampleFields.Keys + (set f | f in BlankFields) :: if f in SampleFields then SampleFields[f] else ""
  }

  /** The compression requested before cropping: at most 1200 × 400 for a banner and
      400 × 400 for a profile picture, JPEG at quality 0.8. */
  function UploadOptions(t: ImageType): (o: ImageUtils.CompressOptions)
    ensures o.maxWidth == Some(if t == Banner then 1200.0 else 400.0) && o.maxHeight == Some(400.0)
    ensures o.quality == Some(0.8) && o.format == Some(ImageUtils.Jpeg)
  {
    ImageUtils.CompressOptions(Some(if t == Banner then 1200.0 else 400.0), Some(400.0), Some(0.8), Some(ImageUtils.Jpeg))
  }

  /** The crop dialog's props: aspect 3 and width 1200 for a banner, aspect 1 and width 400
      for a profile picture, and no explicit height. */
  datatype CropperConfig = CropperConfig(aspectRatio: real, outputWidth: real, title: string)

  function ConfigFor(t: ImageType): (c: CropperConfig)
    ensures c.aspectRatio == (if t == Banner then 3.0 else 1.0)
    ensures c.outputWidth / c.aspectRatio == 400.0
    ensures c.title == (if t == Banner then "Crop Banner Image" else "Crop Profile Picture")
  {
    if t == Banner then CropperConfig(3.0, 1200.0, "Crop Banner Image")
    else CropperConfig(1.0, 400.0, "Crop Profile Picture")
  }

  /** Either way the dialog derives an output height of 400. */
  lemma CroppedHeightIs400(t: ImageType)
    ensures var c := ConfigFor(t);
      EnhancedImageCropper.FinalOutputHeight(c.outputWidth, c.aspectRatio, None) == 400.0
  {
  }

  /** `compressImage(file, options)` as the page calls it: whatever the image, a success is
      a JPEG at quality 0.8 within the bounds chosen for the image type. */
  method CompressForUpload(t: ImageType, decoded: Option<ImageUtils.Dimensions>, hasContext: bool)
    returns (r: ImageUtils.Outcome)
    requires decoded.Some? ==> decoded.value.width > 0.0 && decoded.value.height > 0.0
    ensures decoded.None? ==> r == ImageUtils.Rejected("Could not load image")
    ensures r.Resolved? ==>
      && r.url.mimeType == "image/jpeg" && r.url.quality == 0.8
      && r.url.width as real <= (if t == Banner then 1200.0 else 400.0) && r.url.height as real <= 400.0
  {
    r := ImageUtils.CompressImage(decoded, hasContext, UploadOptions(t));
  }

  class Editor {
    var profileData: map<string, string>
    var colorSettings: map<string, string>
    var selectedTheme: string
    var selectedLayout: string
    var showCropper: bool
    var cropperImage: string
    var cropperType: ImageType

    constructor ()
      ensures profileData == InitialProfile() && colorSettings == InitialColors
      ensures selectedTheme == "professional" && selectedLayout == "modern"
      ensures !showCropper && cropperImage == "" && cropperType == Profile
    {
      profileData, colorSettings := InitialProfile(), InitialColors;
      selectedTheme, selectedLayout := "professional", "modern";
      showCropper, cropperImage, cropperType := false, "", Profile;
    }

    /** `handleInputChange`: that field takes the value, every other field keeps its own. */
    method HandleInputChange(field: string, value: string)
      modifies this`profileData
      ensures field in profileData && profileData[field] == value
      ensures profileData.Keys == old(profileData).Keys + {field}
      ensures forall f :: f in old(profileData) && f != field ==> profileData[f] == old(profileData)[f]
    {
      profileData := profileData[field := value];
    }

    /** `handleColorChange`: that colour section takes the value, the others keep theirs. */
    method HandleColorChange(section: string, color: string)
      modifies this`colorSettings
      ensures section in colorSettings && colorSettings[section] == color
      ensures colorSettings.Keys == old(colorSettings).Keys + {section}
      ensures forall s :: s in old(colorSettings) && s != section ==> colorSettings[s] == old(colorSettings)[s]
    {
      colorSettings := colorSettings[section := color];
    }

    /** `handleThemeChange`: a known theme becomes selected and its palette replaces all the
        colours; an unknown id changes nothing. */
    method HandleThemeChange(themeId: string)
      modifies this`selectedTheme, this`colorSettings
      ensures FindTheme(Themes, themeId).Some? ==>
        selectedTheme == themeId && colorSettings == Palette(FindTheme(Themes, themeId).value.swatch)
        && colorSettings.Keys == ColorSections
      ensures FindTheme(Themes, themeId).None? ==>
        selectedTheme == old(selectedTheme) && colorSettings == old(colorSettings)
    {
      var theme := FindTheme(Themes, themeId);
      if theme.Some? {
        selectedTheme := themeId;
        colorSettings := Palette(theme.value.swatch);
      }
    }

    /** `handleCropComplete`: the cropped image goes to the picture or the banner according
        to the dialog's type, the other image is untouched, and the dialog closes. */
    method HandleCropComplete(croppedImage: string)
      modifies this`profileData, this`showCropper, this`cropperImage
      ensures cropperType == Profile ==> profileData == old(profileData)["profilePicture" := croppedImage]
      ensures cropperType == Banner ==> profileData == old(profileData)["bannerImage" := croppedImage]
      ensures cropperType == Profile && "bannerImage" in old(profileData) ==>
        profileData["bannerImage"] == old(profileData)["bannerImage"]
      ensures cropperType == Banner && "profilePicture" in old(profileData) ==>
        profileData["profilePicture"] == old(profileData)["profilePicture"]
      ensures !showCropper && cropperImage == ""
    {
      if cropperType == Profile {
        profileData := profileData["profilePicture" := croppedImage];
      } else {
        profileData := profileData["bannerImage" := croppedImage];
      }
      showCropper := false;
      cropperImage := "";
    }

    /** `handleCropCancel`: the dialog closes and the profile is unchanged. */
    method HandleCropCancel()
      modifies this`showCropper, this`cropperImage
      ensures !showCropper && cropperImage == ""
    {
      showCropper := false;
      cropperImage := "";
    }

    /** `handleFileSelect`: `compressed` is the outcome of the compression (`None` when it
        rejects, which is only logged). */
    method HandleFileSelect(t: ImageType, compressed: Option<string>)
      modifies this`cropperImage, this`cropperType, this`showCropper
      ensures compressed.Some? ==> cropperImage == compressed.value && cropperType == t && showCropper
      ensures compressed.None? ==>
        cropperImage == old(cropperImage) && cropperType == old(cropperType) && showCropper == old(showCropper)
    {
      if compressed.Some? {
        cropperImage := compressed.value;
        cropperType := t;
        showCropper := true;
      }
    }

    /** The remove buttons empty the banner or the picture and nothing else. */
    method RemoveImage(t: ImageType)
      modifies this`profileData
      ensures profileData == old(profileData)[(if t == Banner then "bannerImage" else "profilePicture") := ""]
    {
      if t == Banner {
        profileData := profileData["bannerImage" := ""];
      } else {
        profileData := profileData["profilePicture" := ""];
      }
    }

    /** The dialog configuration for the current image type. */
    method CurrentCropperConfig() returns (c: CropperConfig)
      ensures c.outputWidth == (if cropperType == Banner then 1200.0 else 400.0)
      ensures c.aspectRatio > 0.0 && c.outputWidth / c.aspectRatio == 400.0
    {
      c := ConfigFor(cropperType);
    }
  }
}
