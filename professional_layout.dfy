/**
 * The rules the professional layout adds to the shared helpers: the "Visit Website"
 * button and the contact cards, each shown on a plain truthiness test with no trimming.
 */
module ProfessionalLayout {
  import opened Wrappers
  import opened Strings
  import opened SocialLinks

  /** The button is shown when `website` is present and non-empty. */
  predicate ShowVisitWebsite(data: map<string, string>)
  {
    Truthy(Get(data, "website"))
  }

  /** The "Get In Touch" section: shown when a phone or a location is given. */
  predicate ShowContactSection(data: map<string, string>)
  {
    Truthy(Get(data, "phone")) || Truthy(Get(data, "location"))
  }

  /** Which contact cards the section holds: phone, location, both or neither. */
  function ContactCards(data: map<string, string>): (cards: seq<string>)
    ensures "phone" in cards <==> Truthy(Get(data, "phone"))
    ensures "location" in cards <==> Truthy(Get(data, "location"))
    ensures cards != [] <==> ShowContactSection(data)
  {
    (if Truthy(Get(data, "phone")) then ["phone"] else []) + (if Truthy(Get(data, "location")) then ["location"] else [])
  }

  /** The button and the website link use different tests: a website of spaces shows the
      button but no website link. */
  lemma WhitespaceWebsiteShowsButtonOnly(data: map<string, string>)
    requires "website" in data && data["website"] == " "
    ensures ShowVisitWebsite(data)
    ensures "website" !in Keys(ActiveLinks(data))
  {
    assert IsBlank(data["website"]);
    TrimEmptyIffBlank(data["website"]);
    ActiveLinksExact(data, Platforms[0]);
  }

  /** A website that is a link is always also a button. */
  lemma WebsiteLinkImpliesButton(data: map<string, string>)
    requires "website" in Keys(ActiveLinks(data))
    ensures ShowVisitWebsite(data)
  {
    ActiveLinksExact(data, Platforms[0]);
  }
}
