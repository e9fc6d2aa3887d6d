/**
 * lib/metadata.ts: the site-wide and per-page metadata records (title,
 * canonical URL, Open Graph and Twitter cards, robots) and the Person
 * structured data.
 *
 * Records are kept to the fields the code sets; URLs are strings, as the
 * code builds them.
 */
module Metadata {
  import opened Common

  const SiteName := "George Yiakoumi"
  const SiteTitle := "George Yiakoumi - Product Designer & UX/UI Specialist"
  const SiteUrl := "https://georgeyiakoumi.com"
  const DefaultOgImage := "/og-image.jpg"
  const LinkedIn := "https://linkedin.com/in/georgeyiakoumi"
  const GitHub := "https://github.com/georgeyiakoumi"
  const OgWidth := 1200
  const OgHeight := 630

  datatype OgImage = OgImage(url: string, width: int, height: int, alt: string)
  datatype Robots = Robots(index: bool, follow: bool)

  datatype SiteMetadata = SiteMetadata(
    metadataBase: string,
    titleDefault: string,
    titleTemplate: string,
    ogUrl: string,
    ogImages: seq<OgImage>,
    twitterImages: seq<string>,
    robots: Robots)

  /** `generateSiteMetadata`. */
  function SiteMetadataRecord(): (m: SiteMetadata)
    ensures m.titleDefault == SiteTitle && m.titleTemplate == "%s | " + SiteName
    ensures m.metadataBase == m.ogUrl == SiteUrl
    ensures |m.ogImages| == 1 && m.ogImages[0] == OgImage(DefaultOgImage, OgWidth, OgHeight, SiteName)
    ensures m.twitterImages == [m.ogImages[0].url]
    ensures m.robots == Robots(true, true)
  {
    SiteMetadata(SiteUrl, SiteTitle, "%s | " + SiteName, SiteUrl,
                 [OgImage(DefaultOgImage, OgWidth, OgHeight, SiteName)], [DefaultOgImage], Robots(true, true))
  }

  /** The title a page gets from the site template. */
  function TitledPage(pageTitle: string): (t: string)
    ensures StartsWith(t, pageTitle) && EndsWith(t, SiteName)
    ensures t == pageTitle + " | " + SiteName
  {
    var template := SiteMetadataRecord().titleTemplate;
    assert template == "%s" + " | " + SiteName;
    assert template[2..] == " | " + SiteName;
    var t := pageTitle + template[2..];
    assert t == (pageTitle + " | ") + SiteName;
    assert t[..|pageTitle|] == pageTitle;
    assert t[|t| - |SiteName|..] == SiteName;
    t
  }

  datatype PageMetadata = PageMetadata(
    title: string,
    description: string,
    canonical: string,
    ogTitle: string,
    ogUrl: string,
    ogImages: seq<OgImage>,
    twitterImages: seq<string>,
    robots: Option<Robots>)

  /** `generatePageMetadata`: `path` defaults to `''`, `noIndex` to false. */
  function PageMetadataRecord(title: string, description: string, path: Option<string>, image: Option<string>, noIndex: Option<bool>): (m: PageMetadata)
    ensures m.canonical == m.ogUrl == SiteUrl + path.GetOr("")
    ensures |m.ogImages| == 1 && m.ogImages[0] == OgImage(OrString(image, DefaultOgImage), OgWidth, OgHeight, title)
    ensures m.twitterImages == [m.ogImages[0].url]
    ensures m.robots.Some? <==> noIndex == Some(true)
    ensures m.robots.Some? ==> m.robots.value == Robots(false, false)
    ensures m.title == m.ogTitle == title && m.description == description
  {
    var url := SiteUrl + path.GetOr("");
    var ogImage := OrString(image, DefaultOgImage);
    PageMetadata(title, description, url, title, url,
                 [OgImage(ogImage, OgWidth, OgHeight, title)], [ogImage],
                 if noIndex.GetOr(false) then Some(Robots(false, false)) else None)
  }

  /** Distinct paths get distinct canonical URLs: the URL is the site followed by the path. */
  lemma CanonicalDeterminesPath(t1: string, d1: string, p1: string, t2: string, d2: string, p2: string)
    requires PageMetadataRecord(t1, d1, Some(p1), None, None).canonical == PageMetadataRecord(t2, d2, Some(p2), None, None).canonical
    ensures p1 == p2
  {
    var c1 := SiteUrl + p1;
    var c2 := SiteUrl + p2;
    assert c1 == c2;
    assert p1 == c1[|SiteUrl|..];
    assert p2 == c2[|SiteUrl|..];
  }

  /** Leaving out the path is the home page; a missing or empty image is the site image. */
  lemma PageDefaults(title: string, description: string)
    ensures var m := PageMetadataRecord(title, description, None, Some(""), Some(false));
      m == PageMetadataRecord(title, description, Some(""), None, None) &&
      m.canonical == SiteMetadataRecord().ogUrl && m.ogImages[0].url == SiteMetadataRecord().ogImages[0].url
  {
  }

  datatype PersonJsonLd = PersonJsonLd(context: string, kind: string, name: string, url: string, jobTitle: string, sameAs: seq<string>)

  /** `generatePersonJsonLd`: the schema.org Person, linked to LinkedIn then GitHub. */
  function PersonRecord(): (p: PersonJsonLd)
    ensures p.context == "https://schema.org" && p.kind == "Person"
    ensures p.name == SiteName && p.url == SiteMetadataRecord().ogUrl
    ensures p.jobTitle == "Product Designer"
    ensures p.sameAs == [LinkedIn, GitHub]
  {
    PersonJsonLd("https://schema.org", "Person", SiteName, SiteUrl, "Product Designer", [LinkedIn, GitHub])
  }
}
