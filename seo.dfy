/**
 * The document head the SEO component derives from its props: page title, absolute image
 * URL, canonical URL, site name, Twitter creator tag and the structured-data scripts.
 * The configuration strings are constants; the JSON-LD bodies are opaque schema tags.
 */
module Seo {
  import opened Wrappers
  import opened Js

  const DefaultTitle: string := "Chef Valerio Carlos - Brazilian Culinary Artistry"
  const DefaultDescription: string :=
    "Explore the authentic flavors of Brazilian cuisine crafted by Chef Valerio Carlos. "
    + "Catering, private dining, and culinary experiences available."
  const DefaultImage: string := "/chef-valerio-preview.jpg"
  const SiteUrl: string := "https://chefvalerio.com"
  const TwitterHandle: string := "@chefvaleriocarlos"
  const Locale: string := "en_US"
  const DefaultType: string := "website"

  const TitleSeparator: string := " | "
  const SiteNameSeparator: string := " - "
  const ScriptKeyPrefix: string := "structured-data-"

  /**
   * The component's props; `None` is a prop left undefined. The section is any string:
   * the page passes the section it observes, `"gallery"` included.
   */
  datatype SeoProps = SeoProps(
    title: Option<string>,
    description: Option<string>,
    image: Option<string>,
    url: Option<string>,
    pageType: Option<string>,
    section: Option<string>)

  datatype Schema = LocalBusiness | Person | FoodEstablishment

  datatype StructuredScript = StructuredScript(key: string, schema: Schema)

  /** The distinct values written into the head; each comment lists the tags carrying it. */
  datatype Head = Head(
    title: string,                   // <title>, title, og:title, twitter:title
    description: string,             // description, og:description, twitter:description
    canonical: string,               // link canonical, og:url, twitter:url
    pageType: string,                // og:type
    image: string,                   // og:image, twitter:image
    locale: string,                  // og:locale
    siteName: string,                // og:site_name
    twitterCreator: Option<string>,  // twitter:creator, when emitted
    scripts: seq<StructuredScript>)  // application/ld+json scripts

  /** A destructured prop with a default: the default replaces only an undefined prop. */
  function OrDefault(prop: Option<string>, default: string): (v: string)
    ensures prop.None? ==> v == default
    ensures prop.Some? ==> v == prop.value
  {
    match prop
    case Some(v) => v
    case None => default
  }

  lemma SiteUrlIsHttp()
    ensures StartsWith(SiteUrl, "http")
  {
  }

  /**
   * The page title: with a truthy section, the default title followed by the capitalised
   * section, whatever the title prop; otherwise the title prop, which defaults to the
   * default title.
   */
  function SeoTitle(title: Option<string>, section: Option<string>): (t: string)
    ensures Truthy(section) ==>
      t == DefaultTitle + TitleSeparator + [UpperChar(section.value[0])] + section.value[1..]
    ensures !Truthy(section) && title.Some? ==> t == title.value
    ensures !Truthy(section) && title.None? ==> t == DefaultTitle
  {
    if Truthy(section) then
      var s := section.value;
      assert UpperFirst(s) == [UpperChar(s[0])] + s[1..];
      DefaultTitle + TitleSeparator + UpperFirst(s)
    else OrDefault(title, DefaultTitle)
  }

  /** The image URL: kept when it starts with "http", otherwise prefixed with the site URL. */
  function AbsoluteImage(image: Option<string>): (u: string)
    ensures StartsWith(u, "http")
    ensures StartsWith(OrDefault(image, DefaultImage), "http") ==> u == OrDefault(image, DefaultImage)
    ensures !StartsWith(OrDefault(image, DefaultImage), "http") ==> u == SiteUrl + OrDefault(image, DefaultImage)
  {
    var img := OrDefault(image, DefaultImage);
    if StartsWith(img, "http") then img
    else
      SiteUrlIsHttp();
      assert (SiteUrl + img)[..4] == SiteUrl[..4];
      SiteUrl + img
  }

  /** Making an image URL absolute twice is the same as doing it once. */
  lemma AbsoluteImageIdempotent(image: Option<string>)
    ensures AbsoluteImage(Some(AbsoluteImage(image))) == AbsoluteImage(image)
  {
  }

  /** The canonical URL: the site URL, followed by `/#` and the section when there is one. */
  function CanonicalUrl(section: Option<string>): (c: string)
    ensures StartsWith(c, SiteUrl)
    ensures Truthy(section) ==> c == SiteUrl + "/#" + section.value
    ensures !Truthy(section) ==> c == SiteUrl
  {
    if Truthy(section) then
      var c := SiteUrl + "/#" + section.value;
      assert c[..|SiteUrl|] == SiteUrl;
      c
    else SiteUrl
  }

  /** Distinct sections get distinct canonical URLs. */
  lemma CanonicalUrlInjective(a: Option<string>, b: Option<string>)
    requires CanonicalUrl(a) == CanonicalUrl(b)
    ensures Truthy(a) <==> Truthy(b)
    ensures Truthy(a) ==> a == b
  {
    var n := |SiteUrl| + 2;
    if Truthy(a) && Truthy(b) {
      assert CanonicalUrl(a)[n..] == a.value;
      assert CanonicalUrl(b)[n..] == b.value;
    }
  }

  /** The schemas: the local business always first, then a person or a food establishment. */
  function Schemas(section: Option<string>): (r: seq<Schema>)
    ensures 1 <= |r| <= 2 && r[0] == LocalBusiness
    ensures Person in r <==> section == Some("about")
    ensures FoodEstablishment in r <==> section == Some("menu")
    ensures |r| == 2 <==> section == Some("about") || section == Some("menu")
  {
    if section == Some("about") then [LocalBusiness, Person]
    else if section == Some("menu") then [LocalBusiness, FoodEstablishment]
    else [LocalBusiness]
  }

  /** One script per schema, in order, keyed by its index; the keys are pairwise distinct. */
  function StructuredData(section: Option<string>): (scripts: seq<StructuredScript>)
    ensures |scripts| == |Schemas(section)|
    ensures forall i :: 0 <= i < |scripts| ==> scripts[i].schema == Schemas(section)[i]
    ensures forall i, j :: 0 <= i < j < |scripts| ==> scripts[i].key != scripts[j].key
  {
    var schemas := Schemas(section);
    var scripts := seq(|schemas|, i requires 0 <= i < |schemas| =>
      StructuredScript(ScriptKeyPrefix + Decimal(i), schemas[i]));
    assert forall i, j :: 0 <= i < j < |scripts| ==> scripts[i].key != scripts[j].key by {
      forall i, j | 0 <= i < j < |scripts| ensures scripts[i].key != scripts[j].key {
        if scripts[i].key == scripts[j].key {
          assert scripts[i].key[|ScriptKeyPrefix|..] == Decimal(i);
          assert scripts[j].key[|ScriptKeyPrefix|..] == Decimal(j);
          DecimalInjective(i, j);
        }
      }
    }
    scripts
  }

  /** `og:site_name`: the default title up to its first " - ". */
  function SiteName(): (name: string)
    ensures name <= DefaultTitle
    ensures forall k :: 0 <= k < |name| ==> !OccursAt(DefaultTitle, SiteNameSeparator, k)
    ensures name == DefaultTitle || OccursAt(DefaultTitle, SiteNameSeparator, |name|)
  {
    SplitHead(DefaultTitle, SiteNameSeparator)
  }

  /** The parts of the default title before and after its " - ". */
  const ChefName: string := "Chef Valerio Carlos"
  const Tagline: string := "Brazilian Culinary Artistry"

  /** No " - " starts inside the chef's name in the configured title. */
  lemma NoSeparatorInChefName()
    ensures forall k :: 0 <= k < |ChefName| ==> !OccursAt(ChefName + SiteNameSeparator + Tagline, SiteNameSeparator, k)
  {
    var head, sep := ChefName, SiteNameSeparator;
    var s := head + sep + Tagline;
    assert '-' !in head;
    forall k | 0 <= k < |head| ensures !OccursAt(s, sep, k) {
      if k + 1 < |head| {
        assert s[k + 1] == head[k + 1];
        assert head[k + 1] in head;
      } else {
        assert s[k + 1] == sep[0];
      }
      assert s[k..k + |sep|][1] == s[k + 1] != sep[1];
    }
  }

  /** With the configured title, `og:site_name` is the chef's name. */
  lemma SiteNameIsChefName()
    ensures SiteName() == ChefName
  {
    assert DefaultTitle == ChefName + SiteNameSeparator + Tagline;
    NoSeparatorInChefName();
    SplitHeadOfJoin(ChefName, SiteNameSeparator, Tagline);
  }

  /** The `twitter:creator` tag is emitted exactly when the handle is non-empty. */
  function TwitterCreator(handle: string): (tag: Option<string>)
    ensures tag.Some? <==> handle != ""
    ensures tag.Some? ==> tag.value == handle
  {
    if handle != "" then Some(handle) else None
  }

  /** The whole head for one set of props. */
  function RenderHead(p: SeoProps): (h: Head)
    ensures h.title == SeoTitle(p.title, p.section)
    ensures h.description == OrDefault(p.description, DefaultDescription)
    ensures h.canonical == CanonicalUrl(p.section) && StartsWith(h.canonical, SiteUrl)
    ensures h.pageType == OrDefault(p.pageType, DefaultType)
    ensures h.image == AbsoluteImage(p.image) && StartsWith(h.image, "http")
    ensures h.locale == Locale
    ensures h.siteName == SiteName() == ChefName
    ensures h.twitterCreator == Some(TwitterHandle)
    ensures h.scripts == StructuredData(p.section)
    ensures 1 <= |h.scripts| <= 2 && h.scripts[0].schema == LocalBusiness
  {
    SiteNameIsChefName();
    Head(
      SeoTitle(p.title, p.section),
      OrDefault(p.description, DefaultDescription),
      CanonicalUrl(p.section),
      OrDefault(p.pageType, DefaultType),
      AbsoluteImage(p.image),
      Locale,
      SiteName(),
      TwitterCreator(TwitterHandle),
      StructuredData(p.section))
  }

  /** The `url` prop has no effect on the head. */
  lemma UrlPropIgnored(p: SeoProps, url: Option<string>)
    ensures RenderHead(p.(url := url)) == RenderHead(p)
  {
  }

  /** With a truthy section the `title` prop has no effect on the head. */
  lemma TitlePropIgnoredWithSection(p: SeoProps, title: Option<string>)
    requires Truthy(p.section)
    ensures RenderHead(p.(title := title)) == RenderHead(p)
  {
  }
}
