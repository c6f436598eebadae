/**
 * The static brand registry (`sites` in siteConfig.ts): four brand keys, each
 * mapped to a configuration record. Optional fields of the record are
 * `Option`s; the consumers treat an absent value, a zero number and an empty
 * string alike (JavaScript `||`), which `NumOr` and `StrOr` capture.
 */
module SiteRegistry {
  import opened Wrappers

  datatype SiteKey = Software | Guidance | ItSupport | FlowSupport

  /** A navigation entry; `caption` is the source's `label` (a reserved word here). */
  datatype NavLink = NavLink(caption: string, href: string, icon: string, isTopLevel: bool)

  /** One brand's configuration: the fields the header, sidebar and theme
      read. The display copy is kept apart, in `SiteText`. */
  datatype SiteConfig = SiteConfig(
    primaryColor: string,
    navLinks: seq<NavLink>,
    headerHeight: Option<nat>,
    headerTextColor: Option<string>,
    headerBgShade: Option<string>,
    logoWidth: Option<nat>,
    logoHeight: Option<nat>,
    sidebarColor: Option<string>)

  /** The URL prefix and object key of a brand. */
  function KeyName(k: SiteKey): string {
    match k
    case Software => "software"
    case Guidance => "guidance"
    case ItSupport => "itsupport"
    case FlowSupport => "flowsupport"
  }

  /** Looking a string up among the keys of `sites` (exact, case-sensitive). */
  function ParseKey(s: string): (r: Option<SiteKey>)
    ensures r.Some? ==> KeyName(r.value) == s
    ensures r.None? ==> forall k :: KeyName(k) != s
  {
    if s == "software" then Some(Software)
    else if s == "guidance" then Some(Guidance)
    else if s == "itsupport" then Some(ItSupport)
    else if s == "flowsupport" then Some(FlowSupport)
    else None
  }

  /** `n || d` for an optional number. */
  function NumOr(o: Option<nat>, d: nat): nat {
    if o.Some? && o.value != 0 then o.value else d
  }

  /** `s || d` for an optional string. */
  function StrOr(o: Option<string>, d: string): string {
    if o.Some? && o.value != "" then o.value else d
  }

  predicate HasHref(links: seq<NavLink>, href: string) {
    exists i :: 0 <= i < |links| && links[i].href == href
  }

  predicate DistinctHrefs(links: seq<NavLink>) {
    forall i, j :: 0 <= i < j < |links| ==> links[i].href != links[j].href
  }

  predicate DistinctLabels(links: seq<NavLink>) {
    forall i, j :: 0 <= i < j < |links| ==> links[i].caption != links[j].caption
  }

  /** Every optional field the header, theme and sidebar read is set to a
      truthy value, so their `||` defaults never apply to a registered brand. */
  predicate HeaderFieldsSet(c: SiteConfig) {
    && c.headerHeight.Some? && c.headerHeight.value != 0
    && c.headerTextColor.Some? && c.headerTextColor.value != ""
    && c.headerBgShade.Some? && c.headerBgShade.value != ""
    && c.sidebarColor.Some? && c.sidebarColor.value != ""
    && c.primaryColor != ""
  }

  /** The navigation links of one brand satisfy the registry's link
      invariants; `top` is the value every link's `isTopLevel` carries. */
  predicate LinksWellFormed(links: seq<NavLink>, top: bool) {
    && HasHref(links, "home") && HasHref(links, "contact")
    && DistinctHrefs(links) && DistinctLabels(links)
    && forall i :: 0 <= i < |links| ==> links[i].isTopLevel == top
  }

  /** The registry's invariants for one brand's configuration. */
  predicate WellFormedSite(c: SiteConfig, top: bool) {
    LinksWellFormed(c.navLinks, top) && HeaderFieldsSet(c)
  }

  function SoftwareLinks(): seq<NavLink> {
    [
      NavLink("Home", "home", "Home", false),
      NavLink("About Us", "about", "Info", false),
      NavLink("Services", "services", "Devices", false),
      NavLink("Facilities", "facilities", "Business", false),
      NavLink("Contact", "contact", "Mail", false)]
  }

  function GuidanceLinks(): seq<NavLink> {
    [
      NavLink("Home", "home", "Home", false),
      NavLink("Requirements", "require", "Checklist", false),
      NavLink("Facilities", "facilities", "Business", false),
      NavLink("About Us", "about", "Info", false),
      NavLink("Contact", "contact", "Mail", false)]
  }

  function ItSupportLinks(): seq<NavLink> {
    [
      NavLink("Home", "home", "Home", true),
      NavLink("IT Support", "itservices", "Computer", true),
      NavLink("Software Solutions", "swservices", "Code", true),
      NavLink("Data Engineering", "dataservices", "Storage", true),
      NavLink("Contact", "contact", "Mail", true),
      NavLink("Careers", "careers", "Career", true),
      NavLink("About Us", "about", "Info", true)]
  }

  function FlowSupportLinks(): seq<NavLink> {
    [
      NavLink("Home", "home", "Home", false),
      NavLink("Services", "services", "Devices", false),
      NavLink("About", "about", "Info", false),
      NavLink("Contact", "contact", "Mail", false)]
  }

  function SoftwareSite(): SiteConfig {
    SiteConfig("#757575", SoftwareLinks(),
      Some(120), Some("#FFFFFF"), Some("#616161"), Some(180), Some(180), Some("#616161"))
  }

  function GuidanceSite(): SiteConfig {
    SiteConfig("#757575", GuidanceLinks(),
      Some(80), Some("#FFFFFF"), Some("cadetblue"), Some(180), Some(180), Some("cadetblue"))
  }

  function ItSupportSite(): SiteConfig {
    SiteConfig("#3c3c3c", ItSupportLinks(),
      Some(90), Some("#FFFFFF"), Some("cadetblue"), Some(85), Some(85), Some("white"))
  }

  function FlowSupportSite(): SiteConfig {
    SiteConfig("#0D9488", FlowSupportLinks(),
      Some(90), Some("#FFFFFF"), Some("cadetblue"), Some(180), Some(180), Some("white"))
  }

  /** A brand's display copy. `logo` is the asset path that follows the
      build's public URL prefix. */
  datatype SiteText = SiteText(name: string, logo: string, heroTitle: string, heroSubtitle: string)

  /** The display copy of each brand, from the same registry entries. */
  function SiteTexts(k: SiteKey): SiteText {
    match k
    case Software => SiteText("Digital Software Solutions", "/logos/nordisklogo.png",
      "Innovative Software Solutions for Your Business",
      "Custom software development, cloud services, and digital transformation.")
    case Guidance => SiteText("Student Admission Guidance", "/logos/nordisklogo.png",
      "Study and Build Your Future in Denmark",
      "Guidance for admission, visa, and job opportunities.")
    case ItSupport => SiteText("Where Technology Meets Reliability", "/logos/nordisk.png",
      "Professional IT & Network Support",
      "Reliable, affordable, and fast tech support for your business.")
    case FlowSupport => SiteText("Flow & Hygiene Support Services", "/logos/nordisklogo.png",
      "Restaurant & Facility Hygiene Operations",
      "Professional dishwashing, cleaning, and back-of-house flow support.")
  }

  /** The registry, total over the four keys. */
  function Sites(k: SiteKey): SiteConfig {
    match k
    case Software => SoftwareSite()
    case Guidance => GuidanceSite()
    case ItSupport => ItSupportSite()
    case FlowSupport => FlowSupportSite()
  }

  lemma SoftwareLinksWellFormed()
    ensures LinksWellFormed(SoftwareLinks(), false)
  {
    var links := SoftwareLinks();
    assert links[0].href == "home" && links[4].href == "contact";
    SoftwareHrefsDistinct();
  }

  lemma SoftwareHrefsDistinct()
    ensures DistinctHrefs(SoftwareLinks()) && DistinctLabels(SoftwareLinks())
  {
    var links := SoftwareLinks();
    forall i, j | 0 <= i < j < |links| ensures links[i].href != links[j].href && links[i].caption != links[j].caption {
    }
  }

  lemma GuidanceLinksWellFormed()
    ensures LinksWellFormed(GuidanceLinks(), false)
  {
    var links := GuidanceLinks();
    assert links[0].href == "home" && links[4].href == "contact";
    GuidanceHrefsDistinct();
  }

  lemma GuidanceHrefsDistinct()
    ensures DistinctHrefs(GuidanceLinks()) && DistinctLabels(GuidanceLinks())
  {
    var links := GuidanceLinks();
    forall i, j | 0 <= i < j < |links| ensures links[i].href != links[j].href && links[i].caption != links[j].caption {
    }
  }

  lemma ItSupportLinksWellFormed()
    ensures LinksWellFormed(ItSupportLinks(), true)
  {
    var links := ItSupportLinks();
    assert links[0].href == "home" && links[4].href == "contact";
    ItSupportHrefsDistinct();
  }

  lemma ItSupportHrefsDistinct()
    ensures DistinctHrefs(ItSupportLinks()) && DistinctLabels(ItSupportLinks())
  {
    var links := ItSupportLinks();
    forall i, j | 0 <= i < j < |links| ensures links[i].href != links[j].href && links[i].caption != links[j].caption {
    }
  }

  lemma FlowSupportLinksWellFormed()
    ensures LinksWellFormed(FlowSupportLinks(), false)
  {
    var links := FlowSupportLinks();
    assert links[0].href == "home" && links[3].href == "contact";
    FlowSupportHrefsDistinct();
  }

  lemma FlowSupportHrefsDistinct()
    ensures DistinctHrefs(FlowSupportLinks()) && DistinctLabels(FlowSupportLinks())
  {
    var links := FlowSupportLinks();
    forall i, j | 0 <= i < j < |links| ensures links[i].href != links[j].href && links[i].caption != links[j].caption {
    }
  }

  lemma SoftwareSiteWellFormed()
    ensures WellFormedSite(SoftwareSite(), false)
  {
    SoftwareLinksWellFormed();
  }

  lemma GuidanceSiteWellFormed()
    ensures WellFormedSite(GuidanceSite(), false)
  {
    GuidanceLinksWellFormed();
  }

  lemma ItSupportSiteWellFormed()
    ensures WellFormedSite(ItSupportSite(), true)
  {
    ItSupportLinksWellFormed();
  }

  lemma FlowSupportSiteWellFormed()
    ensures WellFormedSite(FlowSupportSite(), false)
  {
    FlowSupportLinksWellFormed();
  }

  /** Every brand links `home` and `contact`, its link hrefs and labels are
      pairwise distinct, its header fields are set, and only the IT-support
      links are top-level. */
  lemma SitesWellFormed(k: SiteKey)
    ensures WellFormedSite(Sites(k), k == ItSupport)
  {
    match k
    case Software =>
      SoftwareSiteWellFormed();
    case Guidance =>
      GuidanceSiteWellFormed();
    case ItSupport =>
      ItSupportSiteWellFormed();
    case FlowSupport =>
      FlowSupportSiteWellFormed();
  }

  /** A string names a registered brand exactly when `ParseKey` finds it, and
      the four key names are distinct. */
  lemma KeysAreExactlyFour(s: string)
    ensures ParseKey(s).Some? <==> s in {"software", "guidance", "itsupport", "flowsupport"}
    ensures forall a: SiteKey, b: SiteKey :: KeyName(a) == KeyName(b) ==> a == b
  {
    forall a: SiteKey, b: SiteKey | KeyName(a) == KeyName(b) ensures a == b {
      assert ParseKey(KeyName(a)) == Some(a);
    }
  }
}
