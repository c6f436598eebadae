/**
 * The page header (Header.tsx): it picks a configuration from the first path
 * segment, falling back to `itsupport`, copies three colours and the header
 * height onto the body, sizes the app bar and the logo, and links to the
 * current brand's home and contact pages.
 */
module Header {
  import opened Wrappers
  import opened Strings
  import opened SiteRegistry
  import opened Paths
  import opened Dom
  import ThemeContext

  /** `sites[path] || sites.itsupport`: the first segment's brand when it is
      exactly a key, the inherited built-in when it names one of
      `Object.prototype`'s properties, else `itsupport`. */
  function HeaderSite(pathname: string): (r: Indexed)
    ensures forall k :: PathSegment(pathname) == Some(KeyName(k)) ==> r == Own(k)
    ensures PathSegment(pathname).Some? && PathSegment(pathname).value in InheritedNames ==>
      r == Inherited(PathSegment(pathname).value)
    ensures IndexSites(pathname).Undefined? ==> r == Own(ItSupport)
  {
    KeysAreExactlyFour("");
    OrSite(IndexSites(pathname), ItSupport)
  }

  /** What the header reads from an inherited built-in: every field is
      `undefined`. The primary colour is the text "undefined", which is what
      `setProperty` stores when handed `undefined`. */
  const BuiltinConfig: SiteConfig := SiteConfig("undefined", [], None, None, None, None, None, None)

  function HeaderConfig(pathname: string): SiteConfig {
    match HeaderSite(pathname)
    case Own(k) => Sites(k)
    case _ => BuiltinConfig
  }

  /** `headerHeight || 64`: the app bar height in pixels. */
  function AppBarHeight(c: SiteConfig): nat {
    NumOr(c.headerHeight, 64)
  }

  /** The body's top padding, `${headerHeight || 64}px`. */
  function PaddingTop(c: SiteConfig): string {
    NatToString(AppBarHeight(c)) + "px"
  }

  /** The custom properties after the header's effect. */
  function HeaderStyle(style: map<string, string>, c: SiteConfig): map<string, string> {
    var s1 := SetProp(style, "--primary", c.primaryColor);
    var s2 := SetProp(s1, "--header-bg", StrOr(c.headerBgShade, c.primaryColor));
    SetProp(s2, "--header-text", StrOr(c.headerTextColor, "#fff"))
  }

  /** What each variable holds after the header's effect: the primary colour,
      the background shade or else the primary colour, the text colour or else
      `#fff`; every other variable keeps its value. */
  lemma HeaderStyleValues(style: map<string, string>, c: SiteConfig, name: string)
    ensures GetProp(HeaderStyle(style, c), "--primary") == c.primaryColor
    ensures GetProp(HeaderStyle(style, c), "--header-bg") == StrOr(c.headerBgShade, c.primaryColor)
    ensures GetProp(HeaderStyle(style, c), "--header-text") == StrOr(c.headerTextColor, "#fff")
    ensures name !in {"--primary", "--header-bg", "--header-text"} ==>
      GetProp(HeaderStyle(style, c), name) == GetProp(style, name)
  {
  }

  /** For a registered brand the header writes the same three colours the
      theme provider wrote, so the two effects agree whatever order they run in. */
  lemma HeaderAgreesWithTheme(style: map<string, string>, other: map<string, string>, k: SiteKey, name: string)
    requires name in {"--primary", "--header-bg", "--header-text"}
    ensures GetProp(HeaderStyle(style, Sites(k)), name) == GetProp(ThemeContext.ThemedStyle(other, Sites(k)), name)
  {
    var c := Sites(k);
    SitesWellFormed(k);
    HeaderStyleValues(style, c, name);
    ThemeContext.ThemedStyleAt(other, c, name);
  }

  /** The effect keyed on the configuration. */
  method ApplyHeaderEffect(body: Body, c: SiteConfig)
    modifies body
    ensures body.style == HeaderStyle(old(body.style), c)
    ensures body.paddingTop == PaddingTop(c)
    ensures body.classes == old(body.classes)
  {
    body.SetProperty("--primary", c.primaryColor);
    body.SetProperty("--header-bg", if c.headerBgShade.Some? && c.headerBgShade.value != "" then c.headerBgShade.value else c.primaryColor);
    body.SetProperty("--header-text", if c.headerTextColor.Some? && c.headerTextColor.value != "" then c.headerTextColor.value else "#fff");
    var h := if c.headerHeight.Some? && c.headerHeight.value != 0 then c.headerHeight.value else 64;
    body.SetPaddingTop(NatToString(h) + "px");
  }

  /** Logo width and height, each `|| 80`. */
  function LogoSize(c: SiteConfig): (nat, nat) {
    (NumOr(c.logoWidth, 80), NumOr(c.logoHeight, 80))
  }

  /** The logo is never drawn at zero size: a set, non-zero dimension is
      kept and a missing or zero one becomes 80, so a built-in standing in
      for the configuration gets 80 by 80. */
  lemma LogoSizeMeaning(c: SiteConfig)
    ensures LogoSize(c).0 > 0 && LogoSize(c).1 > 0
    ensures LogoSize(c).0 == (if c.logoWidth.Some? && c.logoWidth.value != 0 then c.logoWidth.value else 80)
    ensures LogoSize(c).1 == (if c.logoHeight.Some? && c.logoHeight.value != 0 then c.logoHeight.value else 80)
    ensures LogoSize(BuiltinConfig) == (80, 80)
  {
  }

  /** The prefix of the header's links: `path || 'itsupport'`, the raw
      segment and not the resolved brand. */
  function LinkPrefix(pathname: string): (r: string)
    ensures PathSegment(pathname).Some? && PathSegment(pathname).value != "" ==> r == PathSegment(pathname).value
    ensures PathSegment(pathname).None? || PathSegment(pathname).value == "" ==> r == "itsupport"
  {
    match PathSegment(pathname)
    case Some(seg) => if seg != "" then seg else "itsupport"
    case None => "itsupport"
  }

  function HomeLink(pathname: string): string {
    "/" + LinkPrefix(pathname) + "/home"
  }

  function ContactLink(pathname: string): string {
    "/" + LinkPrefix(pathname) + "/contact"
  }

  /** For a registered brand the app bar height, and so the body padding, is
      the brand's own header height: the 64 default never applies. */
  lemma HeaderHeightConsistent(k: SiteKey)
    ensures Sites(k).headerHeight.Some? && AppBarHeight(Sites(k)) == Sites(k).headerHeight.value
  {
    SitesWellFormed(k);
  }

  /** On a page under an unknown first segment the header shows the
      `itsupport` brand but its links keep the unknown segment. */
  lemma UnknownSegmentKeepsPrefix(seg: string, page: string)
    requires seg != "" && '/' !in seg && '/' !in page
    requires forall k :: KeyName(k) != seg
    requires seg !in InheritedNames
    ensures HeaderSite("/" + seg + "/" + page) == Own(ItSupport)
    ensures HomeLink("/" + seg + "/" + page) == "/" + seg + "/home"
    ensures ContactLink("/" + seg + "/" + page) == "/" + seg + "/contact"
  {
    SegmentOfPage(seg, page);
  }

  /** Under a segment such as `constructor` or `toString` the lookup yields a
      built-in, `||` keeps it, and the header writes the text "undefined" as
      the primary and background colours, white text, the default 64px
      padding, and links that keep the segment. */
  lemma InheritedSegmentHeader(name: string, page: string, style: map<string, string>)
    requires name in InheritedNames && '/' !in page
    ensures var p := "/" + name + "/" + page;
      && HeaderSite(p) == Inherited(name)
      && GetProp(HeaderStyle(style, HeaderConfig(p)), "--primary") == "undefined"
      && GetProp(HeaderStyle(style, HeaderConfig(p)), "--header-bg") == "undefined"
      && GetProp(HeaderStyle(style, HeaderConfig(p)), "--header-text") == "#fff"
      && PaddingTop(HeaderConfig(p)) == "64px"
      && HomeLink(p) == "/" + name + "/home"
  {
    InheritedNoSlash(name);
    SegmentOfPage(name, page);
    HeaderStyleValues(style, BuiltinConfig, "");
    BuiltinPadding();
  }

  lemma BuiltinPadding()
    ensures PaddingTop(BuiltinConfig) == "64px"
  {
    assert NatToString(6) == "6";
  }

  /** On a brand's own page the header uses that brand and links to it. */
  lemma BrandPageHeader(k: SiteKey, page: string)
    requires '/' !in page
    ensures HeaderSite(BrandPath(k, page)) == Own(k)
    ensures HomeLink(BrandPath(k, page)) == BrandPath(k, "home")
    ensures ContactLink(BrandPath(k, page)) == BrandPath(k, "contact")
  {
    BrandPathSegment(k, page);
    KeyNameHasNoSlash(k);
  }
}
