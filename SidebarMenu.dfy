/**
 * The navigation drawer (SidebarMenu.tsx): it picks a configuration from the
 * first path segment, falling back to `software`, and renders one item per
 * navigation link, each pointing at `/<segment>/<href>` and highlighted when
 * it is the current location.
 */
module SidebarMenu {
  import opened Wrappers
  import opened Strings
  import opened SiteRegistry
  import opened Paths

  /** `sites[path] || sites.software`: the first segment's brand when it is
      exactly a key, the inherited built-in when it names one of
      `Object.prototype`'s properties, else `software`. */
  function SidebarSite(pathname: string): (r: Indexed)
    ensures forall k :: PathSegment(pathname) == Some(KeyName(k)) ==> r == Own(k)
    ensures PathSegment(pathname).Some? && PathSegment(pathname).value in InheritedNames ==>
      r == Inherited(PathSegment(pathname).value)
    ensures IndexSites(pathname).Undefined? ==> r == Own(Software)
  {
    KeysAreExactlyFour("");
    OrSite(IndexSites(pathname), Software)
  }

  /** `${path}` in a template literal: the raw segment, or the text
      "undefined" when the pathname has no '/'. */
  function SegmentText(pathname: string): string {
    match PathSegment(pathname)
    case Some(seg) => seg
    case None => "undefined"
  }

  /** The target of a link, `/${path}/${href}`. */
  function LinkPath(pathname: string, href: string): string {
    "/" + SegmentText(pathname) + "/" + href
  }

  /** `isActivePath`: exact equality with the current pathname. */
  predicate IsActivePath(pathname: string, target: string) {
    pathname == target
  }

  datatype Icon = HomeIcon | InfoIcon | ComputerIcon | CodeIcon | MailIcon | DevicesIcon | ChecklistIcon | BusinessIcon

  /** The conditional chain that turns an icon name into an icon. */
  function IconFor(name: string): (r: Option<Icon>)
    ensures r.Some? <==> name in {"Home", "Info", "Computer", "Code", "Mail", "Devices", "Checklist", "Business"}
  {
    if name == "Home" then Some(HomeIcon)
    else if name == "Info" then Some(InfoIcon)
    else if name == "Computer" then Some(ComputerIcon)
    else if name == "Code" then Some(CodeIcon)
    else if name == "Mail" then Some(MailIcon)
    else if name == "Devices" then Some(DevicesIcon)
    else if name == "Checklist" then Some(ChecklistIcon)
    else if name == "Business" then Some(BusinessIcon)
    else None
  }

  /** The IT-support links name two icons the chain does not know, so those
      items render without an icon. */
  lemma UnknownIcons()
    ensures IconFor("Storage") == None && IconFor("Career") == None
    ensures IconFor("Home") == Some(HomeIcon) && IconFor("Mail") == Some(MailIcon)
  {
  }

  /** One rendered list item. `text` is the visible label (empty when the
      drawer is closed) and `tooltip` the hover title (empty when open). */
  datatype Item = Item(key: string, target: string, icon: Option<Icon>, active: bool, text: string, tooltip: string)

  function RenderItem(pathname: string, open: bool, link: NavLink): Item {
    var target := LinkPath(pathname, link.href);
    Item(link.caption, target, IconFor(link.icon), IsActivePath(pathname, target),
      if open then link.caption else "", if !open then link.caption else "")
  }

  /** `navLinks.map(...)`: one item per link, in order. */
  function RenderItems(pathname: string, open: bool, links: seq<NavLink>): (items: seq<Item>)
    ensures |items| == |links|
    ensures forall i :: 0 <= i < |items| ==>
      var link := links[i];
      && items[i].key == link.caption
      && items[i].target == LinkPath(pathname, link.href)
      && (items[i].active <==> pathname == items[i].target)
      && (open ==> items[i].text == link.caption && items[i].tooltip == "")
      && (!open ==> items[i].text == "" && items[i].tooltip == link.caption)
  {
    seq(|links|, i requires 0 <= i < |links| => RenderItem(pathname, open, links[i]))
  }

  /** The items of the menu shown at `pathname`; `None` when rendering
      throws, because an inherited built-in has no `navLinks` to map over. */
  function Items(pathname: string, open: bool): (r: Option<seq<Item>>)
    ensures r.None? <==> PathSegment(pathname).Some? && PathSegment(pathname).value in InheritedNames
  {
    match SidebarSite(pathname)
    case Own(k) => Some(RenderItems(pathname, open, Sites(k).navLinks))
    case _ => None
  }

  lemma PrefixCancel(p: string, a: string, b: string)
    requires p + a == p + b
    ensures a == b
  {
    assert a == (p + a)[|p|..];
    assert b == (p + b)[|p|..];
  }

  /** Targets of links with different hrefs differ, so at most one item of a
      rendered menu is active. */
  lemma AtMostOneActive(pathname: string, open: bool)
    ensures Items(pathname, open).Some? ==>
      var items := Items(pathname, open).value;
      forall i, j :: 0 <= i < j < |items| ==> !(items[i].active && items[j].active)
  {
    if Items(pathname, open).Some? {
      var k := SidebarSite(pathname).key;
      var links := Sites(k).navLinks;
      var items := RenderItems(pathname, open, links);
      SitesWellFormed(k);
      forall i, j | 0 <= i < j < |items| && items[i].active && items[j].active
        ensures false
      {
        PrefixCancel("/" + SegmentText(pathname) + "/", links[i].href, links[j].href);
      }
    }
  }

  /** On the page `/<brand>/<page>`, the item for a link is active exactly
      when the link's href is the page. */
  lemma ActiveOnBrandPage(k: SiteKey, page: string, open: bool, links: seq<NavLink>, i: int)
    requires page != "" && '/' !in page
    requires 0 <= i < |links|
    ensures RenderItems(BrandPath(k, page), open, links)[i].active <==> links[i].href == page
  {
    var p := BrandPath(k, page);
    BrandPathSegment(k, page);
    var href := links[i].href;
    assert LinkPath(p, href) == ("/" + KeyName(k) + "/") + href;
    assert p == ("/" + KeyName(k) + "/") + page;
    if LinkPath(p, href) == p {
      PrefixCancel("/" + KeyName(k) + "/", href, page);
    }
  }

  /** On a brand's page the sidebar shows that brand's own links. */
  lemma BrandPageMenu(k: SiteKey, page: string, open: bool)
    requires '/' !in page
    ensures SidebarSite(BrandPath(k, page)) == Own(k)
    ensures Items(BrandPath(k, page), open) == Some(RenderItems(BrandPath(k, page), open, Sites(k).navLinks))
  {
    BrandPathSegment(k, page);
  }

  /** Under a segment such as `constructor` or `__proto__` the lookup yields a
      built-in, `||` keeps it, and rendering the menu throws. */
  lemma InheritedSegmentMenu(name: string, page: string, open: bool)
    requires name in InheritedNames && '/' !in page
    ensures SidebarSite("/" + name + "/" + page) == Inherited(name)
    ensures Items("/" + name + "/" + page, open) == None
  {
    InheritedNoSlash(name);
    SegmentOfPage(name, page);
  }

  /** Drawer width, `open ? 240 : 56`. */
  function DrawerWidth(open: bool): nat {
    if open then 240 else 56
  }

  /** The paper's top margin in pixels, `headerHeight || 64`. */
  function PaperMarginTop(c: SiteConfig): nat {
    NumOr(c.headerHeight, 64)
  }

  /** `sidebarColor || primaryColor`. */
  function SidebarBackground(c: SiteConfig): string {
    StrOr(c.sidebarColor, c.primaryColor)
  }

  /** For a registered brand the sidebar's own colour and header height are
      always used: neither fallback applies. */
  lemma SidebarDefaultsUnused(k: SiteKey)
    ensures SidebarBackground(Sites(k)) == Sites(k).sidebarColor.value
    ensures PaperMarginTop(Sites(k)) == Sites(k).headerHeight.value
  {
    SitesWellFormed(k);
  }
}
