/**
 * The application shell (App.tsx): the effect that follows the location's
 * first segment into the theme, the static route table, and the sidebar
 * toggle that shifts the main column.
 */
module App {
  import opened Wrappers
  import opened Strings
  import opened SiteRegistry
  import opened Paths
  import opened ThemeContext
  import SidebarMenu
  import Header

  /** The site after the effect of `AppRoutes`: the first segment's brand
      when the segment is exactly one of the four keys, else unchanged. */
  function SyncedSite(pathname: string, current: SiteKey): (r: SiteKey)
    ensures forall k :: PathSegment(pathname) == Some(KeyName(k)) ==> r == k
    ensures (forall k :: PathSegment(pathname) != Some(KeyName(k))) ==> r == current
  {
    KeysAreExactlyFour("");
    match SegmentKey(pathname)
    case Some(k) => k
    case None => current
  }

  /** The effect keyed on `location.pathname`. */
  method SyncSite(theme: ThemeProvider, pathname: string)
    modifies theme, theme.body
    ensures theme.site == SyncedSite(pathname, old(theme.site))
    ensures theme.site != old(theme.site) ==>
      theme.body.classes == ThemedClasses(old(theme.body.classes), theme.site)
      && theme.body.style == ThemedStyle(old(theme.body.style), Sites(theme.site))
    ensures theme.site == old(theme.site) ==>
      theme.body.classes == old(theme.body.classes) && theme.body.style == old(theme.body.style)
  {
    var parts := Split(pathname, '/');
    if |parts| >= 2 {
      var path := parts[1];
      var key := ParseKey(path);
      if key.Some? {
        theme.SetSite(key.value);
      }
    }
  }

  /** The pages the routes render. */
  datatype Page =
    | SwHome | SwAbout | SwServices | WebDevelop | SwContact
    | GuideHome | GuideRequire | GuideFacilities | GuideAbout | GuideContact
    | Home | About | ItSupportPage | Contact
    | FlowHome | FlowServices | FlowAbout | FlowContact
    | Flow | AdmissionSupport

  /** What a route shows: a page, or a redirect to another path. */
  datatype Element = Show(page: Page) | Redirect(to: string)

  datatype Route = Route(path: string, element: Element)

  /** The page segments the table uses after `/<brand>`; `Bare` stands for
      the bare `/<brand>` route. */
  datatype Seg = HomeSeg | AboutSeg | ServicesSeg | WebDevelopSeg | FacilitiesSeg | ContactSeg | RequireSeg | Bare

  function SegName(s: Seg): string {
    match s
    case HomeSeg => "home"
    case AboutSeg => "about"
    case ServicesSeg => "services"
    case WebDevelopSeg => "webdevelop"
    case FacilitiesSeg => "facilities"
    case ContactSeg => "contact"
    case RequireSeg => "require"
    case Bare => ""
  }

  function ParseSeg(name: string): Option<Seg> {
    if name == "home" then Some(HomeSeg)
    else if name == "about" then Some(AboutSeg)
    else if name == "services" then Some(ServicesSeg)
    else if name == "webdevelop" then Some(WebDevelopSeg)
    else if name == "facilities" then Some(FacilitiesSeg)
    else if name == "contact" then Some(ContactSeg)
    else if name == "require" then Some(RequireSeg)
    else if name == "" then Some(Bare)
    else None
  }

  /** Segment names are distinct, '/'-free, and empty only for `Bare`. */
  lemma SegNames()
    ensures forall a :: ParseSeg(SegName(a)) == Some(a)
    ensures forall a, b :: SegName(a) == SegName(b) ==> a == b
    ensures forall a :: '/' !in SegName(a) && (SegName(a) == "" <==> a == Bare)
  {
    forall a ensures ParseSeg(SegName(a)) == Some(a) && '/' !in SegName(a) && (SegName(a) == "" <==> a == Bare) {
      match a
      case HomeSeg =>
      case AboutSeg =>
      case ServicesSeg =>
      case WebDevelopSeg =>
      case FacilitiesSeg =>
      case ContactSeg =>
      case RequireSeg =>
      case Bare =>
    }
  }

  /** A brand route: its brand, its page segment and the page it shows. */
  datatype BrandRoute = BrandRoute(brand: SiteKey, seg: Seg, shows: Page)

  /** The key a route is matched on. */
  function Key(b: BrandRoute): (SiteKey, Seg) {
    (b.brand, b.seg)
  }

  /** Every route of `rs` belongs to brand `k` and has a non-bare segment
      from `pages`, and no segment appears twice. */
  predicate BlockOf(rs: seq<BrandRoute>, k: SiteKey, pages: set<Seg>) {
    && (forall i :: 0 <= i < |rs| ==> rs[i].brand == k && rs[i].seg in pages && rs[i].seg != Bare)
    && (forall i, j :: 0 <= i < j < |rs| ==> rs[i].seg != rs[j].seg)
  }

  predicate HasBrand(rs: seq<BrandRoute>, k: SiteKey) {
    exists i :: 0 <= i < |rs| && rs[i].brand == k
  }

  predicate HasPage(rs: seq<BrandRoute>, seg: Seg) {
    exists i :: 0 <= i < |rs| && rs[i].seg == seg
  }

  function SoftwareRoutes(): (rs: seq<BrandRoute>)
    ensures BlockOf(rs, Software, {HomeSeg, AboutSeg, ServicesSeg, WebDevelopSeg, FacilitiesSeg, ContactSeg})
    ensures HasPage(rs, HomeSeg) && HasPage(rs, ContactSeg)
  {
    var rs := [
      BrandRoute(Software, HomeSeg, SwHome),
      BrandRoute(Software, AboutSeg, SwAbout),
      BrandRoute(Software, ServicesSeg, SwServices),
      BrandRoute(Software, WebDevelopSeg, WebDevelop),
      BrandRoute(Software, FacilitiesSeg, SwServices),
      BrandRoute(Software, ContactSeg, SwContact)];
    assert rs[0].seg == HomeSeg && rs[5].seg == ContactSeg;
    rs
  }

  function GuidanceRoutes(): (rs: seq<BrandRoute>)
    ensures BlockOf(rs, Guidance, {HomeSeg, RequireSeg, FacilitiesSeg, AboutSeg, ContactSeg})
    ensures HasPage(rs, HomeSeg) && HasPage(rs, ContactSeg)
  {
    var rs := [
      BrandRoute(Guidance, HomeSeg, GuideHome),
      BrandRoute(Guidance, RequireSeg, GuideRequire),
      BrandRoute(Guidance, FacilitiesSeg, GuideFacilities),
      BrandRoute(Guidance, AboutSeg, GuideAbout),
      BrandRoute(Guidance, ContactSeg, GuideContact)];
    assert rs[0].seg == HomeSeg && rs[4].seg == ContactSeg;
    rs
  }

  function ItSupportRoutes(): (rs: seq<BrandRoute>)
    ensures BlockOf(rs, ItSupport, {HomeSeg, AboutSeg, ServicesSeg, ContactSeg})
    ensures HasPage(rs, HomeSeg) && HasPage(rs, ContactSeg)
  {
    var rs := [
      BrandRoute(ItSupport, HomeSeg, Home),
      BrandRoute(ItSupport, AboutSeg, About),
      BrandRoute(ItSupport, ServicesSeg, ItSupportPage),
      BrandRoute(ItSupport, ContactSeg, Contact)];
    assert rs[0].seg == HomeSeg && rs[3].seg == ContactSeg;
    rs
  }

  function FlowSupportRoutes(): (rs: seq<BrandRoute>)
    ensures BlockOf(rs, FlowSupport, {HomeSeg, ServicesSeg, AboutSeg, ContactSeg})
    ensures HasPage(rs, HomeSeg) && HasPage(rs, ContactSeg)
  {
    var rs := [
      BrandRoute(FlowSupport, HomeSeg, FlowHome),
      BrandRoute(FlowSupport, ServicesSeg, FlowServices),
      BrandRoute(FlowSupport, AboutSeg, FlowAbout),
      BrandRoute(FlowSupport, ContactSeg, FlowContact)];
    assert rs[0].seg == HomeSeg && rs[3].seg == ContactSeg;
    rs
  }

  /** The four bare `/<brand>` routes that close the table. */
  function BareRoutes(): (rs: seq<BrandRoute>)
    ensures forall i :: 0 <= i < |rs| ==> rs[i].seg == Bare
    ensures forall i, j :: 0 <= i < j < |rs| ==> rs[i].brand != rs[j].brand
    ensures HasBrand(rs, Software) && HasBrand(rs, Guidance) && HasBrand(rs, ItSupport) && HasBrand(rs, FlowSupport)
  {
    var rs := [
      BrandRoute(FlowSupport, Bare, Flow),
      BrandRoute(Guidance, Bare, AdmissionSupport),
      BrandRoute(ItSupport, Bare, ItSupportPage),
      BrandRoute(Software, Bare, SwHome)];
    assert rs[0].brand == FlowSupport && rs[1].brand == Guidance && rs[2].brand == ItSupport && rs[3].brand == Software;
    rs
  }

  /** The brand routes of the table, in declaration order. */
  function BrandRoutes(): seq<BrandRoute> {
    SoftwareRoutes() + GuidanceRoutes() + ItSupportRoutes() + FlowSupportRoutes() + BareRoutes()
  }

  predicate KeysDistinct(rs: seq<BrandRoute>) {
    forall i, j :: 0 <= i < j < |rs| ==> Key(rs[i]) != Key(rs[j])
  }

  predicate KeysDisjoint(a: seq<BrandRoute>, b: seq<BrandRoute>) {
    forall i, j :: 0 <= i < |a| && 0 <= j < |b| ==> Key(a[i]) != Key(b[j])
  }

  lemma ConcatDistinct(a: seq<BrandRoute>, b: seq<BrandRoute>)
    requires KeysDistinct(a) && KeysDistinct(b) && KeysDisjoint(a, b)
    ensures KeysDistinct(a + b)
  {
    var ab := a + b;
    forall i, j | 0 <= i < j < |ab| ensures Key(ab[i]) != Key(ab[j]) {
      if j < |a| {
      } else if i >= |a| {
        assert Key(b[i - |a|]) != Key(b[j - |a|]);
      } else {
        assert Key(a[i]) != Key(b[j - |a|]);
      }
    }
  }

  lemma ConcatDisjoint(a: seq<BrandRoute>, b: seq<BrandRoute>, c: seq<BrandRoute>)
    requires KeysDisjoint(a, c) && KeysDisjoint(b, c)
    ensures KeysDisjoint(a + b, c)
  {
    var ab := a + b;
    forall i, j | 0 <= i < |ab| && 0 <= j < |c| ensures Key(ab[i]) != Key(c[j]) {
      if i >= |a| {
        assert Key(b[i - |a|]) != Key(c[j]);
      }
    }
  }

  lemma BlocksDisjoint(a: seq<BrandRoute>, ka: SiteKey, pa: set<Seg>, b: seq<BrandRoute>, kb: SiteKey, pb: set<Seg>)
    requires BlockOf(a, ka, pa) && BlockOf(b, kb, pb) && ka != kb
    ensures KeysDisjoint(a, b)
  {
  }

  lemma BlockBareDisjoint(a: seq<BrandRoute>, k: SiteKey, pages: set<Seg>)
    requires BlockOf(a, k, pages)
    ensures KeysDisjoint(a, BareRoutes()) && KeysDistinct(a)
  {
  }

  /** No brand/segment pair appears twice in the table. */
  lemma {:induction false} BrandRoutesDistinct()
    ensures KeysDistinct(BrandRoutes())
  {
    var sw, gu, it, fl, bare := SoftwareRoutes(), GuidanceRoutes(), ItSupportRoutes(), FlowSupportRoutes(), BareRoutes();
    var pSw, pGu, pIt, pFl :=
      {HomeSeg, AboutSeg, ServicesSeg, WebDevelopSeg, FacilitiesSeg, ContactSeg},
      {HomeSeg, RequireSeg, FacilitiesSeg, AboutSeg, ContactSeg},
      {HomeSeg, AboutSeg, ServicesSeg, ContactSeg},
      {HomeSeg, ServicesSeg, AboutSeg, ContactSeg};
    BlockBareDisjoint(sw, Software, pSw);
    BlockBareDisjoint(gu, Guidance, pGu);
    BlockBareDisjoint(it, ItSupport, pIt);
    BlockBareDisjoint(fl, FlowSupport, pFl);
    BlocksDisjoint(sw, Software, pSw, gu, Guidance, pGu);
    ConcatDistinct(sw, gu);
    BlocksDisjoint(sw, Software, pSw, it, ItSupport, pIt);
    BlocksDisjoint(gu, Guidance, pGu, it, ItSupport, pIt);
    ConcatDisjoint(sw, gu, it);
    ConcatDistinct(sw + gu, it);
    BlocksDisjoint(sw, Software, pSw, fl, FlowSupport, pFl);
    BlocksDisjoint(gu, Guidance, pGu, fl, FlowSupport, pFl);
    BlocksDisjoint(it, ItSupport, pIt, fl, FlowSupport, pFl);
    ConcatDisjoint(sw, gu, fl);
    ConcatDisjoint(sw + gu, it, fl);
    ConcatDistinct(sw + gu + it, fl);
    ConcatDisjoint(sw, gu, bare);
    ConcatDisjoint(sw + gu, it, bare);
    ConcatDisjoint(sw + gu + it, fl, bare);
    assert KeysDistinct(bare);
    ConcatDistinct(sw + gu + it + fl, bare);
  }

  /** Where each route of `BrandRoutes()` comes from. */
  lemma RouteOfBlock(i: int)
    requires 0 <= i < |BrandRoutes()|
    ensures var b := BrandRoutes()[i];
      var sw, gu, it, fl := SoftwareRoutes(), GuidanceRoutes(), ItSupportRoutes(), FlowSupportRoutes();
      && (i < |sw| ==> b == sw[i])
      && (|sw| <= i < |sw| + |gu| ==> b == gu[i - |sw|])
      && (|sw| + |gu| <= i < |sw| + |gu| + |it| ==> b == it[i - |sw| - |gu|])
      && (|sw| + |gu| + |it| <= i < |sw| + |gu| + |it| + |fl| ==> b == fl[i - |sw| - |gu| - |it|])
      && (|sw| + |gu| + |it| + |fl| <= i ==> b == BareRoutes()[i - |sw| - |gu| - |it| - |fl|])
  {
  }

  function ToRoute(b: BrandRoute): Route {
    Route(BrandPath(b.brand, SegName(b.seg)), Show(b.shows))
  }

  /** The table: the root redirect followed by the brand routes. */
  function Routes(): (rs: seq<Route>)
    ensures |rs| == |BrandRoutes()| + 1
    ensures forall i :: 1 <= i < |rs| ==> rs[i] == ToRoute(BrandRoutes()[i - 1])
  {
    var brs := BrandRoutes();
    [Route("/", Redirect(BrandPath(Software, "home")))] + seq(|brs|, i requires 0 <= i < |brs| => ToRoute(brs[i]))
  }

  /** The table has 24 routes and the root path redirects to `/software/home`. */
  lemma RootRoute()
    ensures |Routes()| == 24
    ensures Routes()[0] == Route("/", Redirect("/software/home"))
  {
    assert BrandPath(Software, "home") == "/software/home";
  }

  /** Every path but the root's starts with '/' and one of the four brand
      keys, which is its first segment. */
  lemma RoutesShape()
    ensures forall i :: 1 <= i < |Routes()| ==> SegmentKey(Routes()[i].path).Some?
    ensures forall i :: 1 <= i < |Routes()| ==>
      exists k :: Routes()[i].path == "/" + KeyName(k) || StartsWith(Routes()[i].path, "/" + KeyName(k) + "/")
  {
    var rs := Routes();
    var brs := BrandRoutes();
    forall i | 1 <= i < |rs|
      ensures SegmentKey(rs[i].path).Some?
      ensures exists k :: rs[i].path == "/" + KeyName(k) || StartsWith(rs[i].path, "/" + KeyName(k) + "/")
    {
      RouteShape(brs[i - 1]);
    }
  }

  /** The shape of one brand route's path. */
  lemma RouteShape(b: BrandRoute)
    ensures SegmentKey(ToRoute(b).path).Some?
    ensures ToRoute(b).path == "/" + KeyName(b.brand) || StartsWith(ToRoute(b).path, "/" + KeyName(b.brand) + "/")
  {
    SegNames();
    var page := SegName(b.seg);
    BrandPathSegment(b.brand, page);
    var pre := "/" + KeyName(b.brand) + "/";
    if page != "" {
      assert ToRoute(b).path == pre + page;
      assert StartsWith(ToRoute(b).path, pre);
    }
  }

  /** Route paths are pairwise distinct. */
  lemma RoutePathsDistinct()
    ensures forall i, j :: 0 <= i < j < |Routes()| ==> Routes()[i].path != Routes()[j].path
  {
    var rs := Routes();
    var brs := BrandRoutes();
    BrandRoutesDistinct();
    SegNames();
    forall i, j | 0 <= i < j < |rs| ensures rs[i].path != rs[j].path {
      var b := brs[j - 1];
      KeyNameHasNoSlash(b.brand);
      if i == 0 {
        assert |rs[j].path| > 1;
      } else {
        var a := brs[i - 1];
        assert Key(a) != Key(b);
        BrandPathInjective(a.brand, SegName(a.seg), b.brand, SegName(b.seg));
      }
    }
  }

  /** A route path as React Router v6 takes it: it starts with '/', has no
      upper-case letter, and ends in '/' only when it is the root. */
  predicate RoutePattern(p: string) {
    && p != "" && p[0] == '/'
    && NoUpper(p)
    && (p[|p| - 1] == '/' ==> p == "/")
  }

  /** Whether a route path matches a location. React Router v6 turns a path
      into a regular expression anchored at both ends, with the `i` flag and
      a trailing repetition of '/': letters match whatever their case, and
      any number of trailing '/' is accepted. */
  predicate Matches(path: string, location: string) {
    && |path| <= |location|
    && Lower(location)[..|path|] == path
    && forall k :: |path| <= k < |location| ==> location[k] == '/'
  }

  lemma MatchesItself(p: string)
    requires NoUpper(p)
    ensures Matches(p, p)
  {
    NoUpperIsLower(p);
  }

  /** Two route paths that match the same location are the same path. */
  lemma MatchesSame(p: string, q: string, location: string)
    requires RoutePattern(p) && RoutePattern(q)
    requires Matches(p, location) && Matches(q, location)
    ensures p == q
  {
  }

  /** A location that does not end in '/' matches a path only when it is
      that path up to the case of its letters. */
  lemma MatchesExactly(p: string, location: string)
    requires Matches(p, location)
    requires location != "" && location[|location| - 1] != '/'
    ensures Lower(location) == p
  {
  }

  /** A brand path built from a lower-case, '/'-free page is a route path. */
  lemma BrandPathPattern(k: SiteKey, page: string)
    requires '/' !in page && NoUpper(page)
    ensures RoutePattern(BrandPath(k, page))
  {
    KeyNameNoUpper(k);
    KeyNameHasNoSlash(k);
    var p := BrandPath(k, page);
    if page == "" {
      assert p[|p| - 1] == KeyName(k)[|KeyName(k)| - 1];
    } else {
      assert p[|p| - 1] == page[|page| - 1];
    }
  }

  /** Every path of the table is a route path. */
  lemma RoutePatterns()
    ensures forall i :: 0 <= i < |Routes()| ==> RoutePattern(Routes()[i].path)
  {
    var rs := Routes();
    var brs := BrandRoutes();
    forall i | 0 <= i < |rs| ensures RoutePattern(rs[i].path) {
      if i > 0 {
        SegNames();
        SegNameNoUpper(brs[i - 1].seg);
        BrandPathPattern(brs[i - 1].brand, SegName(brs[i - 1].seg));
      }
    }
  }

  lemma SegNameNoUpper(s: Seg)
    ensures NoUpper(SegName(s))
  {
  }

  /** No location is matched by two routes of the table. */
  lemma MatchUnique(location: string)
    ensures forall i, j :: 0 <= i < j < |Routes()| ==>
      !(Matches(Routes()[i].path, location) && Matches(Routes()[j].path, location))
  {
    RoutePatterns();
    RoutePathsDistinct();
    forall i, j | 0 <= i < j < |Routes()| && Matches(Routes()[i].path, location)
      ensures !Matches(Routes()[j].path, location)
    {
      if Matches(Routes()[j].path, location) {
        MatchesSame(Routes()[i].path, Routes()[j].path, location);
      }
    }
  }

  /** The element rendered for a location: that of a route whose path
      matches it. At most one route of the table matches (`MatchUnique`), so
      taking the first one is the same as React Router's ranking. */
  function Lookup(routes: seq<Route>, location: string): (r: Option<Element>)
    ensures r.Some? ==> exists i :: 0 <= i < |routes| && Matches(routes[i].path, location) && routes[i].element == r.value
    ensures r.None? ==> forall i :: 0 <= i < |routes| ==> !Matches(routes[i].path, location)
  {
    if routes == [] then None
    else if Matches(routes[0].path, location) then Some(routes[0].element)
    else
      var r := Lookup(routes[1..], location);
      assert r.Some? ==> routes[1..][0].path == routes[1].path;
      r
  }

  /** A location matched by a route of the table renders that route's
      element, whatever the case of its letters and its trailing '/'s. */
  lemma LookupMatched(i: int, location: string)
    requires 0 <= i < |Routes()| && Matches(Routes()[i].path, location)
    ensures Lookup(Routes(), location) == Some(Routes()[i].element)
  {
    MatchUnique(location);
    LookupOnlyMatch(Routes(), i, location);
  }

  /** In a table where no two routes match the same location, a matching
      route is the one found. */
  lemma LookupOnlyMatch(routes: seq<Route>, i: int, location: string)
    requires 0 <= i < |routes| && Matches(routes[i].path, location)
    requires forall i, j :: 0 <= i < j < |routes| ==>
      !(Matches(routes[i].path, location) && Matches(routes[j].path, location))
    ensures Lookup(routes, location) == Some(routes[i].element)
  {
    var j :| 0 <= j < |routes| && Matches(routes[j].path, location) && routes[j].element == Lookup(routes, location).value;
    assert !(i < j) && !(j < i);
  }

  /** A brand route's path renders that route's page. */
  lemma FoundInTable(i: int)
    requires 0 <= i < |BrandRoutes()|
    ensures Lookup(Routes(), BrandPath(BrandRoutes()[i].brand, SegName(BrandRoutes()[i].seg))) == Some(Show(BrandRoutes()[i].shows))
  {
    var b := BrandRoutes()[i];
    var p := BrandPath(b.brand, SegName(b.seg));
    assert Routes()[i + 1] == Route(p, Show(b.shows));
    SegNames();
    SegNameNoUpper(b.seg);
    BrandPathPattern(b.brand, SegName(b.seg));
    MatchesItself(p);
    LookupMatched(i + 1, p);
  }

  /** Trailing '/'s do not change the page a route path renders. */
  lemma TrailingSlashes(i: int, slashes: string)
    requires 0 <= i < |Routes()|
    requires forall k :: 0 <= k < |slashes| ==> slashes[k] == '/'
    ensures Lookup(Routes(), Routes()[i].path + slashes) == Some(Routes()[i].element)
  {
    var p := Routes()[i].path;
    RoutePatterns();
    NoUpperIsLower(p);
    LowerConcat(p, slashes);
    assert Lower(p + slashes)[..|p|] == p;
    LookupMatched(i, p + slashes);
  }

  /** The route table ignores letter case, but the site effect and the
      header compare the first segment exactly. On a brand page whose
      segment spells the key in other case, such as `/Software/home`, the
      brand's page shows while the theme keeps its site and the header falls
      back to `itsupport`. */
  lemma CaseVariant(i: int, seg: string, current: SiteKey)
    requires 0 <= i < |BrandRoutes()| && BrandRoutes()[i].seg != Bare
    requires '/' !in seg && Lower(seg) == KeyName(BrandRoutes()[i].brand) && seg != KeyName(BrandRoutes()[i].brand)
    ensures var loc := "/" + seg + "/" + SegName(BrandRoutes()[i].seg);
      && Lookup(Routes(), loc) == Some(Show(BrandRoutes()[i].shows))
      && SyncedSite(loc, current) == current
      && Header.HeaderSite(loc) == Own(ItSupport)
  {
    var b := BrandRoutes()[i];
    var page := SegName(b.seg);
    var loc := "/" + seg + "/" + page;
    SegNames();
    SegNameNoUpper(b.seg);
    LowerSegmentPath(b.brand, seg, page);
    assert Routes()[i + 1].path == BrandPath(b.brand, page);
    LookupMatched(i + 1, loc);
    CaseVariantSegment(b.brand, seg, page, current);
  }

  /** Lower-casing `/<seg>/<page>` for a lower-case page gives the brand
      path of the key `seg` spells. */
  lemma LowerSegmentPath(k: SiteKey, seg: string, page: string)
    requires Lower(seg) == KeyName(k) && page != "" && NoUpper(page)
    ensures Lower("/" + seg + "/" + page) == BrandPath(k, page)
  {
    NoUpperIsLower(page);
    LowerConcat("/" + seg, "/" + page);
    LowerConcat("/", seg);
    LowerConcat("/", page);
    assert Lower("/") == "/";
  }

  /** A segment spelling a key in other case is neither a key nor an
      inherited name, so the effect and the header do not see a brand. */
  lemma CaseVariantSegment(k: SiteKey, seg: string, page: string, current: SiteKey)
    requires '/' !in seg && '/' !in page && Lower(seg) == KeyName(k) && seg != KeyName(k)
    ensures SyncedSite("/" + seg + "/" + page, current) == current
    ensures Header.HeaderSite("/" + seg + "/" + page) == Own(ItSupport)
  {
    SegmentOfPage(seg, page);
    forall k' ensures KeyName(k') != seg {
      KeyNameNoUpper(k');
      NoUpperIsLower(KeyName(k'));
    }
    if seg in InheritedNames {
      InheritedNotCaseOfKey(seg, k);
    }
    KeysAreExactlyFour(seg);
  }

  /** Where a brand's home, contact and bare routes sit in `BrandRoutes()`. */
  lemma BrandPagesAt(k: SiteKey) returns (h: int, c: int, b: int)
    ensures 0 <= h < |BrandRoutes()| && BrandRoutes()[h].brand == k && BrandRoutes()[h].seg == HomeSeg
    ensures 0 <= c < |BrandRoutes()| && BrandRoutes()[c].brand == k && BrandRoutes()[c].seg == ContactSeg
    ensures 0 <= b < |BrandRoutes()| && BrandRoutes()[b].brand == k && BrandRoutes()[b].seg == Bare
  {
    var brs := BrandRoutes();
    match k
    case Software => h, c, b := 0, 5, 22;
    case Guidance => h, c, b := 6, 10, 20;
    case ItSupport => h, c, b := 11, 14, 21;
    case FlowSupport => h, c, b := 15, 18, 19;
    RouteOfBlock(h);
    RouteOfBlock(c);
    RouteOfBlock(b);
  }

  /** Every brand has a home page, a contact page and a bare `/<brand>` route. */
  lemma EveryBrandHasHomeAndContact(k: SiteKey)
    ensures Lookup(Routes(), BrandPath(k, "home")).Some?
    ensures Lookup(Routes(), BrandPath(k, "contact")).Some?
    ensures Lookup(Routes(), BrandPath(k, "")).Some?
  {
    var h, c, b := BrandPagesAt(k);
    FoundInTable(h);
    FoundInTable(c);
    FoundInTable(b);
  }

  /** The four IT-support hrefs below are not segment names of the table. */
  lemma NotASegment(href: string)
    requires href in {"itservices", "swservices", "dataservices", "careers"}
    ensures forall s :: SegName(s) != href
  {
    SegNames();
    assert ParseSeg(href) == None;
  }

  lemma LowerCaseHref(href: string)
    requires href in {"itservices", "swservices", "dataservices", "careers"}
    ensures Lower(href) == href && href != "" && '/' !in href
  {
    assert NoUpper(href);
    NoUpperIsLower(href);
  }

  /** A page that, lower-cased, is no segment name of the table has no
      route under any brand. */
  lemma NoRouteForOtherPage(k: SiteKey, page: string)
    requires page != "" && '/' !in page
    requires forall s :: SegName(s) != Lower(page)
    ensures Lookup(Routes(), BrandPath(k, page)) == None
  {
    RootRoute();
    NoRouteIn(Routes(), BrandRoutes(), k, page);
  }

  /** The same over any table shaped like `Routes()`: a root entry, then
      one entry per brand route. */
  lemma NoRouteIn(rs: seq<Route>, brs: seq<BrandRoute>, k: SiteKey, page: string)
    requires page != "" && '/' !in page
    requires forall s :: SegName(s) != Lower(page)
    requires |rs| == |brs| + 1 && rs[0].path == "/"
    requires forall i :: 1 <= i < |rs| ==> rs[i] == ToRoute(brs[i - 1])
    ensures Lookup(rs, BrandPath(k, page)) == None
  {
    var loc := BrandPath(k, page);
    KeyNameHasNoSlash(k);
    LowerBrandPath(k, page);
    LowerKeepsSlashes(page);
    assert loc[|loc| - 1] == page[|page| - 1];
    forall i | 0 <= i < |rs| ensures !Matches(rs[i].path, loc) {
      if Matches(rs[i].path, loc) {
        MatchesExactly(rs[i].path, loc);
        if i > 0 {
          NotThatRoute(brs[i - 1], k, Lower(page));
        }
      }
    }
  }

  /** A brand route's path is not that of a page outside the segment
      names. */
  lemma NotThatRoute(b: BrandRoute, k: SiteKey, page: string)
    requires '/' !in page
    requires forall s :: SegName(s) != page
    ensures ToRoute(b).path != BrandPath(k, page)
  {
    SegNames();
    BrandPathInjective(b.brand, SegName(b.seg), k, page);
  }

  /** Four IT-support navigation links point at paths that have no route. */
  lemma ItSupportLinksWithoutRoute(href: string)
    requires href in {"itservices", "swservices", "dataservices", "careers"}
    ensures HasHref(ItSupportLinks(), href)
    ensures Lookup(Routes(), BrandPath(ItSupport, href)) == None
  {
    NotASegment(href);
    LowerCaseHref(href);
    NoRouteForOtherPage(ItSupport, href);
    ItSupportLinksListed();
  }

  lemma ItSupportLinksListed()
    ensures HasHref(ItSupportLinks(), "itservices") && HasHref(ItSupportLinks(), "swservices")
    ensures HasHref(ItSupportLinks(), "dataservices") && HasHref(ItSupportLinks(), "careers")
  {
    var links := ItSupportLinks();
    assert links[1].href == "itservices" && links[2].href == "swservices";
    assert links[3].href == "dataservices" && links[5].href == "careers";
  }

  /** The main column's left margin, `isSidebarOpen ? 250 : 56` pixels. */
  function MainMargin(open: bool): nat {
    if open then 250 else 56
  }

  /** The main column never sits under the drawer: its margin is at least the
      drawer's width in both states. */
  lemma MarginClearsDrawer(open: bool)
    ensures MainMargin(open) >= SidebarMenu.DrawerWidth(open)
    ensures MainMargin(open) == SidebarMenu.DrawerWidth(open) + (if open then 10 else 0)
  {
  }

  /** The `App` component's state. */
  class AppShell {
    var isSidebarOpen: bool

    constructor ()
      ensures !isSidebarOpen
    {
      isSidebarOpen := false;
    }

    /** `handleSidebarToggle`. */
    method HandleSidebarToggle()
      modifies this
      ensures isSidebarOpen == !old(isSidebarOpen)
      ensures MainMargin(isSidebarOpen) == (if old(isSidebarOpen) then 56 else 250)
    {
      isSidebarOpen := !isSidebarOpen;
    }
  }
}
