/**
 * What the frontend reads from `location.pathname`: the piece after the first
 * '/', `pathname.split('/')[1]`, which App.tsx, Header.tsx and SidebarMenu.tsx
 * each use to pick a brand, and the `/<brand>/<page>` paths of the route table.
 */
module Paths {
  import opened Wrappers
  import opened Strings
  import opened SiteRegistry

  /** `pathname.split('/')[1]`; `None` is JavaScript's `undefined`, which is
      what a pathname without any '/' gives. */
  function PathSegment(pathname: string): (r: Option<string>)
    ensures r.Some? <==> '/' in pathname
    ensures r.Some? ==> '/' !in r.value
  {
    var parts := Split(pathname, '/');
    if |parts| >= 2 then Some(parts[1]) else None
  }

  /** The brand whose key is exactly the first segment, if any. */
  function SegmentKey(pathname: string): (r: Option<SiteKey>)
    ensures r.Some? <==> exists k :: PathSegment(pathname) == Some(KeyName(k))
    ensures r.Some? ==> PathSegment(pathname) == Some(KeyName(r.value))
  {
    match PathSegment(pathname)
    case None => None
    case Some(seg) => ParseKey(seg)
  }

  /** The properties every object literal inherits from `Object.prototype`.
      Indexing `sites` with one of them yields a built-in function or object,
      which is truthy, instead of `undefined`. */
  const InheritedNames: set<string> := {
    "constructor", "hasOwnProperty", "isPrototypeOf", "propertyIsEnumerable",
    "toLocaleString", "toString", "valueOf", "__proto__",
    "__defineGetter__", "__defineSetter__", "__lookupGetter__", "__lookupSetter__"}

  lemma KeysNotInherited(k: SiteKey)
    ensures KeyName(k) !in InheritedNames
  {
    match k
    case Software =>
    case Guidance =>
    case ItSupport =>
    case FlowSupport =>
  }

  lemma InheritedNoSlash(name: string)
    requires name in InheritedNames
    ensures '/' !in name && name != ""
  {
  }

  /** No inherited name spells a brand key in other letter case. */
  lemma InheritedNotCaseOfKey(name: string, k: SiteKey)
    requires name in InheritedNames
    ensures Lower(name) != KeyName(k)
  {
    if |name| == |KeyName(k)| {
      assert Lower(name)[0] == LowerChar(name[0]);
    }
  }

  /** What `sites[x]` evaluates to: a brand's own configuration, an inherited
      built-in, or `undefined`. */
  datatype Indexed = Own(key: SiteKey) | Inherited(name: string) | Undefined

  /** `sites[pathname.split('/')[1]]`. A pathname without '/' indexes with
      `undefined`, that is with the text "undefined", which is no property. */
  function IndexSites(pathname: string): (r: Indexed)
    ensures r.Own? <==> exists k :: PathSegment(pathname) == Some(KeyName(k))
    ensures r.Own? ==> PathSegment(pathname) == Some(KeyName(r.key))
    ensures r.Inherited? <==> PathSegment(pathname).Some? && PathSegment(pathname).value in InheritedNames
    ensures r.Inherited? ==> PathSegment(pathname) == Some(r.name)
  {
    match PathSegment(pathname)
    case None => Undefined
    case Some(seg) =>
      match ParseKey(seg)
      case Some(k) => KeysNotInherited(k); Own(k)
      case None => if seg in InheritedNames then Inherited(seg) else Undefined
  }

  /** `sites[path] || sites[d]`: only `undefined` is falsy, so an inherited
      built-in survives the fallback. */
  function OrSite(i: Indexed, d: SiteKey): Indexed {
    if i.Undefined? then Own(d) else i
  }

  /** The segment of a path built from '/'-free pieces is its second piece. */
  lemma PathSegmentOfJoin(parts: seq<string>)
    requires |parts| >= 2
    requires forall k :: 0 <= k < |parts| ==> '/' !in parts[k]
    ensures PathSegment(Join(parts, '/')) == Some(parts[1])
  {
    SplitJoin(parts, '/');
  }

  /** The first segment of `/<seg>/<page>` is `seg`. */
  lemma SegmentOfPage(seg: string, page: string)
    requires '/' !in seg && '/' !in page
    ensures PathSegment("/" + seg + "/" + page) == Some(seg)
  {
    var parts := ["", seg, page];
    assert parts[1..] == [seg, page];
    assert Join(parts[1..], '/') == seg + "/" + page;
    assert Join(parts, '/') == "" + "/" + (seg + "/" + page);
    assert "/" + seg + "/" + page == Join(parts, '/');
    PathSegmentOfJoin(parts);
  }

  lemma KeyNameHasNoSlash(k: SiteKey)
    ensures '/' !in KeyName(k) && KeyName(k) != ""
  {
    match k
    case Software =>
    case Guidance =>
    case ItSupport =>
    case FlowSupport =>
  }

  /** `/<brand>` for an empty page, else `/<brand>/<page>`. */
  function BrandPath(k: SiteKey, page: string): string {
    "/" + KeyName(k) + (if page == "" then "" else "/" + page)
  }

  lemma KeyNameNoUpper(k: SiteKey)
    ensures NoUpper(KeyName(k))
  {
    match k
    case Software =>
    case Guidance =>
    case ItSupport =>
    case FlowSupport =>
  }

  /** Lower-casing a brand path lower-cases its page and nothing else. */
  lemma LowerBrandPath(k: SiteKey, page: string)
    ensures Lower(BrandPath(k, page)) == BrandPath(k, Lower(page))
  {
    KeyNameNoUpper(k);
    var pre := "/" + KeyName(k);
    NoUpperIsLower(pre);
    if page == "" {
      assert BrandPath(k, page) == pre;
    } else {
      assert BrandPath(k, page) == pre + ("/" + page);
      LowerConcat(pre, "/" + page);
      LowerConcat("/", page);
      assert Lower("/") == "/";
      assert BrandPath(k, Lower(page)) == pre + ("/" + Lower(page));
    }
  }

  /** The pieces `BrandPath` is made of. */
  function BrandParts(k: SiteKey, page: string): seq<string> {
    if page == "" then ["", KeyName(k)] else ["", KeyName(k), page]
  }

  lemma BrandPathJoin(k: SiteKey, page: string)
    ensures BrandPath(k, page) == Join(BrandParts(k, page), '/')
  {
    var parts := BrandParts(k, page);
    if page == "" {
      assert Join(parts, '/') == "" + "/" + KeyName(k);
    } else {
      assert parts[1..] == [KeyName(k), page];
      assert Join(parts[1..], '/') == KeyName(k) + "/" + page;
      assert Join(parts, '/') == "" + "/" + (KeyName(k) + "/" + page);
    }
  }

  /** The first segment of `/<brand>/<page>` is exactly the brand's key. */
  lemma BrandPathSegment(k: SiteKey, page: string)
    requires '/' !in page
    ensures PathSegment(BrandPath(k, page)) == Some(KeyName(k))
    ensures SegmentKey(BrandPath(k, page)) == Some(k)
  {
    KeyNameHasNoSlash(k);
    BrandPathJoin(k, page);
    PathSegmentOfJoin(BrandParts(k, page));
    KeysAreExactlyFour(KeyName(k));
  }

  /** Splitting a brand path at '/' gives back its pieces. */
  lemma BrandPathSplit(k: SiteKey, page: string)
    requires '/' !in page
    ensures Split(BrandPath(k, page), '/') == BrandParts(k, page)
  {
    KeyNameHasNoSlash(k);
    BrandPathJoin(k, page);
    SplitJoin(BrandParts(k, page), '/');
  }

  /** The pieces determine the brand and the page. */
  lemma BrandPartsInjective(k1: SiteKey, p1: string, k2: SiteKey, p2: string)
    requires BrandParts(k1, p1) == BrandParts(k2, p2)
    ensures k1 == k2 && p1 == p2
  {
    KeysAreExactlyFour(KeyName(k1));
  }

  /** Distinct brand/page pairs give distinct paths. */
  lemma BrandPathInjective(k1: SiteKey, p1: string, k2: SiteKey, p2: string)
    requires '/' !in p1 && '/' !in p2
    ensures BrandPath(k1, p1) == BrandPath(k2, p2) <==> k1 == k2 && p1 == p2
  {
    if BrandPath(k1, p1) == BrandPath(k2, p2) {
      BrandPathSplit(k1, p1);
      BrandPathSplit(k2, p2);
      BrandPartsInjective(k1, p1, k2, p2);
    }
  }
}
