/** The navigation bar of the page header (src/components/layout/Header.tsx):
    which item is highlighted for the current path. */
module HeaderNav {
  import opened Js
  import SessionMiddleware

  datatype NavItem = NavItem(href: string, labelText: string)

  const NAV_ITEMS: seq<NavItem> := [
    NavItem("/", "Dashboard"),
    NavItem("/requests", "Requests"),
    NavItem("/requesters", "Requesters")
  ]

  /** The dashboard item matches only "/" itself; the others match every
      path they are a prefix of. */
  predicate IsActive(item: NavItem, pathname: string)
  {
    if item.href == "/" then pathname == "/" else item.href <= pathname
  }

  function ActiveAt(pathname: string): NavItem -> bool
  {
    (item: NavItem) => IsActive(item, pathname)
  }

  /** The highlighted items, in bar order. */
  function ActiveItems(pathname: string): seq<NavItem>
  {
    Filter(NAV_ITEMS, ActiveAt(pathname))
  }

  /** "/requests" and "/requesters" differ at their ninth character, so no
      path starts with both. */
  lemma RequestsPrefixesExclusive(pathname: string)
    ensures "/requests" <= pathname ==> !("/requesters" <= pathname)
  {
    if "/requests" <= pathname {
      assert pathname[8] == 's' && "/requesters"[8] == 'e';
    }
  }

  /** Each item is highlighted exactly on its own paths, and never more
      than one item is. */
  lemma ActiveItemsIff(pathname: string)
    ensures IsActive(NAV_ITEMS[0], pathname) <==> pathname == "/"
    ensures IsActive(NAV_ITEMS[1], pathname) <==> "/requests" <= pathname
    ensures IsActive(NAV_ITEMS[2], pathname) <==> "/requesters" <= pathname
    ensures |ActiveItems(pathname)| <= 1
  {
    RequestsPrefixesExclusive(pathname);
    var p := ActiveAt(pathname);
    assert NAV_ITEMS == [NAV_ITEMS[0]] + [NAV_ITEMS[1]] + [NAV_ITEMS[2]];
    FilterAppend([NAV_ITEMS[0]] + [NAV_ITEMS[1]], [NAV_ITEMS[2]], p);
    FilterAppend([NAV_ITEMS[0]], [NAV_ITEMS[1]], p);
    if pathname == "/" {
      assert !p(NAV_ITEMS[1]) && !p(NAV_ITEMS[2]);
    }
  }

  /** The match is on the raw prefix, not on path segments: every path that
      continues "/requests" (such as "/requests-archive") highlights
      Requests, and one that stops short of it does not. */
  lemma RawPrefixMatch(suffix: string)
    ensures IsActive(NAV_ITEMS[1], "/requests" + suffix)
    ensures !IsActive(NAV_ITEMS[1], "/request")
  {
    var p := "/requests" + suffix;
    assert p[..9] == "/requests";
  }

  /** A highlighted item's page is one the middleware guards: the bar only
      ever highlights protected routes. */
  lemma ActiveImpliesProtected(item: NavItem, pathname: string)
    requires item in NAV_ITEMS && IsActive(item, pathname)
    ensures SessionMiddleware.IsProtectedRoute(pathname)
    ensures SessionMiddleware.IsProtectedRoute(item.href)
  {
  }
}
