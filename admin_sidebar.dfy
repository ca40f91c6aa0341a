/**
 * The admin navigation: which entry is highlighted for the current path,
 * and when an unauthenticated visitor is sent to the login page.
 */
module AdminSidebar {
  import opened Wrappers
  import opened Js

  /** A navigation entry; `exact` entries match only their own path. */
  datatype NavItem = NavItem(href: string, caption: string, exact: bool)

  const LoginPath := "/admin/login"

  const NavItems: seq<NavItem> := [
    NavItem("/admin", "Dashboard", true),
    NavItem("/admin/categories", "Categories", false),
    NavItem("/admin/products", "Products", false),
    NavItem("/admin/orders", "Orders", false),
    NavItem("/admin/pincodes", "Pincodes", false),
    NavItem("/admin/dealers", "Dealers", false)
  ]

  /** `isActive`: the path equals an exact entry's href, or starts with any other entry's href. */
  function IsActive(pathname: string, item: NavItem): (r: bool)
    ensures item.exact ==> (r <==> pathname == item.href)
    ensures !item.exact ==> (r <==> |item.href| <= |pathname| && pathname[..|item.href|] == item.href)
  {
    if item.exact then pathname == item.href else StartsWith(pathname, item.href)
  }

  /** Only the Dashboard entry is exact. */
  lemma OnlyDashboardIsExact()
    ensures forall k :: 0 <= k < |NavItems| ==> (NavItems[k].exact <==> k == 0)
  {
  }

  /** A non-exact entry is highlighted on its own page and on every page below it. */
  lemma SectionHighlightsSubpages(k: nat, rest: string)
    requires 0 < k < |NavItems|
    ensures IsActive(NavItems[k].href + rest, NavItems[k])
  {
    assert (NavItems[k].href + rest)[..|NavItems[k].href|] == NavItems[k].href;
  }

  /** The Dashboard is highlighted on `/admin` only, never on a section page such as `/admin/orders`. */
  lemma DashboardOnlyOnItsOwnPath(pathname: string)
    ensures IsActive(pathname, NavItems[0]) <==> pathname == "/admin"
  {
  }

  /** The sidebar's effect: an unauthenticated visitor anywhere but the login page is sent to it. */
  function RedirectTarget(unauthenticated: bool, pathname: string): (r: Option<string>)
    ensures r.Some? <==> unauthenticated && pathname != LoginPath
    ensures r.Some? ==> r.value == LoginPath
  {
    if unauthenticated && pathname != LoginPath then Some(LoginPath) else None
  }
}
