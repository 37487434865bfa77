/**
 * The dashboard shell (app/components/dashboard-layout.tsx): the navigation
 * items, which of them is highlighted for the current path, and the name and
 * role shown for the signed-in user. Icons and styling are presentation.
 */
module DashboardLayout {
  import opened Wrappers
  import Http

  datatype NavItem = NavItem(title: string, href: string, description: string)

  const DASHBOARD: string := "/dashboard"

  /** The path of a dashboard sub-page. */
  function Page(name: string): string {
    DASHBOARD + "/" + name
  }

  /** The last segment of each sub-page; none holds a "/". */
  const PAGES: seq<string> := ["api-keys", "workflow", "gmail-accounts", "email-processing", "analytics", "system-config", "maintenance"]

  /** `navigationItems`, in menu order. */
  const NAV_ITEMS: seq<NavItem> := [
    NavItem("Dashboard", DASHBOARD, "System overview and real-time monitoring"),
    NavItem("API Keys", Page(PAGES[0]), "Manage API keys for integrations"),
    NavItem("Workflow Control", Page(PAGES[1]), "Control Abacus.AI workflow execution"),
    NavItem("Gmail Accounts", Page(PAGES[2]), "Manage connected Gmail accounts"),
    NavItem("Email Processing", Page(PAGES[3]), "View processed emails and classifications"),
    NavItem("Analytics", Page(PAGES[4]), "Performance metrics and reporting"),
    NavItem("System Config", Page(PAGES[5]), "Configure system settings and preferences"),
    NavItem("Maintenance", Page(PAGES[6]), "System health, logs, and maintenance")
  ]

  /** Every item but the first links to a sub-page named in `PAGES`. */
  lemma NavItemHrefs(i: int)
    requires 0 <= i < |NAV_ITEMS|
    ensures i == 0 ==> NAV_ITEMS[i].href == DASHBOARD
    ensures i > 0 ==> NAV_ITEMS[i].href == Page(PAGES[i - 1])
  {
  }

  predicate NoSlash(s: string) {
    forall k :: 0 <= k < |s| ==> s[k] != '/'
  }

  lemma PagesHaveNoSlash(j: int)
    requires 0 <= j < |PAGES|
    ensures NoSlash(PAGES[j]) && PAGES[j] != ""
  {
  }

  /** `pathname === item.href || pathname?.startsWith(item.href + '/')`. */
  predicate IsActive(pathname: Option<string>, href: string) {
    pathname.Some? && (pathname.value == href || href + "/" <= pathname.value)
  }

  /** Character by character: the path is the href, or the href followed by a "/" and anything. */
  lemma IsActiveIff(path: string, href: string)
    ensures IsActive(Some(path), href) <==>
      path == href || (|href| < |path| && path[..|href|] == href && path[|href|] == '/')
  {
    if |href| < |path| && path[..|href|] == href && path[|href|] == '/' {
      assert path[..|href| + 1] == href + "/";
    }
  }

  /** Without a pathname nothing is highlighted. */
  lemma NoPathNoActive(href: string)
    ensures !IsActive(None, href)
  {
  }

  /** A path that only shares characters with the href, with no "/" after them, is not under it. */
  lemma NoBoundaryNotActive(path: string, href: string)
    requires |href| < |path| && path[..|href|] == href && path[|href|] != '/'
    ensures !IsActive(Some(path), href)
  {
    IsActiveIff(path, href);
  }

  /** "/dashboardx" does not highlight the Dashboard item. */
  lemma DashboardXNotActive()
    ensures !IsActive(Some(DASHBOARD + "x"), DASHBOARD)
  {
    var path := DASHBOARD + "x";
    assert path[..|DASHBOARD|] == DASHBOARD;
    NoBoundaryNotActive(path, DASHBOARD);
  }

  /** Whatever item is highlighted, the Dashboard item is highlighted too. */
  lemma DashboardAlwaysActive(pathname: Option<string>, i: int)
    requires 0 <= i < |NAV_ITEMS| && IsActive(pathname, NAV_ITEMS[i].href)
    ensures IsActive(pathname, DASHBOARD)
  {
    NavItemHrefs(i);
    if i > 0 {
      var p := pathname.value;
      var name := PAGES[i - 1];
      assert DASHBOARD + "/" <= Page(name) <= Page(name) + "/";
    }
  }

  /** So on a sub-page two items are highlighted at once. */
  lemma SubPageHighlightsTwo(i: int)
    requires 0 < i < |NAV_ITEMS|
    ensures IsActive(Some(NAV_ITEMS[i].href), NAV_ITEMS[i].href)
    ensures IsActive(Some(NAV_ITEMS[i].href), NAV_ITEMS[0].href)
  {
    DashboardAlwaysActive(Some(NAV_ITEMS[i].href), i);
  }

  /** A segment without "/" that a path falls under runs up to the path's next "/" or its end. */
  lemma SegmentRunsToSlash(rest: string, x: string)
    requires NoSlash(x)
    requires rest == x || x + "/" <= rest
    ensures x == rest[..|x|]
    ensures |x| == |rest| || rest[|x|] == '/'
    ensures forall k :: 0 <= k < |x| ==> rest[k] != '/'
  {
    if rest != x {
      assert rest[..|x|] == (x + "/")[..|x|] == x;
    }
  }

  /** Two sub-page segments without "/" that a path both falls under are the same segment. */
  lemma SegmentUnique(rest: string, x: string, y: string)
    requires NoSlash(x) && NoSlash(y)
    requires rest == x || x + "/" <= rest
    requires rest == y || y + "/" <= rest
    ensures x == y
  {
    SegmentRunsToSlash(rest, x);
    SegmentRunsToSlash(rest, y);
  }

  /** A path at or under a sub-page continues, after "/dashboard/", at or under its segment. */
  lemma UnderPage(p: string, x: string)
    requires p == Page(x) || Page(x) + "/" <= p
    ensures |DASHBOARD + "/"| <= |p|
    ensures p[|DASHBOARD + "/"|..] == x || x + "/" <= p[|DASHBOARD + "/"|..]
  {
    var d := DASHBOARD + "/";
    assert Page(x) == d + x;
    if p != Page(x) {
      assert Page(x) + "/" == d + (x + "/");
      assert p[|d|..][..|x| + 1] == p[|d|..|d| + |x| + 1] == x + "/";
    }
  }

  /** Besides the Dashboard item, at most one item is highlighted. */
  lemma AtMostOneSubPageActive(pathname: Option<string>, i: int, j: int)
    requires 0 < i < |NAV_ITEMS| && 0 < j < |NAV_ITEMS|
    requires IsActive(pathname, NAV_ITEMS[i].href) && IsActive(pathname, NAV_ITEMS[j].href)
    ensures i == j
  {
    NavItemHrefs(i);
    NavItemHrefs(j);
    var x, y := PAGES[i - 1], PAGES[j - 1];
    PagesHaveNoSlash(i - 1);
    PagesHaveNoSlash(j - 1);
    UnderPage(pathname.value, x);
    UnderPage(pathname.value, y);
    SegmentUnique(pathname.value[|DASHBOARD + "/"|..], x, y);
    assert x == y;
  }

  /** `session?.user?.name || session?.user?.email || 'User'`. */
  function DisplayName(name: Option<string>, email: Option<string>): (shown: string)
    ensures shown != ""
    ensures Http.Truthy(name) ==> shown == name.value
    ensures !Http.Truthy(name) && Http.Truthy(email) ==> shown == email.value
    ensures !Http.Truthy(name) && !Http.Truthy(email) ==> shown == "User"
  {
    if Http.Truthy(name) then name.value else if Http.Truthy(email) then email.value else "User"
  }

  /** `session?.user?.role || 'Admin'`. */
  function RoleLabel(role: Option<string>): (shown: string)
    ensures shown != ""
    ensures Http.Truthy(role) ==> shown == role.value
    ensures !Http.Truthy(role) ==> shown == "Admin"
  {
    if Http.Truthy(role) then role.value else "Admin"
  }
}
