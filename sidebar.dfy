/** Which navigation entry of `src/components/layout/sidebar.tsx` is highlighted for the
    current path. A main entry is active on its own path and, except for the dashboard
    home, on any path that starts with its href; a secondary entry only on its exact
    path. */
module Sidebar {

  datatype NavItem = NavItem(title: string, href: string)

  const DashboardHref: string := "/dashboard"

  /** `mainNavItems`. */
  const MainNavItems: seq<NavItem> := [
    NavItem("Dashboard", DashboardHref),
    NavItem("Staff", "/dashboard/staff"),
    NavItem("Pricing", "/dashboard/pricing"),
    NavItem("Clients", "/dashboard/clients"),
    NavItem("Schedule", "/dashboard/schedule")]

  /** `secondaryNavItems`. */
  const SecondaryNavItems: seq<NavItem> := [
    NavItem("Settings", "/dashboard/settings"),
    NavItem("Help & Support", "/dashboard/help")]

  /** The highlight rule for a main entry. */
  predicate MainActive(path: string, href: string) {
    path == href || (href != DashboardHref && href <= path)
  }

  /** The highlight rule for a secondary entry. */
  predicate SecondaryActive(path: string, href: string) {
    path == href
  }

  /** The dashboard home is highlighted only on its own path, not on its sub-pages. */
  lemma DashboardExact(path: string)
    ensures MainActive(path, DashboardHref) <==> path == DashboardHref
  {
  }

  /** A main section stays highlighted on every page below it. */
  lemma {:induction false} SectionCoversSubpages(i: int, rest: string)
    requires 1 <= i < |MainNavItems|
    ensures MainActive(MainNavItems[i].href + rest, MainNavItems[i].href)
  {
    var href := MainNavItems[i].href;
    assert (href + rest)[..|href|] == href;
  }

  /** Two prefixes of the same string are prefixes of each other. */
  lemma PrefixesOfOnePath(a: string, b: string, p: string)
    ensures a <= p && b <= p ==> a <= b || b <= a
  {
    if a <= p && b <= p && |a| <= |b| {
      assert forall k :: 0 <= k < |a| ==> a[k] == p[k] == b[k];
    }
  }

  /** The hrefs of the four sections differ within their common length, so neither is
      a prefix of another. */
  lemma {:induction false} SectionHrefsIncomparable(i: int, j: int)
    requires 1 <= i < j < |MainNavItems|
    ensures var a := MainNavItems[i].href; var b := MainNavItems[j].href;
            !(a <= b) && !(b <= a)
  {
    var a := MainNavItems[i].href;
    var b := MainNavItems[j].href;
    assert a[11] != b[11] || a[12] != b[12];
  }

  /** At most one main entry is highlighted for any path. */
  lemma {:induction false} AtMostOneMainActive(path: string, i: int, j: int)
    requires 0 <= i < j < |MainNavItems|
    ensures !(MainActive(path, MainNavItems[i].href) && MainActive(path, MainNavItems[j].href))
  {
    PrefixesOfOnePath(MainNavItems[i].href, MainNavItems[j].href, path);
    if i != 0 {
      SectionHrefsIncomparable(i, j);
    }
  }

  /** The prefix rule is on characters, not on segments: a page whose path merely
      starts with a section's path highlights that section. */
  lemma StaffingHighlightsStaff()
    ensures MainActive("/dashboard/staffing", "/dashboard/staff")
  {
    assert "/dashboard/staffing"[..16] == "/dashboard/staff";
  }

  /** No secondary entry is highlighted below its own page. */
  lemma {:induction false} SecondaryExact(i: int, rest: string)
    requires 0 <= i < |SecondaryNavItems| && rest != ""
    ensures !SecondaryActive(SecondaryNavItems[i].href + rest, SecondaryNavItems[i].href)
  {
    assert |SecondaryNavItems[i].href + rest| > |SecondaryNavItems[i].href|;
  }
}
