/** The settings layout: the sidebar's navigation items, which one is active, and the redirect
    from the bare settings path. */
module SettingsNav {
  import opened Wrappers
  import opened Types

  datatype NavItem = NavItem(name: string, path: string, description: string)

  const SettingsPath := "/settings"
  const ProfilePath := "/settings/profile"

  const TestAccountItem :=
    NavItem("Test Account Settings", "/settings/test", "Change and check your test account settings")

  /** The six items every user sees, in sidebar order. */
  function FixedItems(): (items: seq<NavItem>)
    ensures |items| == 6 && items[0].name == "Profile" && items[0].path == ProfilePath
  {
    [ NavItem("Profile", ProfilePath, "Edit your public profile information"),
      NavItem("Notification Settings", "/settings/notifications", "Set your notification settings"),
      NavItem("Discord Integration", "/settings/discord", "Integrate with Discord"),
      NavItem("Help & Support", "/settings/help", "Get help and contact support"),
      NavItem("Delete Account", "/settings/delete", "Delete your account"),
      NavItem("Beta", "/settings/beta", "JobPulse in Beta") ]
  }

  /** `user?.isTestUser || false`. */
  predicate IsTestUser(user: Option<User>) {
    user.Some? && user.value.isTestUser == Some(true)
  }

  /** No two items share a path. */
  predicate DistinctPaths(items: seq<NavItem>) {
    forall i, j :: 0 <= i < j < |items| ==> items[i].path != items[j].path
  }

  /** An item is highlighted when the location's path is exactly its path. */
  predicate IsActive(item: NavItem, pathname: string) {
    pathname == item.path
  }

  /**
   * `navigationItems`: the six fixed items, with the test-account item pushed last for a test
   * user. Paths are distinct in both cases.
   */
  method NavigationItems(user: Option<User>) returns (items: seq<NavItem>)
    ensures !IsTestUser(user) ==> items == FixedItems()
    ensures IsTestUser(user) ==> |items| == 7 && items[..6] == FixedItems() && items[6] == TestAccountItem
    ensures items[0].name == "Profile"
    ensures DistinctPaths(items)
  {
    items := FixedItems();
    if IsTestUser(user) {
      items := items + [TestAccountItem];
    }
  }

  /** With distinct paths, at most one item is active for any location. */
  lemma AtMostOneActive(items: seq<NavItem>, pathname: string, i: nat, j: nat)
    requires DistinctPaths(items)
    requires i < |items| && j < |items|
    requires IsActive(items[i], pathname) && IsActive(items[j], pathname)
    ensures i == j
  {
  }

  /** The navigation the layout's effect performs for a location. */
  function Redirect(pathname: string): (target: Option<string>)
    ensures target.Some? <==> pathname == SettingsPath
    ensures target.Some? ==> target.value == ProfilePath
  {
    if pathname == SettingsPath then Some(ProfilePath) else None
  }

  /** After the redirect the Profile item is the active one and no further redirect follows. */
  lemma RedirectSettles(items: seq<NavItem>)
    requires |items| >= 6 && items[..6] == FixedItems()
    ensures IsActive(items[0], Redirect(SettingsPath).value)
    ensures Redirect(Redirect(SettingsPath).value) == None
  {
    assert items[0] == items[..6][0];
  }
}
