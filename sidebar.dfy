/** The sidebar: the navigation table and the logout button. */
module Sidebar {

  import Storage
  import App

  datatype NavItem = NavItem(path: string, title: string)

  const NavItems: seq<NavItem> := [
    NavItem("/dashboard", "Dashboard"), NavItem("/users", "Users"),
    NavItem("/verification", "Verification"), NavItem("/business", "Business"),
    NavItem("/posts", "Posts"), NavItem("/communities", "Communities"),
    NavItem("/events", "Events"), NavItem("/locations", "Locations"),
    NavItem("/analytics", "Analytics"), NavItem("/advertising", "Advertising"),
    NavItem("/reports", "Reports"), NavItem("/settings", "Settings")]

  /** Twelve entries, no two with the same path, each leading to a
      declared page once signed in. */
  lemma NavTable()
    ensures |NavItems| == 12
    ensures forall i, j :: 0 <= i < j < |NavItems| ==> NavItems[i].path != NavItems[j].path
    ensures forall i :: 0 <= i < |NavItems| ==> App.Resolve(NavItems[i].path, true) == App.Page(NavItems[i].path)
  {
    NavPathsArePagePaths();
    App.PagePathsDistinct();
    App.PagesResolve();
  }

  /** The sidebar lists the declared pages in their order. */
  lemma NavPathsArePagePaths()
    ensures |NavItems| == |App.PagePaths|
    ensures forall i :: 0 <= i < |NavItems| ==> NavItems[i].path == App.PagePaths[i]
  {
  }

  /** `handleLogout`: removes the flag and nothing else. */
  method Logout(storage: Storage.LocalStorage)
    modifies storage
    ensures storage.items == old(storage.items) - {Storage.AuthFlagKey}
    ensures !App.IsAuthenticated(storage.items)
  {
    storage.RemoveItem(Storage.AuthFlagKey);
  }

  /** After logout the token is still stored, yet there is no session. */
  lemma LogoutKeepsToken(items: map<string, string>)
    ensures var after := items - {Storage.AuthFlagKey};
      (Storage.TokenKey in items ==> Storage.TokenKey in after && after[Storage.TokenKey] == items[Storage.TokenKey])
      && !App.IsAuthenticated(after)
  {
  }
}
