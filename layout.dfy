/**
 * The application shell (components/Layout.tsx): the navigation list for the
 * current role, which entry is highlighted, the role-switch button's caption,
 * and the mobile sidebar's open flag.
 */
module Layout {
  import opened Types
  import opened Constants
  import opened UserContext

  /** `[...NAV_ITEMS[role], ...NAV_ITEMS.COMMON]`. */
  function NavItems(role: Role): (r: seq<NavItem>)
    ensures r == RoleNavItems(role) + CommonNavItems
    ensures |r| == (if role == Investor then 5 else 3)
    ensures r[|r| - 1] == NavItem("Messages", "/messages")
  {
    RoleNavItems(role) + CommonNavItems
  }

  /** A link is highlighted exactly when the current path equals its path. */
  predicate IsActive(pathname: string, item: NavItem)
  {
    pathname == item.path
  }

  /** The navigation paths of a role are pairwise distinct, so at most one link is highlighted. */
  lemma AtMostOneActive(role: Role, pathname: string, i: nat, j: nat)
    requires i < j < |NavItems(role)|
    ensures !(IsActive(pathname, NavItems(role)[i]) && IsActive(pathname, NavItems(role)[j]))
  {
  }

  /** The role's name as the switch button shows it. */
  function DisplayName(role: Role): string
  {
    match role
    case Investor => "Investor"
    case Founder => "Founder"
  }

  /** `Switch to {...}`: the caption names the role the button switches to. */
  function SwitchLabel(role: Role): (s: string)
    ensures s == DisplayName(Switched(role))
    ensures s != DisplayName(role)
  {
    if role == Investor then "Founder" else "Investor"
  }

  /** The sidebar's state. */
  class LayoutView {
    var isSidebarOpen: bool

    constructor ()
      ensures !isSidebarOpen
    {
      isSidebarOpen := false;
    }

    /** The menu button. */
    method ToggleMenu()
      modifies this
      ensures isSidebarOpen == !old(isSidebarOpen)
    {
      isSidebarOpen := !isSidebarOpen;
    }

    /** A navigation link, or the overlay that is shown while the sidebar is open. */
    method CloseSidebar()
      modifies this
      ensures !isSidebarOpen
    {
      isSidebarOpen := false;
    }
  }
}
