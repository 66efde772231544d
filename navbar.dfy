/** The top navigation bar: which of its two links is highlighted for the
    current path, and the profile dropdown's open flag. */
module Navbar {
  import opened Text
  import Routes

  datatype NavLink = NavLink(href: string, caption: string)

  const NavLinks: seq<NavLink> := [NavLink("/", "Home"), NavLink("/projects", "Projects")]

  /** The dropdown's menu items; following one closes the dropdown. */
  const MenuItems: seq<NavLink> := [NavLink("/settings", "Profile & Settings"), NavLink("/pricing", "Plan & Billing")]

  /** Whether the `i`-th navigation link is highlighted for `pathname`. */
  predicate LinkActive(i: nat, pathname: string)
    requires i < |NavLinks|
  {
    Routes.IsActive(NavLinks[i].href, pathname)
  }

  /** Home is highlighted on "/" and nowhere else; Projects on every path that
      starts with "/projects", as a string and not as a path segment. */
  lemma LinkActiveIff(pathname: string)
    ensures LinkActive(0, pathname) <==> pathname == "/"
    ensures LinkActive(1, pathname) <==> |pathname| >= 9 && pathname[..9] == "/projects"
  {
  }

  /** The prefix test is not segment-aware: a project page and an unrelated
      path that merely starts with the same letters both highlight Projects. */
  lemma ProjectsMatchesByStringPrefix()
    ensures LinkActive(1, "/projects/42") && LinkActive(1, "/projectsX")
    ensures !LinkActive(1, "/project")
  {
    assert "/projects/42"[..9] == "/projects";
    assert "/projectsX"[..9] == "/projects";
  }

  /** For any path at most one of the two links is highlighted. */
  lemma {:induction false} AtMostOneLinkActive(pathname: string)
    ensures !(LinkActive(0, pathname) && LinkActive(1, pathname))
  {
    if LinkActive(0, pathname) && LinkActive(1, pathname) {
      Routes.BothActiveMeansNested(NavLinks[0].href, NavLinks[1].href, pathname);
    }
  }

  /** The profile dropdown (`dropdownOpen`). */
  class ProfileDropdown {
    var open: bool

    /** The dropdown starts closed. */
    constructor ()
      ensures !open
    {
      open := false;
    }

    /** The profile button flips the dropdown. */
    method ClickProfileButton()
      modifies this
      ensures open == !old(open)
    {
      open := !open;
    }

    /** Following a menu item closes the dropdown. */
    method ClickMenuItem()
      modifies this
      ensures !open
    {
      open := false;
    }

    /** A mouse press anywhere in the document: outside the dropdown's
        container it closes the dropdown, inside it changes nothing. */
    method MouseDown(insideDropdown: bool)
      modifies this
      ensures open == (old(open) && insideDropdown)
    {
      if !insideDropdown {
        open := false;
      }
    }
  }
}
