/** The side bar: four navigation icons, of which the one matching the current
    path is highlighted. */
module Sidebar {
  import opened Text
  import Routes

  datatype NavItem = NavItem(href: string, caption: string)

  const NavItems: seq<NavItem> := [
    NavItem("/", "Home"),
    NavItem("/projects", "Projects"),
    NavItem("/new-project", "New"),
    NavItem("/settings", "Settings")
  ]

  /** Whether the `i`-th item is highlighted for `pathname`. */
  predicate ItemActive(i: nat, pathname: string)
    requires i < |NavItems|
  {
    Routes.IsActive(NavItems[i].href, pathname)
  }

  /** Home needs an exact match; every other item a string prefix. */
  lemma ItemActiveIff(i: nat, pathname: string)
    requires i < |NavItems|
    ensures i == 0 ==> (ItemActive(i, pathname) <==> pathname == "/")
    ensures i > 0 ==> (ItemActive(i, pathname) <==> StartsWith(pathname, NavItems[i].href))
  {
  }

  /** No href of a non-root item is a prefix of another's. */
  lemma HrefsDoNotNest(i: nat, j: nat)
    requires 0 < i < |NavItems| && 0 < j < |NavItems| && i != j
    ensures !StartsWith(NavItems[i].href, NavItems[j].href)
  {
    var a, b := NavItems[i].href, NavItems[j].href;
    assert a[1] != b[1];
    assert |b| <= |a| ==> a[..|b|][1] == a[1];
  }

  /** For any path at most one of the four items is highlighted. */
  lemma {:induction false} AtMostOneItemActive(pathname: string, i: nat, j: nat)
    requires i < |NavItems| && j < |NavItems| && i != j
    ensures !(ItemActive(i, pathname) && ItemActive(j, pathname))
  {
    if ItemActive(i, pathname) && ItemActive(j, pathname) {
      Routes.BothActiveMeansNested(NavItems[i].href, NavItems[j].href, pathname);
      Routes.BothActiveMeansNested(NavItems[j].href, NavItems[i].href, pathname);
      if i > 0 && j > 0 {
        HrefsDoNotNest(i, j);
        HrefsDoNotNest(j, i);
      }
    }
  }

  /** A settings sub-page highlights Settings only, and "/" highlights Home only. */
  lemma {:induction false} ExampleActivations(rest: string)
    ensures forall i :: 0 <= i < |NavItems| ==> (ItemActive(i, "/settings" + rest) <==> i == 3)
    ensures forall i :: 0 <= i < |NavItems| ==> (ItemActive(i, "/") <==> i == 0)
  {
    var p := "/settings" + rest;
    assert p[..9] == "/settings";
    assert ItemActive(3, p);
    forall i | 0 <= i < |NavItems| && i != 3
      ensures !ItemActive(i, p)
    {
      AtMostOneItemActive(p, i, 3);
    }
  }
}
