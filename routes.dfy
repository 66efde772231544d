/** The "active link" rule shared by the top navigation bar and the side bar:
    the root link needs an exact match, every other link a plain string prefix. */
module Routes {
  import opened Text

  /** Whether the link to `href` is highlighted on `pathname`. Every link is
      active on its own path, and an active link's href is never longer than
      the path. */
  predicate IsActive(href: string, pathname: string)
    ensures pathname == href ==> IsActive(href, pathname)
    ensures IsActive(href, pathname) ==> |href| <= |pathname|
  {
    if href == "/" then pathname == "/" else StartsWith(pathname, href)
  }

  /** Two links are active together only if their hrefs nest: two non-root
      hrefs must be prefixes one of the other, and beside the root only an
      href that is itself a prefix of "/" can be active. */
  lemma {:induction false} BothActiveMeansNested(h1: string, h2: string, pathname: string)
    requires IsActive(h1, pathname) && IsActive(h2, pathname)
    ensures h1 != "/" && h2 != "/" ==> StartsWith(h1, h2) || StartsWith(h2, h1)
    ensures h1 == "/" && h2 != "/" ==> StartsWith("/", h2)
  {
    if h1 != "/" && h2 != "/" {
      if |h1| <= |h2| {
        assert h2[..|h1|] == pathname[..|h2|][..|h1|] == pathname[..|h1|];
      } else {
        assert h1[..|h2|] == pathname[..|h1|][..|h2|] == pathname[..|h2|];
      }
    }
  }
}
