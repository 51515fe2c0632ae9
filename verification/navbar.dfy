/**
 The navigation bar's link list and the test that highlights the link of the
 page being shown.
 */
module Navbar {
  import opened Text

  /** A navigation link: its label and its target path. */
  datatype NavLink = NavLink(name: string, href: string)

  /** The path of the home page. */
  const Root: string := "/"

  /** The links, in the order the bar shows them. */
  const NavLinks: seq<NavLink> := [
    NavLink("Home", "/"),
    NavLink("About", "/about"),
    NavLink("Services", "/services"),
    NavLink("Projects", "/projects")
  ]

  /** Whether the link to `href` is highlighted while `pathname` is shown: the home
      link only on the home page itself, any other link on every path it begins. */
  function IsActive(pathname: string, href: string): (r: bool)
    ensures href == Root ==> (r <==> pathname == Root)
    ensures href != Root ==> (r <==> href <= pathname)
  {
    if href == Root then pathname == Root else StartsWith(pathname, href)
  }

  /** Each link is highlighted on its own page. */
  lemma ActiveOnOwnPage(href: string)
    ensures IsActive(href, href)
  {
  }

  /** There is no path-segment boundary: "/about" is highlighted on "/aboutus" as
      well as on "/about/team". */
  lemma NoSegmentBoundary()
    ensures IsActive("/aboutus", "/about")
    ensures IsActive("/about/team", "/about")
  {
  }

  /** Some path highlights both links. */
  ghost predicate CanBothBeActive(a: string, b: string) {
    exists pathname :: IsActive(pathname, a) && IsActive(pathname, b)
  }

  /** The direct test for two links sharing a highlighted path: a home link shares
      only the home page, so with the other link active there; two other links
      share a path exactly when one is a prefix of the other. */
  predicate Overlap(a: string, b: string) {
    if a == Root then IsActive(Root, b)
    else if b == Root then IsActive(Root, a)
    else a <= b || b <= a
  }

  /** Two links can be highlighted together exactly when they overlap. */
  lemma CanBothBeActiveIffOverlap(a: string, b: string)
    ensures CanBothBeActive(a, b) <==> Overlap(a, b)
  {
    if a != Root && b != Root {
      if CanBothBeActive(a, b) {
        var p :| IsActive(p, a) && IsActive(p, b);
        if |a| <= |b| {
          assert a == p[..|a|] == b[..|a|];
        } else {
          assert b == p[..|b|] == a[..|b|];
        }
      }
      if a <= b {
        ActiveOnOwnPage(b);
        assert IsActive(b, a) && IsActive(b, b);
      } else if b <= a {
        ActiveOnOwnPage(a);
        assert IsActive(a, a) && IsActive(a, b);
      }
    } else if Overlap(a, b) {
      assert IsActive(Root, a) && IsActive(Root, b);
    }
  }

  /** No two links of the bar overlap. */
  lemma NavLinksDisjoint()
    ensures forall i, j :: 0 <= i < |NavLinks| && 0 <= j < |NavLinks| && i != j ==>
      !Overlap(NavLinks[i].href, NavLinks[j].href)
  {
    var h := [NavLinks[0].href, NavLinks[1].href, NavLinks[2].href, NavLinks[3].href];
    assert !StartsWith(Root, h[1]) && !StartsWith(Root, h[2]) && !StartsWith(Root, h[3]);
    assert h[1][1] != h[2][1] && h[1][1] != h[3][1] && h[2][1] != h[3][1];
    forall i, j | 0 <= i < |h| && 0 <= j < |h| && i != j
      ensures !Overlap(h[i], h[j])
    {
      if i != 0 && j != 0 {
        assert h[i][1] != h[j][1];
        assert !(h[i] <= h[j]) && !(h[j] <= h[i]);
      }
    }
  }

  /** For any path, at most one link of the bar is highlighted. */
  lemma AtMostOneActive(pathname: string)
    ensures forall i, j ::
      (0 <= i < |NavLinks| && 0 <= j < |NavLinks| &&
       IsActive(pathname, NavLinks[i].href) && IsActive(pathname, NavLinks[j].href)) ==> i == j
  {
    NavLinksDisjoint();
    forall i, j | 0 <= i < |NavLinks| && 0 <= j < |NavLinks| && i != j
      ensures !(IsActive(pathname, NavLinks[i].href) && IsActive(pathname, NavLinks[j].href))
    {
      CanBothBeActiveIffOverlap(NavLinks[i].href, NavLinks[j].href);
    }
  }
}
