/** The bottom navigation bar: five fixed items, the current one highlighted
    by exact comparison of the location's path with the item's path. */
module BottomNav {

  datatype NavItem = NavItem(name: string, path: string)

  const NavItems: seq<NavItem> := [
    NavItem("Home", "/"),
    NavItem("Transfer", "/transfer"),
    NavItem("Cards", "/cards"),
    NavItem("History", "/history"),
    NavItem("Profile", "/profile")
  ]

  /** `location.pathname === item.path`: no prefix or trailing-slash matching. */
  predicate IsActive(pathname: string, item: NavItem) {
    pathname == item.path
  }

  /** The highlight flag of each item, in bar order. */
  function Highlights(pathname: string): (flags: seq<bool>)
    ensures |flags| == |NavItems|
    ensures forall i :: 0 <= i < |flags| ==> (flags[i] <==> IsActive(pathname, NavItems[i]))
  {
    seq(|NavItems|, i requires 0 <= i < |NavItems| => IsActive(pathname, NavItems[i]))
  }

  /** The paths the bar links to. */
  function Paths(): set<string> {
    set i | 0 <= i < |NavItems| :: NavItems[i].path
  }

  /** Five items in a fixed order, with distinct names and distinct paths. */
  lemma ItemsFixed()
    ensures |NavItems| == 5
    ensures Paths() == {"/", "/transfer", "/cards", "/history", "/profile"}
    ensures forall i, j :: 0 <= i < j < |NavItems| ==> NavItems[i].path != NavItems[j].path
    ensures forall i, j :: 0 <= i < j < |NavItems| ==> NavItems[i].name != NavItems[j].name
  {
    assert NavItems[0].path in Paths();
    assert NavItems[1].path in Paths();
    assert NavItems[2].path in Paths();
    assert NavItems[3].path in Paths();
    assert NavItems[4].path in Paths();
  }

  /** At most one item is highlighted, and one is exactly when the path is
      one of the bar's own paths. */
  lemma AtMostOneActive(pathname: string)
    ensures forall i, j ::
      (0 <= i < |NavItems| && 0 <= j < |NavItems| && Highlights(pathname)[i] && Highlights(pathname)[j]) ==> i == j
    ensures (exists i :: 0 <= i < |NavItems| && Highlights(pathname)[i]) <==> pathname in Paths()
  {
    ItemsFixed();
    if pathname in Paths() {
      var i :| 0 <= i < |NavItems| && NavItems[i].path == pathname;
      assert Highlights(pathname)[i];
    }
  }

  /** Paths outside the bar, sub-paths included, highlight nothing. */
  lemma UnlistedPathsHighlightNothing()
    ensures forall i :: 0 <= i < |NavItems| ==> !Highlights("/auth")[i]
    ensures forall i :: 0 <= i < |NavItems| ==> !Highlights("/transfer/x")[i]
    ensures forall i :: 0 <= i < |NavItems| ==> !Highlights("/profile/")[i]
  {
  }
}
