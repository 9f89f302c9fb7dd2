/** The layout around every page: the navigation bar, which item is highlighted for the current path,
    and the mobile menu that opens and closes. */
module Layout {
  import opened Text
  import PetCard

  datatype NavItem = NavItem(name: string, href: string, icon: string)

  /** The navigation items, in the order they are shown. */
  const Navigation: seq<NavItem> := [
    NavItem("Dashboard", "/", "Home"),
    NavItem("My Pets", "/pets", "Heart"),
    NavItem("Schedule", "/schedule", "Calendar"),
    NavItem("Reminders", "/reminders", "Bell")]

  /** `isActive(href)` at `pathname`: the root only matches itself, any other item matches every path
      below it. */
  predicate IsActive(pathname: string, href: string) {
    if href == "/" then pathname == "/" else StartsWith(pathname, href)
  }

  /** The Dashboard item is highlighted exactly on '/'. */
  lemma DashboardOnlyAtRoot(pathname: string)
    ensures IsActive(pathname, Navigation[0].href) <==> pathname == "/"
  {
  }

  /** The second characters of the `href`s other than the root's differ, so none of them is a prefix of
      another. */
  lemma NonRootHrefsDiffer(i: int, j: int)
    requires 1 <= i < |Navigation| && 1 <= j < |Navigation| && i != j
    ensures |Navigation[i].href| >= 2 && |Navigation[j].href| >= 2
    ensures Navigation[i].href[1] != Navigation[j].href[1]
  {
  }

  /** On any path at most one navigation item is highlighted. */
  lemma AtMostOneActive(pathname: string, i: int, j: int)
    requires 0 <= i < |Navigation| && 0 <= j < |Navigation| && i != j
    ensures !(IsActive(pathname, Navigation[i].href) && IsActive(pathname, Navigation[j].href))
  {
    if i == 0 || j == 0 {
      var k := if i == 0 then j else i;
      assert |Navigation[k].href| > 1;
    } else {
      NonRootHrefsDiffer(i, j);
      if StartsWith(pathname, Navigation[i].href) {
        assert pathname[1] == Navigation[i].href[1];
      }
    }
  }

  /** A pet's detail page highlights "My Pets" and no other item. */
  lemma PetDetailHighlightsMyPets(id: int)
    ensures IsActive(PetCard.PetRoute(id), Navigation[1].href)
    ensures forall i :: 0 <= i < |Navigation| && i != 1 ==> !IsActive(PetCard.PetRoute(id), Navigation[i].href)
  {
    var route := PetCard.PetRoute(id);
    assert route[..5] == "/pets";
    forall i | 0 <= i < |Navigation| && i != 1
      ensures !IsActive(route, Navigation[i].href)
    {
      AtMostOneActive(route, 1, i);
    }
  }

  class LayoutState {
    var isMobileMenuOpen: bool

    /** The mobile menu starts closed. */
    constructor()
      ensures !isMobileMenuOpen
    {
      isMobileMenuOpen := false;
    }

    /** The menu button: opens a closed menu and closes an open one. */
    method ToggleMenu()
      modifies this`isMobileMenuOpen
      ensures isMobileMenuOpen == !old(isMobileMenuOpen)
    {
      isMobileMenuOpen := !isMobileMenuOpen;
    }

    /** Following a link of the mobile menu closes it. */
    method FollowMobileLink()
      modifies this`isMobileMenuOpen
      ensures !isMobileMenuOpen
    {
      isMobileMenuOpen := false;
    }
  }
}
