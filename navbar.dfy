/** The navigation bar: its links, which one is active, the quick search,
    and the menus a route change closes. */
module Navbar {
  import opened Base
  import opened Text
  import opened AuthContext

  datatype Link = Link(name: string, href: string)

  const PublicLinks := [Link("Home", "/"), Link("Destinations", "/destinations"), Link("About", "/about"), Link("Contact", "/contact")]
  const BookingsLink := Link("My Bookings", "/my-bookings")

  /** `navigation`: the four public links, and My Bookings after them for a
      signed-in visitor. */
  function Navigation(isAuthenticated: bool): (r: seq<Link>)
    ensures |r| == if isAuthenticated then 5 else 4
    ensures r[..4] == PublicLinks
    ensures isAuthenticated ==> r[4] == BookingsLink
  {
    PublicLinks + (if isAuthenticated then [BookingsLink] else [])
  }

  /** `isActiveLink`: exact equality of paths. */
  predicate IsActiveLink(pathname: string, href: string)
  {
    pathname == href
  }

  /** At most one link is active, and on a signed-out visitor's bookings
      path none is. */
  lemma AtMostOneActive(isAuthenticated: bool, pathname: string)
    ensures forall i, j :: 0 <= i < j < |Navigation(isAuthenticated)| ==>
      !(IsActiveLink(pathname, Navigation(isAuthenticated)[i].href) && IsActiveLink(pathname, Navigation(isAuthenticated)[j].href))
    ensures !isAuthenticated ==>
      forall l | l in Navigation(isAuthenticated) :: !IsActiveLink("/my-bookings", l.href)
  {
    var nav := Navigation(isAuthenticated);
    forall i, j | 0 <= i < j < |nav|
      ensures nav[i].href != nav[j].href
    {
      assert nav[i].href in {"/", "/destinations", "/about", "/contact", "/my-bookings"};
    }
  }

  class Bar {
    var isMenuOpen: bool
    var isUserMenuOpen: bool
    var searchQuery: string
    const session: Session

    constructor (session: Session)
      ensures !isMenuOpen && !isUserMenuOpen && searchQuery == "" && this.session == session
    {
      isMenuOpen := false;
      isUserMenuOpen := false;
      searchQuery := "";
      this.session := session;
    }

    method EditSearch(value: string)
      modifies this
      ensures searchQuery == value && isMenuOpen == old(isMenuOpen) && isUserMenuOpen == old(isUserMenuOpen)
    {
      searchQuery := value;
    }

    /** `handleSearch`: a query that is blank after trimming does nothing;
      another goes to the destinations page with the trimmed query and
      empties the box. */
    method HandleSearch() returns (nav: Nav)
      modifies this
      ensures Trim(Browser, old(searchQuery)) == "" ==> nav == Stay && searchQuery == old(searchQuery)
      ensures Trim(Browser, old(searchQuery)) != "" ==>
        nav == NavigateTo("/destinations", [("search", Trim(Browser, old(searchQuery)))], None) && searchQuery == ""
      ensures isMenuOpen == old(isMenuOpen) && isUserMenuOpen == old(isUserMenuOpen)
    {
      var trimmed := Trim(Browser, searchQuery);
      if trimmed == "" {
        return Stay;
      }
      nav := NavigateTo("/destinations", [("search", trimmed)], None);
      searchQuery := "";
    }

    /** The route-change effect: both menus close; the search box keeps its
      text. */
    method RouteChanged()
      modifies this
      ensures !isMenuOpen && !isUserMenuOpen && searchQuery == old(searchQuery)
    {
      isMenuOpen := false;
      isUserMenuOpen := false;
    }

    method ToggleMenu()
      modifies this
      ensures isMenuOpen == !old(isMenuOpen) && isUserMenuOpen == old(isUserMenuOpen) && searchQuery == old(searchQuery)
    {
      isMenuOpen := !isMenuOpen;
    }

    method ToggleUserMenu()
      modifies this
      ensures isUserMenuOpen == !old(isUserMenuOpen) && isMenuOpen == old(isMenuOpen) && searchQuery == old(searchQuery)
    {
      isUserMenuOpen := !isUserMenuOpen;
    }

    /** `handleLogout`: the session signs out and the user menu closes. */
    method HandleLogout()
      modifies this, session
      ensures session.user.None? && !session.isAuthenticated && session.error.None?
      ensures session.storage == old(session.storage) - SessionKeys
      ensures !isUserMenuOpen && isMenuOpen == old(isMenuOpen) && searchQuery == old(searchQuery)
    {
      session.Logout();
      isUserMenuOpen := false;
    }
  }
}
