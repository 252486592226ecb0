/** The site header (src/components/shared/Navbar.tsx): the links each role sees,
    the signed-in and signed-out buttons, the cart badge, and the mobile menu. */
module Navbar {
  import opened Types
  import Cart
  import Auth

  datatype NavLink = NavLink(name: string, href: string)

  /** The two links every visitor gets, signed in or not. */
  const BaseLinks: seq<NavLink> := [NavLink("Browse Meals", "/meals"), NavLink("Providers", "/providers")]

  predicate IsRole(user: Option<User>, r: Role) {
    user.Some? && user.value.role == r
  }

  /** `navLinks`: the two common links, then `push`es for providers and
      administrators; customers and visitors get nothing more. */
  method NavLinks(user: Option<User>) returns (links: seq<NavLink>)
    ensures |links| >= 2 && links[..2] == BaseLinks
    ensures IsRole(user, Provider) ==>
      links[2..] == [NavLink("My Dashboard", "/provider/dashboard"), NavLink("My Menu", "/provider/menu")]
    ensures IsRole(user, Admin) ==> links[2..] == [NavLink("Admin Panel", "/admin/dashboard")]
    ensures !IsRole(user, Provider) && !IsRole(user, Admin) ==> links == BaseLinks
  {
    links := [NavLink("Browse Meals", "/meals"), NavLink("Providers", "/providers")];
    if user.Some? && user.value.role == Provider {
      links := links + [NavLink("My Dashboard", "/provider/dashboard")];
      links := links + [NavLink("My Menu", "/provider/menu")];
    } else if user.Some? && user.value.role == Admin {
      links := links + [NavLink("Admin Panel", "/admin/dashboard")];
    }
  }

  datatype Control = CartButton | ProfileButton | LogoutButton | LoginButton | RegisterButton

  /** The desktop buttons: cart, profile and logout for a signed-in user; login and
      register otherwise. */
  function DesktopControls(user: Option<User>): (r: seq<Control>)
    ensures CartButton in r <==> user.Some?
    ensures ProfileButton in r <==> user.Some?
    ensures LogoutButton in r <==> user.Some?
    ensures LoginButton in r <==> user.None?
    ensures RegisterButton in r <==> user.None?
  {
    if user.Some? then [CartButton, ProfileButton, LogoutButton] else [LoginButton, RegisterButton]
  }

  /** The badge on the cart button: only for a signed-in user with something in the cart. */
  predicate ShowsBadge(user: Option<User>, totalItems: int) {
    user.Some? && totalItems > 0
  }

  /** With the cart store's totals, the badge shows exactly when a signed-in user's
      cart has a line. */
  lemma BadgeIffCartNotEmpty(user: Option<User>, lines: seq<CartLine>)
    requires Cart.PositiveQuantities(lines)
    ensures ShowsBadge(user, Cart.TotalItems(lines)) <==> user.Some? && lines != []
  {
    Cart.TotalItemsBounds(lines);
  }

  /** The header's own state: whether the mobile menu is open. */
  class Header {
    var isMenuOpen: bool

    constructor ()
      ensures !isMenuOpen
    {
      isMenuOpen := false;
    }

    /** The menu button: `setIsMenuOpen(!isMenuOpen)`. */
    method ToggleMenu()
      modifies this
      ensures isMenuOpen == !old(isMenuOpen)
    {
      isMenuOpen := !isMenuOpen;
    }

    /** Any link or button in the mobile menu other than sign-out closes it. */
    method FollowMobileLink()
      modifies this
      ensures !isMenuOpen
    {
      isMenuOpen := false;
    }

    /** Mobile "Sign Out": the store's logout, then the menu closes. */
    method MobileSignOut(auth: Auth.AuthStore)
      modifies this, auth, auth.browser
      ensures !isMenuOpen
      ensures auth.user == None && auth.token == None && auth.loading == old(auth.loading)
      ensures auth.browser.storage == Auth.StorageAfterLogout(old(auth.browser.storage))
      ensures auth.browser.events == old(auth.browser.events) + Auth.LogoutEvents()
      ensures auth.browser.pathname == old(auth.browser.pathname)
    {
      auth.Logout();
      isMenuOpen := false;
    }
  }
}
