/**
 * The navigation bar: it treats the user as signed in when either the authentication
 * context or the store says so, shows the Jobs and Companies links and the Logout button
 * only then, marks the link of the current path, and tracks whether the page is
 * scrolled. Its logout clears the context session, then dispatches the store's logout,
 * then navigates to the login page.
 */
module NavBar {
  import opened Wrappers
  import opened Ui
  import AuthContext

  const ScrollThreshold: real := 20.0

  datatype NavItem = HomeLink | AboutLink | JobsLink | CompaniesLink | ContactLink | LogoutButton | LoginLink

  /** The bar's `isAuthenticated`: the context's flag or the store's. */
  function Authenticated(contextAuthenticated: bool, storeAuthenticated: bool): (r: bool)
    ensures r <==> contextAuthenticated || storeAuthenticated
  {
    contextAuthenticated || storeAuthenticated
  }

  /** The items the bar shows, left to right. */
  function Items(authenticated: bool): (items: seq<NavItem>)
    ensures JobsLink in items <==> authenticated
    ensures CompaniesLink in items <==> authenticated
    ensures LogoutButton in items <==> authenticated
    ensures LoginLink in items <==> !authenticated
    ensures HomeLink in items && AboutLink in items && ContactLink in items
    ensures items[0] == HomeLink && items[|items| - 1] == (if authenticated then LogoutButton else LoginLink)
  {
    [HomeLink, AboutLink] + (if authenticated then [JobsLink, CompaniesLink] else []) + [ContactLink]
      + [if authenticated then LogoutButton else LoginLink]
  }

  /** The path a link leads to; the Logout button is not a link. */
  function Target(item: NavItem): Option<string> {
    match item
    case HomeLink => Some("/")
    case AboutLink => Some("/about")
    case JobsLink => Some("/jobs")
    case CompaniesLink => Some("/companies")
    case ContactLink => Some("/contact")
    case LoginLink => Some("/login")
    case LogoutButton => None
  }

  /** A page link is marked active exactly when the current path is its target (the Login button is never marked). */
  function IsActive(pathname: string, item: NavItem): (r: bool)
    ensures r <==> item != LoginLink && Target(item) == Some(pathname)
  {
    match item
    case LogoutButton => false
    case LoginLink => false
    case _ => Target(item).value == pathname
  }

  /** No two items are ever marked active together. */
  lemma AtMostOneActive(pathname: string, a: NavItem, b: NavItem)
    requires IsActive(pathname, a) && IsActive(pathname, b)
    ensures a == b
  {
  }

  /** `window.scrollY > 20`. */
  function Scrolled(scrollY: real): (r: bool)
    ensures r <==> scrollY > ScrollThreshold
  {
    scrollY > ScrollThreshold
  }

  class Bar {
    var scrolled: bool
    /** Dispatches and navigations, oldest first. */
    var effects: seq<Effect>
    /** The context session when the store's logout was dispatched. */
    ghost var sessionAtDispatch: AuthContext.Session
    const auth: AuthContext.AuthProvider

    constructor (auth: AuthContext.AuthProvider)
      ensures !scrolled && effects == [] && this.auth == auth
    {
      scrolled := false;
      effects := [];
      this.auth := auth;
      sessionAtDispatch := AuthContext.Session(auth.user, auth.storage.entries);
    }

    /** What the bar shows as signed in, given the third-party provider's and the store's flags. */
    function IsAuthenticated(providerAuthenticated: bool, storeAuthenticated: bool): (r: bool)
      reads this, auth
      ensures r <==> auth.user.Some? || providerAuthenticated || storeAuthenticated
    {
      Authenticated(AuthContext.ContextIsAuthenticated(auth.user, providerAuthenticated), storeAuthenticated)
    }

    method HandleScroll(scrollY: real)
      modifies this`scrolled
      ensures scrolled == Scrolled(scrollY)
    {
      scrolled := scrollY > ScrollThreshold;
    }

    /** `handleLogout`: the context is cleared before the store's logout is dispatched, and navigation comes last. */
    method HandleLogout()
      modifies this`effects, this`sessionAtDispatch, auth, auth.storage
      ensures sessionAtDispatch == AuthContext.LoggedOut(old(auth.Current()))
      ensures auth.Current() == sessionAtDispatch && auth.loading == old(auth.loading)
      ensures effects == old(effects) + [Dispatch(Logout), Navigate("/login")]
    {
      auth.Logout();
      sessionAtDispatch := auth.Current();
      effects := effects + [Dispatch(Logout)];
      effects := effects + [Navigate("/login")];
    }
  }

  /**
   * After logout the context no longer counts as signed in, but the bar still does when
   * the third-party provider or the store says so: logout does not touch either.
   */
  lemma AfterLogout(s: AuthContext.Session, providerAuthenticated: bool, storeAuthenticated: bool)
    ensures Authenticated(AuthContext.ContextIsAuthenticated(AuthContext.LoggedOut(s).user, providerAuthenticated), storeAuthenticated)
      <==> providerAuthenticated || storeAuthenticated
  {
  }
}
