/**
 * The navigation bar of components/navbar.tsx: the scroll state of
 * `NavScroll`, and a session kept as a bearer token in local storage that is
 * checked against "/api/auth/me" once on mount and dropped on logout.
 */
module Navbar {
  import opened Wrappers
  import opened NavScroll

  /** The user object "/api/auth/me" answers with. */
  datatype NavUser = NavUser(id: string, name: string, email: string)

  /** What the `/api/auth/me` request comes to: an ok response with its
      body, a non-ok response, or a thrown exception (network error or a body
      that is not JSON). */
  datatype MeResponse = MeOk(user: NavUser) | MeNotOk | MeThrows

  /** `!token`: no stored token, or the empty string. */
  predicate HasToken(token: Option<string>) {
    token.Some? && token.value != ""
  }

  /** The header `Bearer ${token}` (a missing token prints as "null"). */
  function BearerHeader(token: Option<string>): (r: string)
    ensures |r| >= 7 && r[..7] == "Bearer "
    ensures token.Some? ==> r[7..] == token.value
  {
    "Bearer " + token.GetOr("null")
  }

  /** The result of `checkAuthStatus`: the stored token, the user and whether
      a request was sent. */
  datatype AuthCheck = AuthCheck(token: Option<string>, user: Option<NavUser>, requested: bool)

  function CheckAuth(token: Option<string>, user: Option<NavUser>, response: MeResponse): (r: AuthCheck)
    ensures r.requested <==> HasToken(token)
    ensures !HasToken(token) ==> r.token == token && r.user == user
    ensures r.token == token || r.token == None
    ensures r.token == None && HasToken(token) <==> HasToken(token) && !response.MeOk?
    ensures r.user != user ==> r.user.Some? && HasToken(token) && response == MeOk(r.user.value)
    ensures HasToken(token) && response.MeOk? ==> r == AuthCheck(token, Some(response.user), true)
  {
    if !HasToken(token) then AuthCheck(token, user, false)
    else match response
      case MeOk(u) => AuthCheck(token, Some(u), true)
      case MeNotOk => AuthCheck(None, user, true)
      case MeThrows => AuthCheck(None, user, true)
  }

  class NavbarState {
    var isOpen: bool
    var user: Option<NavUser>
    var isLoading: bool
    var scrolled: bool
    var hidden: bool
    var lastScrollY: real
    /** `localStorage.getItem("authToken")`. */
    var storedToken: Option<string>

    function Scroll(): ScrollState
      reads this
    {
      ScrollState(scrolled, hidden, lastScrollY)
    }

    constructor (token: Option<string>)
      ensures !isOpen && user == None && isLoading
      ensures Scroll() == Initial && storedToken == token
    {
      isOpen := false;
      user := None;
      isLoading := true;
      scrolled, hidden, lastScrollY := false, false, 0.0;
      storedToken := token;
    }

    /** `handleScroll` for the position `y`. */
    method HandleScroll(y: real)
      modifies this`scrolled, this`hidden, this`lastScrollY
      ensures Scroll() == OnScroll(old(Scroll()), y)
    {
      scrolled := y > 50.0;
      if y > lastScrollY && y > 100.0 {
        hidden := true;
      } else {
        hidden := false;
      }
      lastScrollY := y;
    }

    /** `checkAuthStatus`, given how the request would end; loading always ends. */
    method CheckAuthStatus(response: MeResponse) returns (requested: bool)
      modifies this`user, this`isLoading, this`storedToken
      ensures !isLoading
      ensures AuthCheck(storedToken, user, requested) == CheckAuth(old(storedToken), old(user), response)
    {
      if !HasToken(storedToken) {
        isLoading := false;
        return false;
      }
      requested := true;
      match response {
        case MeOk(u) => user := Some(u);
        case MeNotOk => storedToken := None;
        case MeThrows => storedToken := None;
      }
      isLoading := false;
    }

    /** `handleLogout`: the logout request is sent with whatever token is
        stored, and whether it fails or not the token and the user are gone. */
    method HandleLogout() returns (authorization: string)
      modifies this`user, this`storedToken
      ensures authorization == BearerHeader(old(storedToken))
      ensures storedToken == None && user == None
    {
      authorization := BearerHeader(storedToken);
      storedToken := None;
      user := None;
    }

    /** The menu button of the mobile layout. */
    method ToggleMenu()
      modifies this`isOpen
      ensures isOpen == !old(isOpen)
    {
      isOpen := !isOpen;
    }
  }

  /** Without a usable token nothing is requested and the user stays signed out. */
  lemma NoTokenNoRequest(user: Option<NavUser>, response: MeResponse)
    ensures CheckAuth(None, user, response) == AuthCheck(None, user, false)
    ensures CheckAuth(Some(""), user, response) == AuthCheck(Some(""), user, false)
  {
  }
}
