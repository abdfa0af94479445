/**
 * The navigation bar of src/components/navbar.tsx: the scroll state of
 * `NavScroll`, an avatar initial and a label for the signed-in user, and a
 * logout handler that swallows failures.
 */
module ProfileNavbar {
  import opened Wrappers
  import opened Text
  import opened NavScroll
  import opened AuthContext

  /** `s?.charAt(0)` for an optional string (missing and "" both give ""). */
  function InitialOf(s: Option<string>): string {
    if s.Some? then CharAt0(s.value) else ""
  }

  /** `user.displayName?.charAt(0) || user.email?.charAt(0) || "U"`: the first
      character of the display name, else of the email, else "U". */
  function AvatarInitial(displayName: Option<string>, email: Option<string>): (r: string)
    ensures |r| == 1
    ensures displayName.Some? && displayName.value != "" ==> r[0] == displayName.value[0]
    ensures !(displayName.Some? && displayName.value != "") && email.Some? && email.value != "" ==> r[0] == email.value[0]
    ensures r == "U" <==> (!(displayName.Some? && displayName.value != "") && !(email.Some? && email.value != ""))
                           || (displayName.Some? && displayName.value != "" && displayName.value[0] == 'U')
                           || (!(displayName.Some? && displayName.value != "") && email.Some? && email.value != "" && email.value[0] == 'U')
  {
    var d := InitialOf(displayName);
    if d != "" then d
    else
      var e := InitialOf(email);
      if e != "" then e else "U"
  }

  /** `user.displayName || user.email`: the display name when it is non-empty,
      otherwise the email as it is (possibly missing or empty). */
  function ShownLabel(displayName: Option<string>, email: Option<string>): (r: Option<string>)
    ensures r == displayName || r == email
    ensures displayName.Some? && displayName.value != "" <==> r == displayName && r.Some? && r.value != ""
    ensures !(displayName.Some? && displayName.value != "") ==> r == email
  {
    if displayName.Some? && displayName.value != "" then displayName else email
  }

  /** The label and the initial agree: the initial is the first letter of
      the label whenever the label is non-empty. */
  lemma InitialIsFirstOfLabel(displayName: Option<string>, email: Option<string>)
    requires ShownLabel(displayName, email).Some? && ShownLabel(displayName, email).value != ""
    ensures AvatarInitial(displayName, email) == [ShownLabel(displayName, email).value[0]]
  {
  }

  class ProfileNavbarState {
    var isOpen: bool
    var scrolled: bool
    var hidden: bool
    var lastScrollY: real

    function Scroll(): ScrollState
      reads this
    {
      ScrollState(scrolled, hidden, lastScrollY)
    }

    constructor ()
      ensures !isOpen && Scroll() == Initial
    {
      isOpen := false;
      scrolled, hidden, lastScrollY := false, false, 0.0;
    }

    /** `handleScroll` for the position `y`. */
    method HandleScroll(y: real)
      modifies this`scrolled, this`hidden, this`lastScrollY
      ensures Scroll() == OnScroll(old(Scroll()), y)
    {
      scrolled := y > 50.0;
      if y > lastScrollY && y > 100.0 {
        hidden := true;
      } else {
        hidden := false;
      }
      lastScrollY := y;
    }

    /** `handleLogout`, given whether `logout()` rejects: the failure is
        caught and logged, so the handler's promise always resolves, and the
        navigation bar's own state is left as it was. */
    method HandleLogout(logoutRejects: bool) returns (result: Completion, errorLogged: bool)
      ensures result == Done
      ensures errorLogged <==> logoutRejects
      ensures isOpen == old(isOpen) && Scroll() == old(Scroll())
    {
      errorLogged := false;
      if logoutRejects {
        errorLogged := true;
      }
      result := Done;
    }

    /** The menu button of the mobile layout. */
    method ToggleMenu()
      modifies this`isOpen
      ensures isOpen == !old(isOpen)
    {
      isOpen := !isOpen;
    }

    /** A link of the mobile menu closes the menu. */
    method CloseMenu()
      modifies this`isOpen
      ensures !isOpen
    {
      isOpen := false;
    }
  }
}
