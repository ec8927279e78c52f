/** The top bar: the logo's link, the greeting with the first name, the Login/Sign Up
    buttons for a visitor, log-out, and the open state of the two dialogs it hosts. */
module Navbar {
  import opened Common
  import opened Records
  import opened AuthContext
  import opened ProtectedRoute

  /** `auth?.id` is truthy: a session whose id is not 0. */
  predicate SignedIn(auth: Option<Session>)
  {
    auth.Some? && auth.value.id != 0
  }

  /** `(auth?.fullName || "").split(" ")[0] || "User"`. */
  function FirstName(auth: Option<Session>): (r: string)
    ensures r != "" && ' ' !in r
    ensures auth.None? ==> r == "User"
  {
    Or(FirstWord(if auth.Some? then auth.value.fullName else ""), "User")
  }

  /** The greeting uses the name up to the first space; a name that starts with a
      space greets "User". */
  lemma FirstNameOfFullName(s: Session, first: string, rest: string)
    requires first != "" && ' ' !in first
    requires s.fullName == first + " " + rest
    ensures FirstName(Some(s)) == first
  {
    FirstWordOf(first, rest);
  }

  /** The logo's target as the bar writes it: home for a visitor, else the admin and
      subcontractor homes, and "/dashboard/resident" for every other role. */
  function LogoTargetAsWritten(auth: Option<Session>): (path: string)
    ensures !SignedIn(auth) ==> path == "/"
    ensures SignedIn(auth) && auth.value.roleCode != 3 && auth.value.roleCode != 2 ==> path == "/dashboard/resident"
  {
    if !SignedIn(auth) then "/"
    else if auth.value.roleCode == 3 then "/dashboard/admin"
    else if auth.value.roleCode == 2 then "/dashboard/subs"
    else "/dashboard/resident"
  }

  /** A signed-in resident who clicks the logo lands on the catch-all page. */
  lemma ResidentLogoNotFound(s: Session)
    requires s.roleCode == 1 && s.id != 0
    ensures Visit(Some(s), LogoTargetAsWritten(Some(s))) == NotFound
  {
  }

  /** The logo's target with the route table's resident path. */
  function LogoTarget(auth: Option<Session>): (path: string)
    ensures !SignedIn(auth) ==> path == "/"
    ensures SignedIn(auth) ==> path == Landing(auth.value.roleCode)
    ensures GuardsOf(path).Some?
  {
    if SignedIn(auth) then Landing(auth.value.roleCode) else "/"
  }

  /** The logo always leads somewhere the visitor may see: home for a visitor, the
      visitor's own dashboard home for a signed-in user of a known role. */
  lemma LogoTargetShown(auth: Option<Session>)
    requires SignedIn(auth) ==> auth.value.roleCode in DashboardRoles
    ensures Visit(auth, LogoTarget(auth)) == Shown
  {
    if SignedIn(auth) {
      LandingShown(auth.value, auth.value.roleCode);
    }
  }

  /** The right-hand side of the bar. */
  datatype Corner = GuestButtons | Greeting(firstName: string)

  function CornerOf(auth: Option<Session>): (c: Corner)
    ensures c.GuestButtons? <==> !SignedIn(auth)
    ensures c.Greeting? ==> c.firstName == FirstName(auth)
  {
    if SignedIn(auth) then Greeting(FirstName(auth)) else GuestButtons
  }

  class Bar {
    var loginOpen: bool
    var signUpOpen: bool

    constructor ()
      ensures !loginOpen && !signUpOpen
    {
      loginOpen := false;
      signUpOpen := false;
    }

    /** The dialogs' `onOpenChange` and the Login / Sign Up buttons. */
    method SetLoginOpen(open: bool)
      modifies this
      ensures loginOpen == open && signUpOpen == old(signUpOpen)
    {
      loginOpen := open;
    }

    method SetSignUpOpen(open: bool)
      modifies this
      ensures signUpOpen == open && loginOpen == old(loginOpen)
    {
      signUpOpen := open;
    }

    /** `handleLogout`: end the session, then say so. */
    method HandleLogout(provider: AuthProvider) returns (notice: Notice)
      requires provider.Valid()
      modifies provider
      ensures provider.Valid() && provider.auth.None?
      ensures provider.storage == Synced(None, old(provider.storage))
      ensures notice == Toasted(Toast("Logged out", "You have successfully logged out."))
      ensures CornerOf(provider.auth) == GuestButtons
    {
      provider.Logout();
      notice := Toasted(Toast("Logged out", "You have successfully logged out."));
    }
  }
}
