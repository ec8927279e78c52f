/** The route guard and the part of the route table it is used in: the guard sends a
    visitor without a session home, a visitor whose role is not allowed to
    "/unauthorized", and renders the page otherwise; the dashboard routes nest one
    guard for every signed-in role and one per role section. */
module ProtectedRoute {
  import opened Common
  import opened Records

  /** What the guard renders. */
  datatype Decision = RedirectTo(path: string) | RenderChildren

  /** `ProtectedRoute`: the session check comes first, then the role check. */
  function Guard(auth: Option<Session>, allowedRoles: seq<int>): (d: Decision)
    ensures d == RedirectTo("/") <==> auth.None?
    ensures d == RedirectTo("/unauthorized") <==> auth.Some? && auth.value.roleCode !in allowedRoles
    ensures d == RenderChildren <==> auth.Some? && auth.value.roleCode in allowedRoles
  {
    if auth.None? then RedirectTo("/")
    else if auth.value.roleCode !in allowedRoles then RedirectTo("/unauthorized")
    else RenderChildren
  }

  // ---------------------------------------------------------------------------
  // The route table

  /** The `allowedRoles` of the dashboard layout and of the admin, subcontractor and
      resident sections (role codes: 1 resident, 2 subcontractor, 3 admin). */
  const DashboardRoles: seq<int> := [1, 2, 3]
  const AdminRoles: seq<int> := [3]
  const SubsRoles: seq<int> := [2]
  const ResidentRoles: seq<int> := [1]

  /** The guards on the way to a path, outermost first: none for the public pages, the
      dashboard guard and then the section's guard for the dashboard pages. A path the
      table does not list (`None`) falls to the catch-all page. */
  function GuardsOf(path: string): (r: Option<seq<seq<int>>>)
    ensures r.Some? && r.value != [] ==> r.value[0] == DashboardRoles
  {
    if path in {"/", "/about", "/signup", "/unauthorized"} then Some([])
    else if path == "/dashboard" then Some([DashboardRoles])
    else if path in {"/dashboard/admin", "/dashboard/admin/residents", "/dashboard/admin/subs",
                     "/dashboard/admin/maintenance"} then Some([DashboardRoles, AdminRoles])
    else if path == "/dashboard/subs" then Some([DashboardRoles, SubsRoles])
    else if path == "/dashboard/residents" then Some([DashboardRoles, ResidentRoles])
    else None
  }

  /** What a visit shows: the catch-all page, a redirect, or the page itself. */
  datatype Screen = NotFound | Redirected(to: string) | Shown

  /** Passing a chain of guards: the first guard that redirects decides. */
  function Through(auth: Option<Session>, guards: seq<seq<int>>): (s: Screen)
    ensures s == Shown <==> guards == [] || (auth.Some? && forall i | 0 <= i < |guards| :: auth.value.roleCode in guards[i])
    ensures guards != [] && auth.None? ==> s == Redirected("/")
    ensures s != NotFound
  {
    if guards == [] then Shown
    else match Guard(auth, guards[0])
      case RedirectTo(p) => Redirected(p)
      case RenderChildren => Through(auth, guards[1..])
  }

  function Visit(auth: Option<Session>, path: string): (s: Screen)
    ensures s == NotFound <==> GuardsOf(path).None?
  {
    match GuardsOf(path)
    case None => NotFound
    case Some(guards) => Through(auth, guards)
  }

  /** A dashboard page is only ever shown to a visitor with a session, so the layout
      around it (the sidebar included) always has one. */
  lemma DashboardNeedsSession(auth: Option<Session>, path: string)
    requires GuardsOf(path).Some? && GuardsOf(path).value != []
    requires Visit(auth, path) == Shown
    ensures auth.Some? && auth.value.roleCode in DashboardRoles
  {
  }

  /** An anonymous visitor is sent home from every dashboard page, never to
      "/unauthorized". */
  lemma AnonymousSentHome(path: string)
    requires GuardsOf(path).Some? && GuardsOf(path).value != []
    ensures Visit(None, path) == Redirected("/")
  {
  }

  /** The dashboard home of each role, the index page of its section. */
  function Landing(roleCode: int): (path: string)
    ensures GuardsOf(path).Some?
  {
    if roleCode == 3 then "/dashboard/admin"
    else if roleCode == 2 then "/dashboard/subs"
    else "/dashboard/residents"
  }

  /** Every signed-in role reaches its own dashboard home, and no other role's. */
  lemma LandingShown(s: Session, roleCode: int)
    requires s.roleCode in DashboardRoles && roleCode in DashboardRoles
    ensures Visit(Some(s), Landing(roleCode)) == Shown <==> roleCode == s.roleCode
  {
    var guards := GuardsOf(Landing(roleCode)).value;
    assert |guards| == 2 && guards[1] == [roleCode];
    assert Visit(Some(s), Landing(roleCode)) == Shown <==> s.roleCode in guards[1];
  }
}
