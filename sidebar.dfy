/** The dashboard's side menu: the items each role sees. */
module Sidebar {
  import opened Common
  import opened Records
  import opened ProtectedRoute

  /** A menu entry: where it links and the label shown on hover. */
  datatype Item = Item(to: string, caption: string)

  /** `renderSidebarItems(roleCode)`. */
  function Items(roleCode: int): (r: seq<Item>)
    ensures roleCode == 3 ==> r == [Item("/dashboard/admin", "Dashboard"),
                                    Item("/dashboard/admin/residents", "Residents"),
                                    Item("/dashboard/admin/subs", "Subcontractors"),
                                    Item("/dashboard/admin/maintenance", "Maintenance")]
    ensures roleCode != 3 ==> |r| == 1
    ensures r[0] == Item(Landing(roleCode), "Dashboard")
  {
    if roleCode == 3 then
      [Item("/dashboard/admin", "Dashboard"),
       Item("/dashboard/admin/residents", "Residents"),
       Item("/dashboard/admin/subs", "Subcontractors"),
       Item("/dashboard/admin/maintenance", "Maintenance")]
    else if roleCode == 2 then [Item("/dashboard/subs", "Dashboard")]
    else [Item("/dashboard/residents", "Dashboard")]
  }

  /** The menu reads `auth.roleCode` without a null check: it can only be drawn with a
      session, which the dashboard's guard ensures (`DashboardNeedsSession`). */
  function Menu(auth: Option<Session>): (r: seq<Item>)
    requires auth.Some?
    ensures r == Items(auth.value.roleCode)
  {
    Items(auth.value.roleCode)
  }

  /** Every item a signed-in user of a known role sees opens a page that role may see. */
  lemma ItemsShown(s: Session)
    requires s.roleCode in DashboardRoles
    ensures forall i | 0 <= i < |Items(s.roleCode)| :: Visit(Some(s), Items(s.roleCode)[i].to) == Shown
  {
    forall i | 0 <= i < |Items(s.roleCode)|
      ensures Visit(Some(s), Items(s.roleCode)[i].to) == Shown
    {
      var guards := GuardsOf(Items(s.roleCode)[i].to).value;
      assert |guards| == 2 && guards[1] == [s.roleCode];
    }
  }
}
