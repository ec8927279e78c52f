/** The admin's residents page: the residents of the snapshot filtered by the search box
    and the block select, the table cells, approving a resident, deleting one, and the
    edit dialog's open state. */
module AdminResidents {
  import opened Common
  import opened Records
  import opened Snapshot
  import DashboardContext

  /** `(dashboardData?.users || []).filter(user => user.roleCode === 1)`. */
  function Residents(data: Option<DashboardData>): (r: seq<User>)
    ensures forall u :: u in r <==> u in UsersOf(data) && u.roleCode == 1
  {
    Filter(UsersOf(data), (u: User) => u.roleCode == 1)
  }

  /** The search box: an empty term matches every resident, else the term is looked
      for in the lower-cased name and e-mail. */
  predicate MatchesSearch(u: User, lowerTerm: string)
  {
    lowerTerm == "" || Contains(Lower(u.fullName), lowerTerm) || Contains(Lower(u.email), lowerTerm)
  }

  /** A resident is listed when it matches the trimmed, lower-cased term and the block
      select; a resident without a block only passes "all". */
  predicate Shown(u: User, term: string, block: Selector)
  {
    MatchesSearch(u, Trim(Lower(term))) && SelectsOption(block, u.blockId)
  }

  /** `filteredUsers`. */
  function FilteredResidents(data: Option<DashboardData>, term: string, block: Selector): (r: seq<User>)
    ensures |r| <= |Residents(data)|
    ensures forall u :: u in r <==> u in UsersOf(data) && u.roleCode == 1 && Shown(u, term, block)
  {
    Filter(Residents(data), (u: User) => Shown(u, term, block))
  }

  /** A blank search box with "All Blocks" lists every resident. */
  lemma BlankSearchShowsAll(data: Option<DashboardData>, term: string)
    requires AllSpace(term)
    ensures FilteredResidents(data, term, All) == Residents(data)
  {
    LowerKeepsSpace(term);
    TrimEmpty(Lower(term));
  }

  /** The search ignores letter case in the term. */
  lemma SearchIgnoresCase(u: User, term: string, block: Selector)
    ensures Shown(u, Lower(term), block) <==> Shown(u, term, block)
  {
    LowerIdempotent(term);
  }

  /** Picking a block in the select lists exactly the residents of that block that
      match the search. */
  lemma PickBlock(data: Option<DashboardData>, term: string, id: int, u: User)
    ensures u in FilteredResidents(data, term, SelectorOf(Decimal(id))) <==>
              u in Residents(data) && MatchesSearch(u, Trim(Lower(term))) && u.blockId == Some(id)
  {
    PickOption(id, if u.blockId.Some? then u.blockId.value else 0);
  }

  // ---------------------------------------------------------------------------
  // The table

  /** The "Approved" cell: "Yes" for a truthy `approvedBy`, else the approve button,
      relabelled and disabled while that resident's approval is in flight. */
  datatype Approval = Approved | ApproveButton(caption: string, disabled: bool)

  function ApprovalCell(u: User, approvingId: Option<int>): (c: Approval)
    ensures c.Approved? <==> u.approvedBy.Some? && u.approvedBy.value != 0
    ensures c.ApproveButton? ==> (c.disabled <==> approvingId == Some(u.id))
    ensures c.ApproveButton? ==> c.caption == (if c.disabled then "Approving..." else "Approve")
  {
    if u.approvedBy.Some? && u.approvedBy.value != 0 then Approved
    else if approvingId == Some(u.id) then ApproveButton("Approving...", true)
    else ApproveButton("Approve", false)
  }

  datatype Row = Row(name: string, email: string, block: string, unit: string, approved: Approval)

  function ResidentRow(data: Option<DashboardData>, u: User, approvingId: Option<int>): (r: Row)
    ensures r.name == u.fullName && r.email == u.email
    ensures u.blockId.None? ==> r.block == "Unknown"
    ensures u.blockId.Some? ==> r.block == BlockName(BlocksOf(data), u.blockId.value, "Unknown")
    ensures r.unit == (if u.unit == "" then "N/A" else u.unit)
    ensures r.approved == ApprovalCell(u, approvingId)
  {
    Row(u.fullName, u.email,
        if u.blockId.Some? then BlockName(BlocksOf(data), u.blockId.value, "Unknown") else "Unknown",
        Or(u.unit, "N/A"),
        ApprovalCell(u, approvingId))
  }

  /** Once approved by an admin with a non-zero id, a resident's row shows "Yes"
      instead of the button; the other users keep their cells. */
  lemma ApprovedShowsYes(users: seq<User>, k: int, approver: int, approvingId: Option<int>)
    requires UniqueIds(users, UserId)
    requires 0 <= k < |users| && approver != 0
    ensures ApprovalCell(Approve(users, users[k].id, approver)[k], approvingId) == Approved
    ensures forall i | 0 <= i < |users| && i != k ::
              ApprovalCell(Approve(users, users[k].id, approver)[i], approvingId) == ApprovalCell(users[i], approvingId)
  {
    forall i | 0 <= i < |users| && i != k
      ensures Approve(users, users[k].id, approver)[i] == users[i]
    {
      assert UserId(users[i]) != UserId(users[k]);
    }
  }

  // ---------------------------------------------------------------------------
  // Approving and deleting

  /** `axiosInstance.post("/admin/approveUser", { userId, approvedBy }, { headers })`. */
  datatype ApproveRequest = ApproveRequest(path: string, userId: int, approvedBy: int, authorization: string)

  /** How a request settles: resolved (the answer is not inspected), or a thrown error
      with an optional server message. */
  datatype WriteReply = Resolved | Threw(serverMessage: Option<string>)

  /** After deleting, no listed resident carries the deleted id, and with unique ids
      every other resident is still listed. */
  lemma DeletedResidentGone(users: seq<User>, k: int)
    requires UniqueIds(users, UserId)
    requires 0 <= k < |users|
    ensures forall u | u in RemoveById(users, UserId, users[k].id) :: u.id != users[k].id
    ensures forall i | 0 <= i < |users| && i != k :: users[i] in RemoveById(users, UserId, users[k].id)
  {
    RemoveMembers(users, UserId, users[k].id);
    forall i | 0 <= i < |users| && i != k
      ensures users[i] in RemoveById(users, UserId, users[k].id)
    {
      assert UserId(users[i]) != UserId(users[k]);
    }
  }

  class Page {
    var approvingId: Option<int>
    var modalOpen: bool
    var editingUser: Option<User>

    constructor ()
      ensures approvingId.None? && !modalOpen && editingUser.None?
    {
      approvingId := None;
      modalOpen := false;
      editingUser := None;
    }

    /** "Approve" on a row: the resident's button goes into its waiting state and the
      approval is posted with the admin's id. */
    method StartApprove(auth: Option<Session>, userId: int, approvedBy: int) returns (sent: ApproveRequest)
      modifies this
      ensures approvingId == Some(userId)
      ensures modalOpen == old(modalOpen) && editingUser == old(editingUser)
      ensures sent == ApproveRequest("/admin/approveUser", userId, approvedBy, Bearer(auth))
    {
      approvingId := Some(userId);
      sent := ApproveRequest("/admin/approveUser", userId, approvedBy, Bearer(auth));
    }

    /** The rest of `handleApprove`. When the post resolves and a snapshot is loaded,
      the users carrying `userId` are marked approved by the signed-in admin (reading
      the admin's id throws without a session, which the catch reports); with no
      snapshot nothing is shown. An error reports the server's message. The waiting
      state always ends. */
    method FinishApprove(store: DashboardContext.DashboardStore, auth: Option<Session>, userId: int,
                         reply: WriteReply)
      returns (notice: Notice)
      modifies this, store
      ensures approvingId.None? && modalOpen == old(modalOpen) && editingUser == old(editingUser)
      ensures store.isFetching == old(store.isFetching)
      ensures reply.Resolved? && old(store.data).Some? && auth.Some? ==>
                store.data == Some(old(store.data).value.(users :=
                  Approve(old(store.data).value.users, userId, auth.value.id)))
                && notice == Toasted(Toast("Resident approved", "The resident was approved successfully."))
      ensures reply.Resolved? && old(store.data).Some? && auth.None? ==>
                store.data == old(store.data)
                && notice == Toasted(Toast("Approval failed", "Failed to approve user."))
      ensures reply.Resolved? && old(store.data).None? ==> store.data.None? && notice == Silent
      ensures reply.Threw? ==>
                store.data == old(store.data)
                && notice == Toasted(Toast("Approval failed", Or(OrBlank(reply.serverMessage), "Failed to approve user.")))
    {
      match reply {
        case Resolved =>
          if store.data.Some? {
            if auth.Some? {
              var d := store.data.value;
              store.SetData(Some(d.(users := Approve(d.users, userId, auth.value.id))));
              notice := Toasted(Toast("Resident approved", "The resident was approved successfully."));
            } else {
              notice := Toasted(Toast("Approval failed", "Failed to approve user."));
            }
          } else {
            notice := Silent;
          }
        case Threw(message) =>
          notice := Toasted(Toast("Approval failed", Or(OrBlank(message), "Failed to approve user.")));
      }
      approvingId := None;
    }

    /** `handleDelete`. A declined confirmation sends nothing. When the delete resolves
      and a snapshot is loaded, the users carrying the id are removed; an error reports
      the server's message and keeps the snapshot. */
    method HandleDelete(store: DashboardContext.DashboardStore, auth: Option<Session>, userId: int,
                        confirmed: bool, reply: WriteReply)
      returns (sent: Option<DeleteRequest>, notice: Notice)
      modifies store
      ensures store.isFetching == old(store.isFetching)
      ensures !confirmed ==> sent.None? && notice == Silent && store.data == old(store.data)
      ensures confirmed ==> sent == Some(DeleteUserRequest(userId, auth))
      ensures confirmed && reply.Resolved? && old(store.data).Some? ==>
                store.data == Some(old(store.data).value.(users := RemoveById(old(store.data).value.users, UserId, userId)))
                && notice == Toasted(Toast("Resident deleted", "The resident was removed successfully."))
      ensures confirmed && reply.Resolved? && old(store.data).None? ==> store.data.None? && notice == Silent
      ensures confirmed && reply.Threw? ==>
                store.data == old(store.data)
                && notice == Toasted(Toast("Deletion failed", Or(OrBlank(reply.serverMessage), "Failed to delete user.")))
    {
      if !confirmed {
        return None, Silent;
      }
      sent := Some(DeleteUserRequest(userId, auth));
      match reply {
        case Resolved =>
          if store.data.Some? {
            var d := store.data.value;
            store.SetData(Some(d.(users := RemoveById(d.users, UserId, userId))));
            notice := Toasted(Toast("Resident deleted", "The resident was removed successfully."));
          } else {
            notice := Silent;
          }
        case Threw(message) =>
          notice := Toasted(Toast("Deletion failed", Or(OrBlank(message), "Failed to delete user.")));
      }
    }

    /** "Update" on a row: edit that resident in the sign-up dialog. */
    method HandleEdit(u: User)
      modifies this
      ensures modalOpen && editingUser == Some(u) && approvingId == old(approvingId)
    {
      editingUser := Some(u);
      modalOpen := true;
    }

    /** The dialog's `onOpenChange`: closing forgets the resident being edited. */
    method HandleOpenChange(open: bool)
      modifies this
      ensures modalOpen == open && approvingId == old(approvingId)
      ensures !open ==> editingUser.None?
      ensures open ==> editingUser == old(editingUser)
    {
      modalOpen := open;
      if !open {
        editingUser := None;
      }
    }
  }
}
