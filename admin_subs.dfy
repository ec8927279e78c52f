/** The admin's subcontractors page: the subcontractors of the snapshot filtered by the
    search box and the category select, the table cells, deleting one, and the add/edit
    dialog's open state. */
module AdminSubs {
  import opened Common
  import opened Records
  import opened Snapshot
  import DashboardContext

  /** `(dashboardData?.users || []).filter(user => user.roleCode === 2)`. */
  function Subcontractors(data: Option<DashboardData>): (r: seq<User>)
    ensures forall u :: u in r <==> u in UsersOf(data) && u.roleCode == 2
  {
    Filter(UsersOf(data), (u: User) => u.roleCode == 2)
  }

  /** The search box: an empty term matches everyone, else the term is looked for in the
      lower-cased name, e-mail and company; a null company matches nothing. */
  predicate MatchesSearch(u: User, lowerTerm: string)
  {
    lowerTerm == ""
    || Contains(Lower(u.fullName), lowerTerm)
    || Contains(Lower(u.email), lowerTerm)
    || (u.companyName.Some? && Contains(Lower(u.companyName.value), lowerTerm))
  }

  /** A subcontractor is listed when it matches the trimmed, lower-cased term and the
      category select; one without a service only passes "all". */
  predicate Shown(u: User, term: string, category: Selector)
  {
    MatchesSearch(u, Trim(Lower(term))) && SelectsOption(category, u.serviceType)
  }

  /** `filteredUsers`. */
  function FilteredSubs(data: Option<DashboardData>, term: string, category: Selector): (r: seq<User>)
    ensures |r| <= |Subcontractors(data)|
    ensures forall u :: u in r <==> u in UsersOf(data) && u.roleCode == 2 && Shown(u, term, category)
  {
    Filter(Subcontractors(data), (u: User) => Shown(u, term, category))
  }

  /** A blank search box with "All Categories" lists every subcontractor. */
  lemma BlankSearchShowsAll(data: Option<DashboardData>, term: string)
    requires AllSpace(term)
    ensures FilteredSubs(data, term, All) == Subcontractors(data)
  {
    LowerKeepsSpace(term);
    TrimEmpty(Lower(term));
  }

  /** The search ignores letter case in the term. */
  lemma SearchIgnoresCase(u: User, term: string, category: Selector)
    ensures Shown(u, Lower(term), category) <==> Shown(u, term, category)
  {
    LowerIdempotent(term);
  }

  /** Picking a category lists exactly the subcontractors offering that service that
      match the search. */
  lemma PickCategory(data: Option<DashboardData>, term: string, id: int, u: User)
    ensures u in FilteredSubs(data, term, SelectorOf(Decimal(id))) <==>
              u in Subcontractors(data) && MatchesSearch(u, Trim(Lower(term))) && u.serviceType == Some(id)
  {
    PickOption(id, if u.serviceType.Some? then u.serviceType.value else 0);
  }

  /** What one row of the table shows. */
  datatype Row = Row(contact: string, email: string, company: string, phone: string, category: string)

  function SubRow(data: Option<DashboardData>, u: User): (r: Row)
    ensures r.contact == u.fullName && r.email == u.email
    ensures r.company == (if u.companyName.Some? && u.companyName.value != "" then u.companyName.value else "N/A")
    ensures r.phone == (if u.phone.Some? && u.phone.value != "" then u.phone.value else "N/A")
    ensures r.category == ServiceName(ServicesOf(data), u.serviceType, "Unknown")
  {
    Row(u.fullName, u.email, Or(OrBlank(u.companyName), "N/A"), Or(OrBlank(u.phone), "N/A"),
        ServiceName(ServicesOf(data), u.serviceType, "Unknown"))
  }

  /** A subcontractor whose service is not among the loaded services shows "Unknown". */
  lemma UnlistedServiceIsUnknown(data: Option<DashboardData>, u: User)
    requires forall s | s in ServicesOf(data) :: Some(s.id) != u.serviceType
    ensures SubRow(data, u).category == "Unknown"
  {
    assert forall i | 0 <= i < |ServicesOf(data)| :: ServicesOf(data)[i] in ServicesOf(data);
  }

  class Page {
    var subsOpen: bool
    var editSub: Option<User>

    constructor ()
      ensures !subsOpen && editSub.None?
    {
      subsOpen := false;
      editSub := None;
    }

    /** "Add New Subcontractor": opens the dialog with whatever is being edited, which
      closing always clears. */
    method HandleAdd()
      modifies this
      ensures subsOpen && editSub == old(editSub)
    {
      subsOpen := true;
    }

    /** "Update" on a row: edit that subcontractor in the dialog. */
    method HandleEdit(u: User)
      modifies this
      ensures subsOpen && editSub == Some(u)
    {
      editSub := Some(u);
      subsOpen := true;
    }

    /** `handleModalClose`: closing forgets the subcontractor being edited. */
    method HandleModalClose(open: bool)
      modifies this
      ensures subsOpen == open
      ensures !open ==> editSub.None?
      ensures open ==> editSub == old(editSub)
    {
      if !open {
        editSub := None;
      }
      subsOpen := open;
    }

    /** `handleDelete`. A declined confirmation sends nothing. A `success` answer
      removes the users with that id from a loaded snapshot and shows the success
      notice whether or not a snapshot was loaded; any other answer, or an error,
      keeps the snapshot and raises an alert. */
    method HandleDelete(store: DashboardContext.DashboardStore, auth: Option<Session>, id: int, confirmed: bool,
                        reply: DeleteReply)
      returns (sent: Option<DeleteRequest>, notice: Notice)
      modifies store
      ensures store.isFetching == old(store.isFetching)
      ensures !confirmed ==> sent.None? && notice == Silent && store.data == old(store.data)
      ensures confirmed ==> sent == Some(DeleteUserRequest(id, auth))
      ensures confirmed && reply == DeleteAnswered(true) ==>
                notice == Toasted(Toast("Subcontractor deleted", "Subcontractor removed successfully."))
                && store.data == (if old(store.data).None? then None
                                  else Some(old(store.data).value.(users :=
                                    RemoveById(old(store.data).value.users, UserId, id))))
      ensures confirmed && reply == DeleteAnswered(false) ==>
                notice == Alerted("Failed to delete subcontractor.") && store.data == old(store.data)
      ensures confirmed && reply == DeleteThrew ==>
                notice == Alerted("Error deleting subcontractor.") && store.data == old(store.data)
    {
      if !confirmed {
        return None, Silent;
      }
      sent := Some(DeleteUserRequest(id, auth));
      match reply {
        case DeleteAnswered(success) =>
          if success {
            if store.data.Some? {
              var d := store.data.value;
              store.SetData(Some(d.(users := RemoveById(d.users, UserId, id))));
            }
            notice := Toasted(Toast("Subcontractor deleted", "Subcontractor removed successfully."));
          } else {
            notice := Alerted("Failed to delete subcontractor.");
          }
        case DeleteThrew =>
          notice := Alerted("Error deleting subcontractor.");
      }
    }
  }
}
