/** The admin's maintenance table: the distinct sorted list of statuses for the status
    filter, the search and filters over the tasks, the table's columns, deleting a task,
    and the add/edit dialog's open state. */
module AdminMaintenance {
  import opened Common
  import opened Records
  import opened Dates
  import opened Snapshot
  import DashboardContext

  // ---------------------------------------------------------------------------
  // The status list

  /** Code-unit order on strings, the order of `Array.prototype.sort` without a
      comparator. */
  predicate LexLe(a: string, b: string)
    decreases |a|
  {
    a == [] || (b != [] && (a[0] < b[0] || (a[0] == b[0] && LexLe(a[1..], b[1..]))))
  }

  lemma {:induction false} LexLeTotal(a: string, b: string)
    ensures LexLe(a, b) || LexLe(b, a)
    decreases |a|
  {
    if a != [] && b != [] && a[0] == b[0] {
      LexLeTotal(a[1..], b[1..]);
    }
  }

  lemma {:induction false} LexLeAntisymmetric(a: string, b: string)
    requires LexLe(a, b) && LexLe(b, a)
    ensures a == b
    decreases |a|
  {
    if a != [] {
      LexLeAntisymmetric(a[1..], b[1..]);
      assert a == [a[0]] + a[1..] && b == [b[0]] + b[1..];
    }
  }

  lemma {:induction false} LexLeTransitive(a: string, b: string, c: string)
    requires LexLe(a, b) && LexLe(b, c)
    ensures LexLe(a, c)
    decreases |a|
  {
    if a != [] && a[0] == b[0] && b[0] == c[0] {
      LexLeTransitive(a[1..], b[1..], c[1..]);
    }
  }

  predicate Sorted(xs: seq<string>)
  {
    forall i, j | 0 <= i < j < |xs| :: LexLe(xs[i], xs[j])
  }

  predicate NoDuplicates(xs: seq<string>)
  {
    forall i, j | 0 <= i < j < |xs| :: xs[i] != xs[j]
  }

  /** `Array.from(new Set(xs))`: the first occurrence of every value, in order. */
  function Distinct(xs: seq<string>): (r: seq<string>)
    ensures NoDuplicates(r)
    ensures forall x :: x in r <==> x in xs
  {
    if xs == [] then []
    else
      var r := Distinct(xs[..|xs| - 1]);
      var x := xs[|xs| - 1];
      assert xs == xs[..|xs| - 1] + [x];
      if x in r then r else r + [x]
  }

  /** Puts `x` into a sorted list. */
  function Insert(x: string, s: seq<string>): (r: seq<string>)
    requires Sorted(s)
    ensures Sorted(r)
    ensures multiset(r) == multiset(s) + multiset{x}
  {
    if s == [] then [x]
    else if LexLe(x, s[0]) then
      assert forall j | 0 <= j < |s| :: LexLe(x, s[j]) by {
        forall j | 0 <= j < |s| ensures LexLe(x, s[j]) {
          if j > 0 {
            LexLeTransitive(x, s[0], s[j]);
          }
        }
      }
      [x] + s
    else
      var rest := Insert(x, s[1..]);
      LexLeTotal(x, s[0]);
      assert s == [s[0]] + s[1..];
      assert forall y | y in rest :: LexLe(s[0], y) by {
        forall y | y in rest ensures LexLe(s[0], y) {
          assert y in multiset(rest);
          if y != x {
            var j :| 0 <= j < |s[1..]| && s[1..][j] == y;
            assert s[j + 1] == y;
          }
        }
      }
      [s[0]] + rest
  }

  /** `.sort()`. */
  function Sort(xs: seq<string>): (r: seq<string>)
    ensures Sorted(r)
    ensures multiset(r) == multiset(xs)
  {
    if xs == [] then []
    else
      assert xs == [xs[0]] + xs[1..];
      Insert(xs[0], Sort(xs[1..]))
  }

  /** The labels `task.status || "Pending"` of the tasks, in order. */
  function StatusLabels(tasks: seq<Maintenance>): (r: seq<string>)
    ensures |r| == |tasks|
    ensures forall i | 0 <= i < |tasks| :: r[i] == StatusLabel(tasks[i].status)
  {
    seq(|tasks|, i requires 0 <= i < |tasks| => StatusLabel(tasks[i].status))
  }

  /** `allStatuses`: every status the tasks show (an empty one as "Pending"), once each,
      in ascending order. `.filter(Boolean)` removes nothing, as no label is empty. */
  function AllStatuses(tasks: seq<Maintenance>): (r: seq<string>)
    ensures Sorted(r) && NoDuplicates(r)
    ensures forall s :: s in r <==> exists i | 0 <= i < |tasks| :: StatusLabel(tasks[i].status) == s
    ensures "" !in r
  {
    var labels := StatusLabels(tasks);
    SortKeepsDistinct(Distinct(labels));
    assert forall s :: s in labels <==> exists i | 0 <= i < |tasks| :: labels[i] == s;
    Sort(Distinct(labels))
  }

  /** Sorting a list without duplicates keeps its values and adds no duplicate. */
  lemma SortKeepsDistinct(xs: seq<string>)
    requires NoDuplicates(xs)
    ensures NoDuplicates(Sort(xs))
    ensures forall s :: s in Sort(xs) <==> s in xs
  {
    var r := Sort(xs);
    assert forall s :: s in r <==> s in multiset(xs) by {
      assert forall s :: s in r <==> s in multiset(r);
    }
    forall i, j | 0 <= i < j < |r| ensures r[i] != r[j] {
      DistinctCounts(xs, r[i]);
      OnceMeansDistinct(r, i, j);
    }
  }

  /** A value counted once by the multiset of a list occurs at one index only. */
  lemma OnceMeansDistinct(r: seq<string>, i: int, j: int)
    requires 0 <= i < j < |r| && multiset(r)[r[i]] <= 1
    ensures r[i] != r[j]
  {
    assert r == r[..i] + [r[i]] + r[i + 1..j] + [r[j]] + r[j + 1..];
  }

  /** A list without duplicates holds each value at most once. */
  lemma {:induction false} DistinctCounts(xs: seq<string>, x: string)
    requires NoDuplicates(xs)
    ensures multiset(xs)[x] <= 1
  {
    if xs != [] {
      var init := xs[..|xs| - 1];
      assert xs == init + [xs[|xs| - 1]];
      assert NoDuplicates(init);
      DistinctCounts(init, x);
      assert forall k | 0 <= k < |init| :: init[k] == xs[k] && xs[k] != xs[|xs| - 1];
    }
  }

  // ---------------------------------------------------------------------------
  // Search and filters

  /** The search box: an empty (trimmed, lower-cased) term matches everything, else the
      term is looked for in the lower-cased task text, status label and comment; a null
      comment matches nothing. */
  predicate MatchesSearch(t: Maintenance, lowerTerm: string)
  {
    lowerTerm == ""
    || Contains(Lower(t.task), lowerTerm)
    || Contains(Lower(StatusLabel(t.status)), lowerTerm)
    || (t.comment.Some? && Contains(Lower(t.comment.value), lowerTerm))
  }

  /** A task is shown when it matches the search, the category, the block and the
      status filter; "all" lets every value through. */
  predicate Shown(t: Maintenance, term: string, category: Selector, block: Selector, status: string)
  {
    MatchesSearch(t, Trim(Lower(term)))
    && Selects(category, t.category)
    && Selects(block, t.blockId)
    && (status == "all" || StatusLabel(t.status) == status)
  }

  /** `filteredTasks`. */
  function FilteredTasks(tasks: seq<Maintenance>, term: string, category: Selector, block: Selector,
                         status: string): (r: seq<Maintenance>)
    ensures |r| <= |tasks|
    ensures forall t :: t in r <==> t in tasks && Shown(t, term, category, block, status)
  {
    Filter(tasks, t => Shown(t, term, category, block, status))
  }

  /** With a blank search box and every filter on "all" the whole list is shown. */
  lemma BlankSearchShowsAll(tasks: seq<Maintenance>, term: string)
    requires AllSpace(term)
    ensures FilteredTasks(tasks, term, All, All, "all") == tasks
  {
    LowerKeepsSpace(term);
    TrimEmpty(Lower(term));
  }

  /** The search ignores letter case in the term. */
  lemma SearchIgnoresCase(t: Maintenance, term: string, category: Selector, block: Selector, status: string)
    ensures Shown(t, Lower(term), category, block, status) <==> Shown(t, term, category, block, status)
  {
    LowerIdempotent(term);
  }

  /** A task with an empty status is filed under "Pending" by the status filter. */
  lemma EmptyStatusIsPending(t: Maintenance, term: string, category: Selector, block: Selector)
    requires t.status == ""
    ensures Shown(t, term, category, block, "Pending") <==> Shown(t, term, category, block, "all")
  {
  }

  // ---------------------------------------------------------------------------
  // The table

  /** What one row of the table shows besides the task text. */
  datatype Row = Row(building: string, block: string, category: string, subcontractor: string,
                     status: string, dueTo: string, createdAt: string)

  function TaskRow(data: Option<DashboardData>, t: Maintenance): (r: Row)
    ensures r.building == BuildingName(BuildingsOf(data), t.buildingId, "Unknown")
    ensures r.block == BlockName(BlocksOf(data), t.blockId, "Unknown")
    ensures r.category == ServiceName(ServicesOf(data), Some(t.category), "Unknown")
    ensures r.subcontractor == UserName(UsersOf(data), t.subcontractor, "None")
    ensures r.subcontractor == "None" || exists u | u in UsersOf(data) :: Some(u.id) == t.subcontractor
    ensures r.status == StatusLabel(t.status)
    ensures r.dueTo == "-" <==> t.dueTo == "" || ParseIso(t.dueTo).None?
    ensures r.createdAt == "-" <==> t.createdAt == "" || ParseIso(t.createdAt).None?
  {
    Row(BuildingName(BuildingsOf(data), t.buildingId, "Unknown"),
        BlockName(BlocksOf(data), t.blockId, "Unknown"),
        ServiceName(ServicesOf(data), Some(t.category), "Unknown"),
        UserName(UsersOf(data), t.subcontractor, "None"),
        StatusLabel(t.status),
        FormatDate(t.dueTo),
        FormatDate(t.createdAt))
  }

  class Page {
    var modalOpen: bool
    var editTask: Option<Maintenance>

    constructor ()
      ensures !modalOpen && editTask.None?
    {
      modalOpen := false;
      editTask := None;
    }

    /** "Add New Maintenance Task": opens the dialog with whatever is being edited,
      which closing always clears. */
    method HandleAdd()
      modifies this
      ensures modalOpen && editTask == old(editTask)
    {
      modalOpen := true;
    }

    /** "Update" on a row: edit that task in the dialog. */
    method HandleEdit(t: Maintenance)
      modifies this
      ensures modalOpen && editTask == Some(t)
    {
      editTask := Some(t);
      modalOpen := true;
    }

    /** `handleModalClose`: closing forgets the task being edited. */
    method HandleModalClose(open: bool)
      modifies this
      ensures modalOpen == open
      ensures !open ==> editTask.None?
      ensures open ==> editTask == old(editTask)
    {
      if !open {
        editTask := None;
      }
      modalOpen := open;
    }

    /** `handleDelete`. A declined confirmation sends nothing. A `success` answer
      removes the tasks with that id from a loaded snapshot; any other answer, or an
      error, leaves the snapshot alone and raises an alert. */
    method HandleDelete(store: DashboardContext.DashboardStore, auth: Option<Session>, id: int, confirmed: bool,
                        reply: DeleteReply)
      returns (sent: Option<DeleteRequest>, notice: Notice)
      modifies store
      ensures store.isFetching == old(store.isFetching)
      ensures !confirmed ==> sent.None? && notice == Silent && store.data == old(store.data)
      ensures confirmed ==>
                sent == Some(DeleteRequest("/admin/deleteMaintenance/" + Decimal(id), Bearer(auth)))
      ensures confirmed && reply == DeleteAnswered(true) ==>
                notice == Toasted(Toast("Maintenance deleted", "Maintenance task removed successfully."))
                && store.data == (if old(store.data).None? then None
                                  else Some(old(store.data).value.(maintenance :=
                                    RemoveById(old(store.data).value.maintenance, TaskId, id))))
      ensures confirmed && reply == DeleteAnswered(false) ==>
                notice == Alerted("Failed to delete maintenance task.") && store.data == old(store.data)
      ensures confirmed && reply == DeleteThrew ==>
                notice == Alerted("Error deleting maintenance task.") && store.data == old(store.data)
    {
      if !confirmed {
        return None, Silent;
      }
      sent := Some(DeleteRequest("/admin/deleteMaintenance/" + Decimal(id), Bearer(auth)));
      match reply {
        case DeleteAnswered(success) =>
          if success {
            if store.data.Some? {
              var d := store.data.value;
              store.SetData(Some(d.(maintenance := RemoveById(d.maintenance, TaskId, id))));
            }
            notice := Toasted(Toast("Maintenance deleted", "Maintenance task removed successfully."));
          } else {
            notice := Alerted("Failed to delete maintenance task.");
          }
        case DeleteThrew =>
          notice := Alerted("Error deleting maintenance task.");
      }
    }
  }
}
