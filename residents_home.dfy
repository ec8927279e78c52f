/** The resident's home page: the tasks of the resident's block, the three cards (past
    due, due this month, due next month) and the stacked bar chart of the current year,
    one bar per month split into Pending, In Progress and Completed. `now` is a parameter. */
module ResidentsHome {
  import opened Common
  import opened Records
  import opened Dates

  /** `task.blockId === auth?.blockId`: a missing session or block matches nothing. */
  predicate InBlock(t: Maintenance, auth: Option<Session>)
  {
    auth.Some? && auth.value.blockId == Some(t.blockId)
  }

  /** The tasks every card and the chart work from. */
  function BlockTasks(data: Option<DashboardData>, auth: Option<Session>): (r: seq<Maintenance>)
    ensures forall t :: t in r <==> t in TasksOf(data) && InBlock(t, auth)
  {
    Filter(TasksOf(data), t => InBlock(t, auth))
  }

  /** The line under the title: the name of the first block carrying the session's block
      id, or nothing when there is no session or no such block. */
  function BlockHeading(data: Option<DashboardData>, auth: Option<Session>): (r: Option<string>)
    ensures r.Some? <==> auth.Some? && exists i | 0 <= i < |BlocksOf(data)| :: Some(BlocksOf(data)[i].id) == auth.value.blockId
    ensures r.Some? ==> exists i | 0 <= i < |BlocksOf(data)| ::
              Some(BlocksOf(data)[i].id) == auth.value.blockId && BlocksOf(data)[i].name == r.value
  {
    var found := Find(BlocksOf(data), (b: Block) => auth.Some? && Some(b.id) == auth.value.blockId);
    if found.Some? then Some(found.value.name) else None
  }

  /** The due moment `parseISO(task.dueTo)`, absent when `dueTo` is empty or invalid. */
  function Due(t: Maintenance): Option<Moment>
  {
    if t.dueTo == "" then None else ParseIso(t.dueTo)
  }

  predicate IsPastDue(t: Maintenance, now: Moment)
  {
    Due(t).Some? && Before(Due(t).value, now) && t.status != "Completed"
  }

  predicate IsDueThisMonth(t: Maintenance, now: Moment)
  {
    Due(t).Some? && SameMonth(Due(t).value.date, now.date)
  }

  predicate IsDueNextMonth(t: Maintenance, now: Moment)
    requires ValidMoment(now)
  {
    Due(t).Some? && SameMonth(Due(t).value.date, AddMonth(now.date))
  }

  function PastDue(tasks: seq<Maintenance>, now: Moment): (r: seq<Maintenance>)
    ensures |r| <= |tasks|
    ensures forall t | t in r :: t in tasks && t.dueTo != "" && t.status != "Completed"
  {
    Filter(tasks, t => IsPastDue(t, now))
  }

  function DueThisMonth(tasks: seq<Maintenance>, now: Moment): (r: seq<Maintenance>)
    ensures |r| <= |tasks|
    ensures forall t | t in r :: t in tasks && t.dueTo != ""
  {
    Filter(tasks, t => IsDueThisMonth(t, now))
  }

  function DueNextMonth(tasks: seq<Maintenance>, now: Moment): (r: seq<Maintenance>)
    requires ValidMoment(now)
    ensures |r| <= |tasks|
    ensures forall t | t in r :: t in tasks && t.dueTo != ""
  {
    Filter(tasks, t => IsDueNextMonth(t, now))
  }

  /** Every card lists only tasks of the resident's block. */
  lemma CardsStayInBlock(data: Option<DashboardData>, auth: Option<Session>, now: Moment)
    requires ValidMoment(now)
    ensures forall t | t in PastDue(BlockTasks(data, auth), now) :: InBlock(t, auth)
    ensures forall t | t in DueThisMonth(BlockTasks(data, auth), now) :: InBlock(t, auth)
    ensures forall t | t in DueNextMonth(BlockTasks(data, auth), now) :: InBlock(t, auth)
  {
  }

  /** A task is past due exactly when it has a due date before now and is not
      Completed. */
  lemma PastDueMembers(tasks: seq<Maintenance>, now: Moment, t: Maintenance)
    ensures t in PastDue(tasks, now) <==>
              t in tasks && t.dueTo != "" && ParseIso(t.dueTo).Some?
              && Before(ParseIso(t.dueTo).value, now) && t.status != "Completed"
  {
  }

  /** A task is due this month exactly when it has a due date in now's calendar month,
      whatever its status. */
  lemma DueThisMonthMembers(tasks: seq<Maintenance>, now: Moment, t: Maintenance)
    ensures t in DueThisMonth(tasks, now) <==>
              t in tasks && t.dueTo != "" && ParseIso(t.dueTo).Some?
              && ParseIso(t.dueTo).value.date.year == now.date.year
              && ParseIso(t.dueTo).value.date.month == now.date.month
  {
  }

  /** "Due next month" is the calendar month after now's, whatever now's day: in
      December that is January of the next year. */
  lemma NextMonthIsFollowingMonth(t: Maintenance, now: Moment)
    requires ValidMoment(now)
    ensures IsDueNextMonth(t, now) <==>
              Due(t).Some?
              && Due(t).value.date.year * 12 + Due(t).value.date.month == now.date.year * 12 + now.date.month + 1
  {
    var n := AddMonth(now.date);
    if Due(t).Some? {
      var d := Due(t).value.date;
      assert 1 <= d.month <= 12;
      if d.year * 12 + d.month == n.year * 12 + n.month {
        assert d.year == n.year;
      }
    }
  }

  lemma DecemberRollsOver(t: Maintenance, now: Moment)
    requires ValidMoment(now) && now.date.month == 12
    ensures IsDueNextMonth(t, now) <==>
              Due(t).Some? && Due(t).value.date.year == now.date.year + 1 && Due(t).value.date.month == 1
  {
    NextMonthIsFollowingMonth(t, now);
  }

  /** The cards may overlap: a task left open since the first of the month is both past
      due and due this month, because "due this month" does not look at the status. */
  lemma PastDueCanBeDueThisMonth(t: Maintenance, now: Moment)
    requires ValidMoment(now) && 0 <= now.date.year < 10000 && now.date.day > 1
    requires t.dueTo == IsoDate(Date(now.date.year, now.date.month, 1))
    requires t.status != "Completed"
    ensures IsPastDue(t, now) && IsDueThisMonth(t, now)
  {
    IsoDateRoundTrip(Date(now.date.year, now.date.month, 1));
  }

  // ---------------------------------------------------------------------------
  // The chart

  /** One bar of the chart. */
  datatype Counts = Counts(pending: nat, inProgress: nat, completed: nat)

  const NoCounts := Counts(0, 0, 0)

  function CountsTotal(c: Counts): nat { c.pending + c.inProgress + c.completed }

  /** `isValidStatus`. */
  predicate IsValidStatus(status: string)
  {
    status in ["Pending", "In Progress", "Completed"]
  }

  /** The stack a task's status goes to: `task.status || "Pending"`, and Pending for any
      status that is not one of the three. 0 Pending, 1 In Progress, 2 Completed. */
  function Stack(status: string): (k: nat)
    ensures k < 3
    ensures k == 1 <==> status == "In Progress"
    ensures k == 2 <==> status == "Completed"
  {
    var s := Or(status, "Pending");
    if IsValidStatus(s) && s == "In Progress" then 1
    else if IsValidStatus(s) && s == "Completed" then 2
    else 0
  }

  /** The bar with one more task in stack `k`. */
  function Bump(c: Counts, k: nat): (r: Counts)
    requires k < 3
    ensures CountsTotal(r) == CountsTotal(c) + 1
  {
    if k == 0 then c.(pending := c.pending + 1)
    else if k == 1 then c.(inProgress := c.inProgress + 1)
    else c.(completed := c.completed + 1)
  }

  /** The stack `k` of a bar. */
  function Cell(c: Counts, k: nat): nat
    requires k < 3
  {
    if k == 0 then c.pending else if k == 1 then c.inProgress else c.completed
  }

  /** The month index (0 for January) a task is counted in, or none: a task with no due
      date, an Invalid Date, or a due year other than `year` is not counted. */
  function ChartMonth(t: Maintenance, year: int): (m: Option<nat>)
    ensures m.Some? ==> m.value < 12 && Due(t).Some? && Due(t).value.date.year == year
                        && m.value == Due(t).value.date.month - 1
    ensures m.None? ==> Due(t).None? || Due(t).value.date.year != year
  {
    match Due(t)
    case None => None
    case Some(d) => if d.date.year == year then Some(d.date.month - 1) else None
  }

  /** The chart after the tasks of `ts` have been counted, in order, for `year`. */
  function Tally(ts: seq<Maintenance>, year: int): (r: seq<Counts>)
    ensures |r| == 12
  {
    if ts == [] then seq(12, _ => NoCounts)
    else
      var r := Tally(ts[..|ts| - 1], year);
      var t := ts[|ts| - 1];
      match ChartMonth(t, year)
      case None => r
      case Some(m) => r[m := Bump(r[m], Stack(t.status))]
  }

  /** Building the chart: twelve empty bars, then each task of the current year adds one
      to the stack of its status in the bar of its month, in place. */
  method BuildChart(tasks: seq<Maintenance>, now: Moment) returns (chart: seq<Counts>)
    ensures chart == Tally(tasks, now.date.year)
  {
    var year := now.date.year;
    var bars := new Counts[12](_ => NoCounts);
    var i := 0;
    while i < |tasks|
      invariant 0 <= i <= |tasks|
      invariant bars[..] == Tally(tasks[..i], year)
    {
      var t := tasks[i];
      assert tasks[..i + 1][..i] == tasks[..i];
      match ChartMonth(t, year) {
        case None =>
        case Some(m) =>
          bars[m] := Bump(bars[m], Stack(t.status));
      }
      i := i + 1;
    }
    assert tasks[..i] == tasks;
    chart := bars[..];
  }

  /** The chart has twelve bars and nothing in them before any task is counted. */
  lemma EmptyChart(year: int)
    ensures Tally([], year) == seq(12, _ => NoCounts)
    ensures forall m | 0 <= m < 12 :: CountsTotal(Tally([], year)[m]) == 0
  {
  }

  /** A task that is not counted leaves the chart as it was. */
  lemma UncountedLeavesChart(ts: seq<Maintenance>, t: Maintenance, year: int)
    requires t.dueTo == "" || Due(t).None? || Due(t).value.date.year != year
    ensures Tally(ts + [t], year) == Tally(ts, year)
  {
    assert (ts + [t])[..|ts|] == ts;
  }

  /** Stack `k` of bar `m` counts exactly the tasks due in month `m + 1` of `year` whose
      status goes to stack `k`. */
  lemma {:induction false} ChartCell(ts: seq<Maintenance>, year: int, m: nat, k: nat)
    requires m < 12 && k < 3
    ensures Cell(Tally(ts, year)[m], k)
         == |Filter(ts, t => ChartMonth(t, year) == Some(m) && Stack(t.status) == k)|
  {
    var p := t => ChartMonth(t, year) == Some(m) && Stack(t.status) == k;
    if ts != [] {
      var init := ts[..|ts| - 1];
      var t := ts[|ts| - 1];
      assert ts == init + [t];
      FilterSnoc(init, t, p);
      ChartCell(init, year, m, k);
      CellStep(ts, year, m, k);
    }
  }

  /** Counting one more task adds one to stack `k` of bar `m` exactly when the task
      goes there. */
  lemma CellStep(ts: seq<Maintenance>, year: int, m: nat, k: nat)
    requires ts != [] && m < 12 && k < 3
    ensures var t := ts[|ts| - 1];
            Cell(Tally(ts, year)[m], k)
            == Cell(Tally(ts[..|ts| - 1], year)[m], k)
               + (if ChartMonth(t, year) == Some(m) && Stack(t.status) == k then 1 else 0)
  {
    var t := ts[|ts| - 1];
    var r := Tally(ts[..|ts| - 1], year);
    var j := Stack(t.status);
    match ChartMonth(t, year) {
      case None =>
        assert Tally(ts, year) == r;
      case Some(n) =>
        assert Tally(ts, year) == r[n := Bump(r[n], j)];
        BumpCell(r[n], j, k);
    }
  }

  /** Bumping stack `j` adds one to that stack and leaves the others. */
  lemma BumpCell(c: Counts, j: nat, k: nat)
    requires j < 3 && k < 3
    ensures Cell(Bump(c, j), k) == Cell(c, k) + (if j == k then 1 else 0)
  {
  }

  function Sum(bars: seq<Counts>): nat
  {
    if bars == [] then 0 else Sum(bars[..|bars| - 1]) + CountsTotal(bars[|bars| - 1])
  }

  /** Adding one to a bar adds one to the chart's sum. */
  lemma {:induction false} SumBump(bars: seq<Counts>, m: nat, c: Counts)
    requires m < |bars| && CountsTotal(c) == CountsTotal(bars[m]) + 1
    ensures Sum(bars[m := c]) == Sum(bars) + 1
  {
    var n := |bars| - 1;
    assert bars[m := c][..n] == if m < n then bars[..n][m := c] else bars[..n];
    if m < n {
      SumBump(bars[..n], m, c);
    }
  }

  /** The bars add up to the number of tasks with a due date in `year`: every counted
      task lands in exactly one stack of one bar. */
  lemma {:induction false} ChartTotal(ts: seq<Maintenance>, year: int)
    ensures Sum(Tally(ts, year)) == |Filter(ts, t => ChartMonth(t, year).Some?)|
  {
    var p := t => ChartMonth(t, year).Some?;
    if ts == [] {
      var zero := seq(12, _ => NoCounts);
      assert forall n | 0 <= n <= 12 :: Sum(zero[..n]) == 0 by {
        forall n | 0 <= n <= 12 ensures Sum(zero[..n]) == 0 {
          ZeroPrefix(zero, n);
        }
      }
      assert zero[..12] == zero;
    } else {
      var init := ts[..|ts| - 1];
      var t := ts[|ts| - 1];
      assert ts == init + [t];
      FilterSnoc(init, t, p);
      ChartTotal(init, year);
      match ChartMonth(t, year) {
        case None =>
        case Some(m) =>
          var r := Tally(init, year);
          SumBump(r, m, Bump(r[m], Stack(t.status)));
      }
    }
  }

  lemma {:induction false} ZeroPrefix(zero: seq<Counts>, n: nat)
    requires forall i | 0 <= i < |zero| :: zero[i] == NoCounts
    requires n <= |zero|
    ensures Sum(zero[..n]) == 0
  {
    if n > 0 {
      assert zero[..n][..n - 1] == zero[..n - 1];
      ZeroPrefix(zero, n - 1);
    }
  }

  /** The page's modal: which card was clicked and the tasks it lists. */
  class HomePage {
    var modalOpen: bool
    var modalTitle: string
    var modalTasks: seq<Maintenance>

    constructor ()
      ensures !modalOpen && modalTitle == "" && modalTasks == []
    {
      modalOpen := false;
      modalTitle := "";
      modalTasks := [];
    }

    /** A card with no tasks does nothing; otherwise the modal opens on its title and
      tasks. */
    method HandleCardClick(title: string, tasks: seq<Maintenance>)
      modifies this
      ensures tasks == [] ==> modalOpen == old(modalOpen) && modalTitle == old(modalTitle)
                              && modalTasks == old(modalTasks)
      ensures tasks != [] ==> modalOpen && modalTitle == title && modalTasks == tasks
    {
      if |tasks| == 0 {
        return;
      }
      modalTitle := title;
      modalTasks := tasks;
      modalOpen := true;
    }
  }
}
