/** The subcontractor's home page: the maintenance tasks assigned to the signed-in
    subcontractor and the cells of their table. */
module SubsHome {
  import opened Common
  import opened Records
  import opened Dates

  /** `task.subcontractor === auth?.id`: without a session the id is undefined, which
      no task's (number or null) subcontractor equals. */
  predicate AssignedTo(t: Maintenance, auth: Option<Session>)
  {
    auth.Some? && t.subcontractor == Some(auth.value.id)
  }

  /** `assignedTasks`. */
  function AssignedTasks(data: Option<DashboardData>, auth: Option<Session>): (r: seq<Maintenance>)
    ensures |r| <= |TasksOf(data)|
    ensures forall t :: t in r <==> t in TasksOf(data) && AssignedTo(t, auth)
  {
    Filter(TasksOf(data), t => AssignedTo(t, auth))
  }

  /** Without a session the page lists no task; with one it lists exactly the tasks
      whose subcontractor is the signed-in user, in snapshot order. */
  lemma NoSessionNoTasks(data: Option<DashboardData>)
    ensures AssignedTasks(data, None) == []
  {
  }

  /** The empty state replaces the table exactly when nothing is assigned. */
  function EmptyNotice(data: Option<DashboardData>, auth: Option<Session>): (r: Option<string>)
    ensures r.Some? <==> forall t | t in TasksOf(data) :: !AssignedTo(t, auth)
    ensures r.Some? ==> r.value == "No maintenance tasks assigned."
  {
    var mine := AssignedTasks(data, auth);
    if |mine| == 0 then Some("No maintenance tasks assigned.")
    else
      assert mine[0] in mine;
      None
  }

  /** What one row of the table shows. */
  datatype Row = Row(task: string, building: string, block: string, category: string, status: string,
                     dueTo: string, createdAt: string)

  function TaskRow(data: Option<DashboardData>, t: Maintenance): (r: Row)
    ensures r.task == t.task
    ensures r.building == BuildingName(BuildingsOf(data), t.buildingId, "Unknown")
    ensures r.block == BlockName(BlocksOf(data), t.blockId, "Unknown")
    ensures r.category == ServiceName(ServicesOf(data), Some(t.category), "Unknown")
    ensures r.status == StatusLabel(t.status)
    ensures r.dueTo == "-" <==> t.dueTo == "" || ParseIso(t.dueTo).None?
    ensures r.createdAt == "-" <==> t.createdAt == "" || ParseIso(t.createdAt).None?
  {
    Row(t.task,
        BuildingName(BuildingsOf(data), t.buildingId, "Unknown"),
        BlockName(BlocksOf(data), t.blockId, "Unknown"),
        ServiceName(ServicesOf(data), Some(t.category), "Unknown"),
        StatusLabel(t.status),
        FormatDate(t.dueTo),
        FormatDate(t.createdAt))
  }

  /** A due date stored as an ISO calendar date shows as that date in dd/MM/yyyy. */
  lemma DueDateShown(data: Option<DashboardData>, t: Maintenance, d: Date)
    requires 0 <= d.year < 10000 && ValidDate(d)
    requires t.dueTo == IsoDate(d)
    ensures TaskRow(data, t).dueTo == FormatDmy(d)
  {
    FormatIsoDate(d);
  }
}
