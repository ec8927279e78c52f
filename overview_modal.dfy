/** The overview dialog the resident's home page opens from a bucket card: a count line
    and, per task, its building, block, due date, status badge and subcontractor. */
module OverviewModal {
  import opened Common
  import opened Records
  import opened Dates

  /** The caption's text after the count, for one task and for any other number. */
  const OneTask := " maintenance task found"
  const ManyTasks := " maintenance tasks found"

  /** `${tasks.length} maintenance ${tasks.length === 1 ? "task" : "tasks"} found`. */
  function Description(count: nat): (r: string)
    ensures count == 1 <==> r == "1" + OneTask
    ensures count != 1 ==> r == Decimal(count) + ManyTasks
    ensures |Decimal(count)| <= |r| && r[..|Decimal(count)|] == Decimal(count) && ToNumber(Decimal(count)) == Int(count)
  {
    DecimalRoundTrip(count);
    var n := Decimal(count);
    if count == 1 then
      n + OneTask
    else
      assert |n + ManyTasks| > |"1" + OneTask|;
      n + ManyTasks
  }

  /** The colour of the status badge. */
  datatype Badge = Green | Yellow | Red

  /** The badge is coloured from the stored status: "Completed" green, "In Progress"
      yellow, anything else (an empty status included) red. */
  function BadgeOf(status: string): (b: Badge)
    ensures b == Green <==> status == "Completed"
    ensures b == Yellow <==> status == "In Progress"
  {
    if status == "Completed" then Green else if status == "In Progress" then Yellow else Red
  }

  /** The badge agrees with the label shown inside it, although the one reads the raw
      status and the other `status || "Pending"`: a pending task is red. */
  lemma BadgeMatchesLabel(status: string)
    ensures BadgeOf(status) == Green <==> StatusLabel(status) == "Completed"
    ensures BadgeOf(status) == Yellow <==> StatusLabel(status) == "In Progress"
    ensures StatusLabel(status) == "Pending" ==> BadgeOf(status) == Red
  {
  }

  /** What one list item shows. */
  datatype Item = Item(task: string, building: string, block: string, dueTo: string, status: string,
                       badge: Badge, subcontractor: string)

  function TaskItem(data: Option<DashboardData>, t: Maintenance): (r: Item)
    ensures r.task == t.task
    ensures r.building == BuildingName(BuildingsOf(data), t.buildingId, "Unknown")
    ensures r.block == BlockName(BlocksOf(data), t.blockId, "Unknown")
    ensures r.dueTo == "-" <==> t.dueTo == "" || ParseIso(t.dueTo).None?
    ensures r.status == StatusLabel(t.status) && r.badge == BadgeOf(t.status)
    ensures r.subcontractor == UserName(UsersOf(data), t.subcontractor, "Unknown")
    ensures t.subcontractor.None? ==> r.subcontractor == "Unknown"
  {
    Item(t.task,
         BuildingName(BuildingsOf(data), t.buildingId, "Unknown"),
         BlockName(BlocksOf(data), t.blockId, "Unknown"),
         FormatDate(t.dueTo),
         StatusLabel(t.status),
         BadgeOf(t.status),
         UserName(UsersOf(data), t.subcontractor, "Unknown"))
  }

  /** The dialog's body: "No tasks available." for an empty list, else one item per
      task in the order given. */
  datatype Body = NoTasks | Items(items: seq<Item>)

  function BodyOf(data: Option<DashboardData>, tasks: seq<Maintenance>): (b: Body)
    ensures b.NoTasks? <==> tasks == []
    ensures b.Items? ==> |b.items| == |tasks| &&
                         forall i | 0 <= i < |tasks| :: b.items[i] == TaskItem(data, tasks[i])
  {
    if tasks == [] then NoTasks
    else Items(seq(|tasks|, i requires 0 <= i < |tasks| => TaskItem(data, tasks[i])))
  }
}
