/** The dialog that adds or edits a maintenance task: its form state, seeded from the
    task being edited or reset for a new one; the change handler; the subcontractors
    offered for the chosen category; the checks run before saving; and the patch of
    the snapshot's task list once the backend has saved. */
module MaintenanceModal {
  import opened Common
  import opened Records
  import opened Snapshot
  import DashboardContext

  /** The form. `blockId`, `subcontractor` and `category` are typed `number | ""`; the
      building is always the session's. */
  datatype TaskForm = TaskForm(
    id: Option<int>,
    task: string,
    buildingId: int,
    blockId: Field,
    subcontractor: Field,
    category: Field,
    status: string,
    comment: string,
    dueTo: string)

  /** `auth?.buildingId || 0`. */
  function SessionBuilding(auth: Option<Session>): (b: int)
    ensures auth.Some? && auth.value.buildingId.Some? ==> b == auth.value.buildingId.value
    ensures auth.None? || auth.value.buildingId.None? ==> b == 0
  {
    if auth.Some? && auth.value.buildingId.Some? then auth.value.buildingId.value else 0
  }

  /** `initialFormState`: status Pending, the session's building, everything else empty. */
  function InitialForm(auth: Option<Session>): (f: TaskForm)
    ensures f.id.None? && f.task == "" && f.comment == "" && f.dueTo == ""
    ensures f.blockId == Blank && f.subcontractor == Blank && f.category == Blank
    ensures f.status == "Pending" && f.buildingId == SessionBuilding(auth)
  {
    TaskForm(None, "", SessionBuilding(auth), Blank, Blank, Blank, "Pending", "", "")
  }

  /** The form for editing `t`: its own fields, a null subcontractor or comment as "",
      and the session's building. */
  function EditForm(t: Maintenance, auth: Option<Session>): (f: TaskForm)
    ensures f.id == Some(t.id) && f.task == t.task && f.status == t.status && f.dueTo == t.dueTo
    ensures f.blockId == Number(Int(t.blockId)) && f.category == Number(Int(t.category))
    ensures f.subcontractor == Blank <==> t.subcontractor.None?
    ensures t.subcontractor.Some? ==> NumberOf(f.subcontractor) == Int(t.subcontractor.value)
    ensures f.comment == OrBlank(t.comment)
    ensures f.buildingId == SessionBuilding(auth)
  {
    TaskForm(Some(t.id), t.task, SessionBuilding(auth), Number(Int(t.blockId)),
             IdOrEmpty(t.subcontractor), Number(Int(t.category)), t.status, OrBlank(t.comment), t.dueTo)
  }

  /** The form the open/edit effect installs. */
  function SeededForm(open: bool, editing: Option<Maintenance>, auth: Option<Session>): (f: TaskForm)
    ensures !open || editing.None? ==> f == InitialForm(auth)
    ensures open && editing.Some? ==> f == EditForm(editing.value, auth)
  {
    if !open then InitialForm(auth)
    else if editing.Some? then EditForm(editing.value, auth)
    else InitialForm(auth)
  }

  /** `handleChange`: only a control of type "number" coerces ("" stays "", anything
      else goes through `Number`); every other control stores its raw string. The
      building control is read-only and has no handler, so a change names one of the
      other slots; any other name leaves the form alone. */
  function Change(form: TaskForm, name: string, inputType: string, value: string): (r: TaskForm)
    ensures name == "blockId" ==>
              r == form.(blockId := if inputType == "number" then Coerce(value) else Text(value))
    ensures name == "subcontractor" ==>
              r == form.(subcontractor := if inputType == "number" then Coerce(value) else Text(value))
    ensures name == "category" ==>
              r == form.(category := if inputType == "number" then Coerce(value) else Text(value))
    ensures name == "task" ==> r == form.(task := value)
    ensures name == "status" ==> r == form.(status := value)
    ensures name == "comment" ==> r == form.(comment := value)
    ensures name == "dueTo" ==> r == form.(dueTo := value)
    ensures name !in {"blockId", "subcontractor", "category", "task", "status", "comment", "dueTo"} ==> r == form
  {
    var slot := if inputType == "number" then Coerce(value) else Text(value);
    if name == "blockId" then form.(blockId := slot)
    else if name == "subcontractor" then form.(subcontractor := slot)
    else if name == "category" then form.(category := slot)
    else if name == "task" then form.(task := value)
    else if name == "status" then form.(status := value)
    else if name == "comment" then form.(comment := value)
    else if name == "dueTo" then form.(dueTo := value)
    else form
  }

  /** The selects of the dialog are of type "select-one": choosing a block stores the
      option's text, and `Number` of it reads the block id back. */
  lemma SelectKeepsText(form: TaskForm, id: int)
    ensures Change(form, "blockId", "select-one", Decimal(id)).blockId == Text(Decimal(id))
    ensures NumberOf(Change(form, "blockId", "select-one", Decimal(id)).blockId) == Int(id)
  {
    DecimalRoundTrip(id);
  }

  /** A subcontractor qualifies for the category slot: role 2 and `serviceType ===
      Number(category)`; a null service type and a NaN category match nothing. */
  predicate ServesCategory(u: User, category: Field)
  {
    u.roleCode == 2 && u.serviceType.Some? && NumberOf(category) == Int(u.serviceType.value)
  }

  /** `filteredSubs`. */
  function FilteredSubs(data: Option<DashboardData>, category: Field): (r: seq<User>)
    ensures forall u :: u in r <==> u in UsersOf(data) && ServesCategory(u, category)
  {
    Filter(Filter(UsersOf(data), (u: User) => u.roleCode == 2), (u: User) => ServesCategory(u, category))
  }

  /** The blocks the block selector offers: those of the form's building. */
  function BlockChoices(data: Option<DashboardData>, buildingId: int): (r: seq<Block>)
    ensures forall b :: b in r <==> b in BlocksOf(data) && b.buildingId == buildingId
  {
    Filter(BlocksOf(data), (b: Block) => b.buildingId == buildingId)
  }

  /** The result of the checks, first failure first. */
  datatype Check = Passed | TaskMissing | BlockMissing | CategoryMissing | BadStatus

  predicate IsTaskStatus(s: string) { s in ["Pending", "In Progress", "Completed"] }

  function CheckForm(form: TaskForm): (c: Check)
    ensures c == Passed <==>
              Trim(form.task) != "" && form.blockId != Blank && form.category != Blank
              && IsTaskStatus(form.status)
    ensures c == TaskMissing <==> Trim(form.task) == ""
    ensures c == BlockMissing <==> Trim(form.task) != "" && form.blockId == Blank
    ensures c == CategoryMissing <==>
              Trim(form.task) != "" && form.blockId != Blank && form.category == Blank
  {
    if Trim(form.task) == "" then TaskMissing
    else if form.blockId == Blank then BlockMissing
    else if form.category == Blank then CategoryMissing
    else if !IsTaskStatus(form.status) then BadStatus
    else Passed
  }

  /** The notice a failed check shows. */
  function CheckToast(c: Check): Toast
  {
    match c
    case TaskMissing => Toast("Task required", "Please enter a maintenance task.")
    case BlockMissing => Toast("Block required", "Please select a block.")
    case CategoryMissing => Toast("Category required", "Please select a category.")
    case BadStatus => Toast("Invalid status", "Please select a valid status.")
    case Passed => Toast("", "")
  }

  /** A task whose text is only white space is refused whatever else it holds. */
  lemma BlankTaskRefused(form: TaskForm)
    requires AllSpace(form.task)
    ensures CheckForm(form) == TaskMissing
  {
    TrimEmpty(form.task);
  }

  /** A freshly reset form is refused for its empty task before anything else is
      looked at. */
  lemma NewFormRefused(auth: Option<Session>)
    ensures CheckForm(InitialForm(auth)) == TaskMissing
  {
    TrimEmpty("");
  }

  /** The request a valid form sends: the form as body, to the update route of the
      form's id when editing and to the add route otherwise. */
  datatype SaveRequest = Put(path: string, body: TaskForm, authorization: string)
                       | Post(path: string, body: TaskForm, authorization: string)

  function SaveRequestFor(form: TaskForm, editing: bool, auth: Option<Session>): (r: SaveRequest)
    ensures r.body == form && r.authorization == Bearer(auth)
    ensures r.Put? <==> editing
    ensures editing && form.id.Some? ==> r.path == "/admin/updateMaintenance/" + Decimal(form.id.value)
    ensures !editing ==> r.path == "/admin/addMaintenance"
  {
    if editing then
      Put("/admin/updateMaintenance/" + (if form.id.Some? then Decimal(form.id.value) else "undefined"),
          form, Bearer(auth))
    else Post("/admin/addMaintenance", form, Bearer(auth))
  }

  /** The task list after a save: the saved record replaces the entries with its id when
      editing, and is appended when adding. */
  function SavedTasks(tasks: seq<Maintenance>, editing: bool, saved: Maintenance): (r: seq<Maintenance>)
    ensures editing ==> |r| == |tasks|
    ensures editing ==> forall i | 0 <= i < |tasks| ::
              r[i] == if tasks[i].id == saved.id then saved else tasks[i]
    ensures !editing ==> r == tasks + [saved]
  {
    if editing then ReplaceById(tasks, TaskId, saved) else tasks + [saved]
  }

  /** With unique ids, saving an edit changes only the entry with the saved id, and
      saving a new task with a fresh id keeps the ids unique. */
  lemma SavedTasksOnly(tasks: seq<Maintenance>, editing: bool, saved: Maintenance, k: int)
    requires UniqueIds(tasks, TaskId)
    requires editing ==> 0 <= k < |tasks| && tasks[k].id == saved.id
    requires !editing ==> forall i | 0 <= i < |tasks| :: tasks[i].id != saved.id
    ensures editing ==> SavedTasks(tasks, editing, saved) == tasks[k := saved]
    ensures UniqueIds(SavedTasks(tasks, editing, saved), TaskId)
  {
    if editing {
      ReplaceOne(tasks, TaskId, saved, k);
    } else {
      AppendFresh(tasks, TaskId, saved);
    }
  }

  /** What the save request settles to: the saved record, or a thrown error with an
      optional server message. */
  datatype SaveReply = Saved(result: Maintenance) | SaveThrew(serverMessage: Option<string>)

  function SavedToast(editing: bool): Toast
  {
    if editing then Toast("Maintenance Updated", "Task updated successfully.")
    else Toast("Maintenance Added", "Task added successfully.")
  }

  class Modal {
    var open: bool
    var form: TaskForm

    constructor (auth: Option<Session>)
      ensures !open && form == InitialForm(auth)
    {
      open := false;
      form := InitialForm(auth);
    }

    /** The effect run when `open`, the task to edit or the session's building change. */
    method Seed(isOpen: bool, editing: Option<Maintenance>, auth: Option<Session>)
      modifies this
      ensures open == isOpen && form == SeededForm(isOpen, editing, auth)
    {
      open := isOpen;
      if !isOpen {
        form := InitialForm(auth);
      } else if editing.Some? {
        form := EditForm(editing.value, auth);
      } else {
        form := InitialForm(auth);
      }
    }

    method HandleChange(name: string, inputType: string, value: string)
      modifies this
      ensures form == Change(old(form), name, inputType, value) && open == old(open)
    {
      form := Change(form, name, inputType, value);
    }

    /** `handleSubmit`. A failed check shows its notice and sends nothing. A valid form
      is sent; once saved, a loaded snapshot gets the patched task list (and only that),
      the form is reset and the dialog closes; a thrown error shows the server message,
      else a generic one, and changes nothing. */
    method HandleSubmit(store: DashboardContext.DashboardStore, editing: Option<Maintenance>, auth: Option<Session>,
                        reply: SaveReply)
      returns (sent: Option<SaveRequest>, toast: Toast)
      modifies this, store
      ensures store.isFetching == old(store.isFetching)
      ensures CheckForm(old(form)) != Passed ==>
                sent.None? && toast == CheckToast(CheckForm(old(form)))
                && form == old(form) && open == old(open) && store.data == old(store.data)
      ensures CheckForm(old(form)) == Passed ==> sent == Some(SaveRequestFor(old(form), editing.Some?, auth))
      ensures CheckForm(old(form)) == Passed && reply.Saved? ==>
                toast == SavedToast(editing.Some?) && form == InitialForm(auth) && !open
                && store.data == (if old(store.data).None? then None
                                  else Some(old(store.data).value.(maintenance :=
                                    SavedTasks(old(store.data).value.maintenance, editing.Some?, reply.result))))
      ensures CheckForm(old(form)) == Passed && reply.SaveThrew? ==>
                toast == Toast("Error", Or(OrBlank(reply.serverMessage), "Failed to save maintenance."))
                && form == old(form) && open == old(open) && store.data == old(store.data)
    {
      var check := CheckForm(form);
      if check != Passed {
        sent := None;
        toast := CheckToast(check);
        return;
      }
      sent := Some(SaveRequestFor(form, editing.Some?, auth));
      match reply {
        case Saved(result) =>
          if store.data.Some? {
            var d := store.data.value;
            var updated := d.maintenance;
            if editing.Some? {
              updated := ReplaceById(updated, TaskId, result);
            } else {
              updated := updated + [result];
            }
            store.SetData(Some(d.(maintenance := updated)));
          }
          toast := SavedToast(editing.Some?);
          form := InitialForm(auth);
          open := false;
        case SaveThrew(message) =>
          toast := Toast("Error", Or(OrBlank(message), "Failed to save maintenance."));
      }
    }
  }
}
