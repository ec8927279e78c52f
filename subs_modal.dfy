/** The dialog an admin uses to add or edit a subcontractor: the form seeded from the
    subcontractor or blank, the change handler, the checks before saving, the update
    and add payloads, and the patch of the snapshot's users. */
module SubsModal {
  import opened Common
  import opened Records
  import opened Email
  import opened Snapshot
  import DashboardContext

  /** The form; the service slot is typed `number | ""`. */
  datatype SubForm = SubForm(
    fullName: string,
    companyName: string,
    phone: string,
    email: string,
    serviceType: Field,
    password: string)

  const InitialForm := SubForm("", "", "", "", Blank, "")

  /** The form for editing `u`: its fields, "" for the missing ones, a missing or 0
      service as "", and a blank password. */
  function EditForm(u: User): (f: SubForm)
    ensures f.fullName == u.fullName && f.email == u.email
    ensures f.companyName == OrBlank(u.companyName) && f.phone == OrBlank(u.phone)
    ensures Truthy(f.serviceType) <==> u.serviceType.Some? && u.serviceType.value != 0
    ensures Truthy(f.serviceType) ==> NumberOf(f.serviceType) == Int(u.serviceType.value)
    ensures f.password == ""
  {
    SubForm(Or(u.fullName, ""), OrBlank(u.companyName), OrBlank(u.phone), Or(u.email, ""),
            IdOrBlank(u.serviceType), "")
  }

  /** The seeding effect, run when the subcontractor to edit changes. */
  function SeededForm(editing: Option<User>): (f: SubForm)
    ensures editing.None? ==> f == InitialForm
    ensures editing.Some? ==> f == EditForm(editing.value)
  {
    if editing.Some? then EditForm(editing.value) else InitialForm
  }

  /** `handleChange`: the service slot coerces, the others keep the raw string; only the
      named slot changes. */
  function Change(form: SubForm, name: string, value: string): (r: SubForm)
    ensures name == "serviceType" ==> r == form.(serviceType := Coerce(value))
    ensures name == "fullName" ==> r == form.(fullName := value)
    ensures name == "companyName" ==> r == form.(companyName := value)
    ensures name == "phone" ==> r == form.(phone := value)
    ensures name == "email" ==> r == form.(email := value)
    ensures name == "password" ==> r == form.(password := value)
    ensures name !in {"serviceType", "fullName", "companyName", "phone", "email", "password"} ==> r == form
  {
    if name == "serviceType" then form.(serviceType := Coerce(value))
    else if name == "fullName" then form.(fullName := value)
    else if name == "companyName" then form.(companyName := value)
    else if name == "phone" then form.(phone := value)
    else if name == "email" then form.(email := value)
    else if name == "password" then form.(password := value)
    else form
  }

  datatype Check = Passed | InvalidEmail | CategoryRequired | PasswordRequired

  /** The checks, in order: the e-mail shape, a truthy service, and a password when
      adding. */
  function CheckForm(form: SubForm, editMode: bool): (c: Check)
    ensures c == Passed <==>
              MatchesPattern(form.email) && Truthy(form.serviceType) && (editMode || form.password != "")
    ensures c == InvalidEmail <==> !MatchesPattern(form.email)
    ensures c == CategoryRequired <==> MatchesPattern(form.email) && !Truthy(form.serviceType)
    ensures editMode ==> c != PasswordRequired
  {
    if !MatchesPattern(form.email) then InvalidEmail
    else if !Truthy(form.serviceType) then CategoryRequired
    else if !editMode && form.password == "" then PasswordRequired
    else Passed
  }

  function CheckToast(c: Check): Toast
  {
    match c
    case InvalidEmail => Toast("Invalid email", "Please enter a valid email address.")
    case CategoryRequired => Toast("Category required", "Please select a category.")
    case PasswordRequired => Toast("Password required", "Please enter a password.")
    case Passed => Toast("", "")
  }

  /** A subcontractor seeded from a user without a service cannot be saved until a
      category is chosen. */
  lemma NoServiceRefused(u: User, editMode: bool)
    requires u.serviceType.None? || u.serviceType.value == 0
    requires MatchesPattern(u.email)
    ensures CheckForm(EditForm(u), editMode) == CategoryRequired
  {
  }

  /** The update body: the form's fields, with `password` only when non-empty. */
  datatype UpdateBody = UpdateBody(fullName: string, companyName: string, phone: string, email: string,
                                   serviceType: Field, password: Option<string>)

  function UpdateBodyOf(form: SubForm): (b: UpdateBody)
    ensures b.fullName == form.fullName && b.companyName == form.companyName
    ensures b.phone == form.phone && b.email == form.email && b.serviceType == form.serviceType
    ensures b.password.Some? <==> form.password != ""
    ensures b.password.Some? ==> b.password.value == form.password
  {
    UpdateBody(form.fullName, form.companyName, form.phone, form.email, form.serviceType,
               if form.password != "" then Some(form.password) else None)
  }

  /** The add body: the whole form plus `userId` and `buildingId` from the session
      (absent without one). */
  datatype AddBody = AddBody(form: SubForm, userId: Option<int>, buildingId: Option<int>)

  function AddBodyOf(form: SubForm, auth: Option<Session>): (b: AddBody)
    ensures b.form == form
    ensures auth.Some? ==> b.userId == Some(auth.value.id) && b.buildingId == auth.value.buildingId
    ensures auth.None? ==> b.userId.None? && b.buildingId.None?
  {
    if auth.Some? then AddBody(form, Some(auth.value.id), auth.value.buildingId)
    else AddBody(form, None, None)
  }

  datatype SubRequest = PutSub(path: string, update: UpdateBody, authorization: string)
                      | PostSub(path: string, add: AddBody, authorization: string)

  function RequestFor(form: SubForm, editing: Option<User>, auth: Option<Session>): (r: SubRequest)
    ensures r.authorization == Bearer(auth)
    ensures editing.Some? ==> r == PutSub("/admin/updateSub/" + Decimal(editing.value.id), UpdateBodyOf(form), Bearer(auth))
    ensures editing.None? ==> r == PostSub("/admin/addSub", AddBodyOf(form, auth), Bearer(auth))
  {
    if editing.Some? then PutSub("/admin/updateSub/" + Decimal(editing.value.id), UpdateBodyOf(form), Bearer(auth))
    else PostSub("/admin/addSub", AddBodyOf(form, auth), Bearer(auth))
  }

  /** The users after a successful save: the result replaces the users with its id on
      an update, and is appended on an add. */
  function SavedUsers(users: seq<User>, editMode: bool, result: User): (r: seq<User>)
    ensures editMode ==> |r| == |users|
    ensures editMode ==> forall i | 0 <= i < |users| :: r[i] == if users[i].id == result.id then result else users[i]
    ensures !editMode ==> r == users + [result]
  {
    if editMode then ReplaceById(users, UserId, result) else users + [result]
  }

  /** With unique ids an update touches the one user with the result's id, and adding a
      user with a new id keeps the ids unique. */
  lemma SavedUsersOnly(users: seq<User>, editMode: bool, result: User, k: int)
    requires UniqueIds(users, UserId)
    requires editMode ==> 0 <= k < |users| && users[k].id == result.id
    requires !editMode ==> forall i | 0 <= i < |users| :: users[i].id != result.id
    ensures editMode ==> SavedUsers(users, editMode, result) == users[k := result]
    ensures UniqueIds(SavedUsers(users, editMode, result), UserId)
  {
    if editMode {
      ReplaceOne(users, UserId, result, k);
    } else {
      AppendFresh(users, UserId, result);
    }
  }

  /** How a save settles: an answer with `success`, `result` and `message`, or a thrown
      error with an optional server message. */
  datatype SaveReply = Answered(success: bool, result: User, message: Option<string>)
                     | Threw(serverMessage: Option<string>)

  function SavedToast(editMode: bool): Toast
  {
    if editMode then Toast("Subcontractor updated", "Update successful.")
    else Toast("Subcontractor added", "Added with success.")
  }

  function RefusedToast(editMode: bool, message: Option<string>): Toast
  {
    Toast(if editMode then "Update failed" else "Add failed", Or(OrBlank(message), "Please try again."))
  }

  class Modal {
    var open: bool
    var form: SubForm

    constructor ()
      ensures !open && form == InitialForm
    {
      open := false;
      form := InitialForm;
    }

    method Seed(editing: Option<User>)
      modifies this
      ensures form == SeededForm(editing) && open == old(open)
    {
      form := SeededForm(editing);
    }

    method HandleChange(name: string, value: string)
      modifies this
      ensures form == Change(old(form), name, value) && open == old(open)
    {
      form := Change(form, name, value);
    }

    /** `handleSubmit`. A failed check shows its notice and sends nothing. A `success`
      answer patches a loaded snapshot and closes the dialog (after a delay); an answer
      without it, or an error, reports a message and leaves snapshot and dialog alone. */
    method HandleSubmit(store: DashboardContext.DashboardStore, editing: Option<User>, auth: Option<Session>,
                        reply: SaveReply)
      returns (sent: Option<SubRequest>, notice: Notice)
      modifies this, store
      ensures form == old(form) && store.isFetching == old(store.isFetching)
      ensures CheckForm(old(form), editing.Some?) != Passed ==>
                sent.None? && notice == Toasted(CheckToast(CheckForm(old(form), editing.Some?)))
                && open == old(open) && store.data == old(store.data)
      ensures CheckForm(old(form), editing.Some?) == Passed ==> sent == Some(RequestFor(old(form), editing, auth))
      ensures CheckForm(old(form), editing.Some?) == Passed && reply.Answered? && reply.success ==>
                notice == Toasted(SavedToast(editing.Some?)) && !open
                && store.data == (if old(store.data).None? then None
                                  else Some(old(store.data).value.(users :=
                                    SavedUsers(old(store.data).value.users, editing.Some?, reply.result))))
      ensures CheckForm(old(form), editing.Some?) == Passed && reply.Answered? && !reply.success ==>
                notice == Toasted(RefusedToast(editing.Some?, reply.message))
                && open == old(open) && store.data == old(store.data)
      ensures CheckForm(old(form), editing.Some?) == Passed && reply.Threw? ==>
                notice == Toasted(Toast("Error", Or(OrBlank(reply.serverMessage), "Failed to save subcontractor.")))
                && open == old(open) && store.data == old(store.data)
    {
      var check := CheckForm(form, editing.Some?);
      if check != Passed {
        return None, Toasted(CheckToast(check));
      }
      sent := Some(RequestFor(form, editing, auth));
      match reply {
        case Threw(message) =>
          notice := Toasted(Toast("Error", Or(OrBlank(message), "Failed to save subcontractor.")));
        case Answered(success, result, message) =>
          if success {
            if store.data.Some? {
              var d := store.data.value;
              var users := if editing.Some? then ReplaceById(d.users, UserId, result) else d.users + [result];
              store.SetData(Some(d.(users := users)));
            }
            notice := Toasted(SavedToast(editing.Some?));
            open := false;
          } else {
            notice := Toasted(RefusedToast(editing.Some?, message));
          }
      }
    }
  }
}
