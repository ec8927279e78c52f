/** The dialog an admin uses to edit a resident, and a visitor uses to register: the
    form seeded from the resident or blank, the change handler, the buildings and blocks
    it loads when opened, the checks before submitting, the payload, and the patch of
    the snapshot's users after an update. */
module SignUpModal {
  import opened Common
  import opened Records
  import opened Email
  import opened Snapshot
  import DashboardContext

  /** The form. The building and block slots are typed `number | ""`. */
  datatype ResidentForm = ResidentForm(
    fullName: string,
    email: string,
    password: string,
    confirmPassword: string,
    buildingId: Field,
    blockId: Field,
    unit: string)

  const BlankForm := ResidentForm("", "", "", "", Blank, Blank, "")

  /** The form for editing `u`: its fields or "" (a missing or 0 building or block is
      ""), and no password. */
  function EditForm(u: User): (f: ResidentForm)
    ensures f.fullName == u.fullName && f.email == u.email && f.unit == u.unit
    ensures f.password == "" && f.confirmPassword == ""
    ensures Truthy(f.buildingId) <==> u.buildingId.Some? && u.buildingId.value != 0
    ensures Truthy(f.buildingId) ==> NumberOf(f.buildingId) == Int(u.buildingId.value)
    ensures Truthy(f.blockId) <==> u.blockId.Some? && u.blockId.value != 0
    ensures Truthy(f.blockId) ==> NumberOf(f.blockId) == Int(u.blockId.value)
  {
    ResidentForm(Or(u.fullName, ""), Or(u.email, ""), "", "", IdOrBlank(u.buildingId),
                 IdOrBlank(u.blockId), Or(u.unit, ""))
  }

  /** The seeding effect: the resident's form in edit mode, a blank form otherwise. */
  function SeededForm(editing: Option<User>): (f: ResidentForm)
    ensures editing.None? ==> f == BlankForm
    ensures editing.Some? ==> f == EditForm(editing.value)
  {
    if editing.Some? then EditForm(editing.value) else BlankForm
  }

  /** `handleChange`: the building and block slots coerce ("" stays "", anything else
      goes through `Number`), the others keep the raw string; only the named slot
      changes. */
  function Change(form: ResidentForm, name: string, value: string): (r: ResidentForm)
    ensures name == "buildingId" ==> r == form.(buildingId := Coerce(value))
    ensures name == "blockId" ==> r == form.(blockId := Coerce(value))
    ensures name == "fullName" ==> r == form.(fullName := value)
    ensures name == "email" ==> r == form.(email := value)
    ensures name == "password" ==> r == form.(password := value)
    ensures name == "confirmPassword" ==> r == form.(confirmPassword := value)
    ensures name == "unit" ==> r == form.(unit := value)
    ensures name !in {"buildingId", "blockId", "fullName", "email", "password", "confirmPassword", "unit"} ==>
              r == form
  {
    if name == "buildingId" then form.(buildingId := Coerce(value))
    else if name == "blockId" then form.(blockId := Coerce(value))
    else if name == "fullName" then form.(fullName := value)
    else if name == "email" then form.(email := value)
    else if name == "password" then form.(password := value)
    else if name == "confirmPassword" then form.(confirmPassword := value)
    else if name == "unit" then form.(unit := value)
    else form
  }

  /** The blocks of the chosen building, `building_id === Number(form.buildingId)`. */
  function BlockOptions(blocks: seq<Block>, buildingId: Field): (r: seq<Block>)
    ensures forall b :: b in r <==> b in blocks && NumberOf(buildingId) == Int(b.buildingId)
  {
    Filter(blocks, (b: Block) => NumberOf(buildingId) == Int(b.buildingId))
  }

  /** The block selector is shown once a building is chosen that has a block. */
  predicate ShowsBlockSelect(form: ResidentForm, blocks: seq<Block>)
  {
    form.buildingId != Blank && |BlockOptions(blocks, form.buildingId)| > 0
  }

  lemma BlockSelectShown(form: ResidentForm, blocks: seq<Block>)
    ensures ShowsBlockSelect(form, blocks) <==>
              form.buildingId != Blank
              && exists i | 0 <= i < |blocks| :: NumberOf(form.buildingId) == Int(blocks[i].buildingId)
  {
    var r := BlockOptions(blocks, form.buildingId);
    if |r| > 0 {
      assert r[0] in r;
    }
    if exists i | 0 <= i < |blocks| :: NumberOf(form.buildingId) == Int(blocks[i].buildingId) {
      var i :| 0 <= i < |blocks| && NumberOf(form.buildingId) == Int(blocks[i].buildingId);
      assert blocks[i] in r;
    }
  }

  /** The result of the checks, first failure first. */
  datatype Check = Passed | MissingFields | InvalidEmail | PasswordIssue

  function CheckForm(form: ResidentForm, editMode: bool): (c: Check)
    ensures c == Passed <==>
              form.fullName != "" && form.email != "" && form.unit != "" && MatchesPattern(form.email)
              && (editMode || (form.password != "" && form.password == form.confirmPassword))
    ensures c == MissingFields <==> form.fullName == "" || form.email == "" || form.unit == ""
    ensures c == InvalidEmail <==>
              form.fullName != "" && form.email != "" && form.unit != "" && !MatchesPattern(form.email)
    ensures editMode ==> c != PasswordIssue
  {
    if form.fullName == "" || form.email == "" || form.unit == "" then MissingFields
    else if !MatchesPattern(form.email) then InvalidEmail
    else if !editMode && (form.password == "" || form.password != form.confirmPassword) then PasswordIssue
    else Passed
  }

  function CheckToast(c: Check): Toast
  {
    match c
    case MissingFields => Toast("Missing fields", "Please fill out all required fields.")
    case InvalidEmail => Toast("Invalid email", "Please enter a valid email address.")
    case PasswordIssue => Toast("Password issue", "Passwords must match.")
    case Passed => Toast("", "")
  }

  /** The request body. `blockId` is null when the slot is falsy; `password` is present
      only when non-empty. */
  datatype Payload = Payload(fullName: string, email: string, buildingId: Num, blockId: Option<Num>,
                             unit: string, password: Option<string>)

  function PayloadOf(form: ResidentForm): (p: Payload)
    ensures p.fullName == form.fullName && p.email == form.email && p.unit == form.unit
    ensures p.buildingId == NumberOf(form.buildingId)
    ensures p.blockId.None? <==> !Truthy(form.blockId)
    ensures p.blockId.Some? ==> p.blockId.value == NumberOf(form.blockId)
    ensures p.password.Some? <==> form.password != ""
    ensures p.password.Some? ==> p.password.value == form.password
  {
    var p := Payload(form.fullName, form.email, NumberOf(form.buildingId),
                     if Truthy(form.blockId) then Some(NumberOf(form.blockId)) else None, form.unit, None);
    if form.password != "" then p.(password := Some(form.password)) else p
  }

  /** An unchosen building is sent as 0, since `Number("")` is 0. */
  lemma BlankBuildingSentAsZero(form: ResidentForm)
    requires form.buildingId == Blank
    ensures PayloadOf(form).buildingId == Int(0)
  {
  }

  /** In edit mode the password inputs are not rendered, so no change event reaches the
      password slot and an update never carries a password. */
  lemma EditSendsNoPassword(u: User, name: string, value: string)
    requires name != "password"
    ensures PayloadOf(EditForm(u)).password.None?
    ensures PayloadOf(Change(EditForm(u), name, value)).password.None?
  {
  }

  /** The two requests: an update of the edited user, or a registration. */
  datatype UserRequest = PutUser(path: string, body: Payload, authorization: string)
                       | PostRegister(path: string, body: Payload)

  function RequestFor(form: ResidentForm, editing: Option<User>, auth: Option<Session>): (r: UserRequest)
    ensures r.body == PayloadOf(form)
    ensures editing.Some? <==> r.PutUser?
    ensures editing.Some? ==> r.path == "/admin/updateUser/" + Decimal(editing.value.id)
                              && r.authorization == Bearer(auth)
    ensures editing.None? ==> r.path == "/register/user"
  {
    if editing.Some? then PutUser("/admin/updateUser/" + Decimal(editing.value.id), PayloadOf(form), Bearer(auth))
    else PostRegister("/register/user", PayloadOf(form))
  }

  /** How a submit settles: an answer (for an update, its `success`, `result` and
      `message`; a registration reads nothing of it), or a thrown error. */
  datatype SubmitReply = Answered(success: bool, result: User, message: Option<string>)
                       | Threw(serverMessage: Option<string>)

  /** How the buildings request settles. */
  datatype BuildingsReply = BuildingsLoaded(buildings: seq<Building>, blocks: seq<Block>) | BuildingsFailed

  class Modal {
    var open: bool
    var form: ResidentForm
    var buildings: seq<Building>
    var blocks: seq<Block>

    constructor ()
      ensures !open && form == BlankForm && buildings == [] && blocks == []
    {
      open := false;
      form := BlankForm;
      buildings := [];
      blocks := [];
    }

    /** The seeding effect, run when the mode, the user or `open` changes. */
    method Seed(isOpen: bool, editing: Option<User>)
      modifies this
      ensures open == isOpen && form == SeededForm(editing)
      ensures buildings == old(buildings) && blocks == old(blocks)
    {
      open := isOpen;
      form := SeededForm(editing);
    }

    /** The opening effect's `GET /buildings` settles: the lists are replaced, or a notice
      is shown and the lists are kept. */
    method LoadBuildings(reply: BuildingsReply) returns (notice: Notice)
      modifies this
      ensures open == old(open) && form == old(form)
      ensures reply.BuildingsLoaded? ==>
                buildings == reply.buildings && blocks == reply.blocks && notice == Silent
      ensures reply.BuildingsFailed? ==>
                buildings == old(buildings) && blocks == old(blocks)
                && notice == Toasted(Toast("Failed to load buildings", "Please try again later."))
    {
      match reply {
        case BuildingsLoaded(bs, ks) =>
          buildings := bs;
          blocks := ks;
          notice := Silent;
        case BuildingsFailed =>
          notice := Toasted(Toast("Failed to load buildings", "Please try again later."));
      }
    }

    method HandleChange(name: string, value: string)
      modifies this
      ensures form == Change(old(form), name, value)
      ensures open == old(open) && buildings == old(buildings) && blocks == old(blocks)
    {
      form := Change(form, name, value);
    }

    /** `handleSubmit`. A failed check shows its notice and sends nothing. An update
      answered with `success` replaces the user carrying the result's id in a loaded
      snapshot; an update answered without it only reports the message. Any answer
      closes the dialog; a thrown error keeps it open. The form itself is not reset. */
    method HandleSubmit(store: DashboardContext.DashboardStore, editing: Option<User>, auth: Option<Session>,
                        reply: SubmitReply)
      returns (sent: Option<UserRequest>, notice: Notice)
      modifies this, store
      ensures form == old(form) && buildings == old(buildings) && blocks == old(blocks)
      ensures store.isFetching == old(store.isFetching)
      ensures CheckForm(old(form), editing.Some?) != Passed ==>
                sent.None? && notice == Toasted(CheckToast(CheckForm(old(form), editing.Some?)))
                && open == old(open) && store.data == old(store.data)
      ensures CheckForm(old(form), editing.Some?) == Passed ==> sent == Some(RequestFor(old(form), editing, auth))
      ensures CheckForm(old(form), editing.Some?) == Passed && reply.Answered? ==> !open
      ensures CheckForm(old(form), editing.Some?) == Passed && editing.Some? && reply.Answered? && reply.success ==>
                notice == Toasted(Toast("Resident updated", "Update successful."))
                && store.data == (if old(store.data).None? then None
                                  else Some(old(store.data).value.(users :=
                                    ReplaceById(old(store.data).value.users, UserId, reply.result))))
      ensures CheckForm(old(form), editing.Some?) == Passed && editing.Some? && reply.Answered? && !reply.success ==>
                notice == Toasted(Toast("Update failed", Or(OrBlank(reply.message), "Please try again.")))
                && store.data == old(store.data)
      ensures CheckForm(old(form), editing.Some?) == Passed && editing.None? && reply.Answered? ==>
                notice == Toasted(Toast("Account created", "Your account was created. Wait for admin approval."))
                && store.data == old(store.data)
      ensures CheckForm(old(form), editing.Some?) == Passed && reply.Threw? ==>
                notice == Toasted(Toast("Operation failed",
                                        Or(OrBlank(reply.serverMessage), "Something went wrong. Please try again.")))
                && open == old(open) && store.data == old(store.data)
    {
      var check := CheckForm(form, editing.Some?);
      if check != Passed {
        return None, Toasted(CheckToast(check));
      }
      sent := Some(RequestFor(form, editing, auth));
      match reply {
        case Threw(message) =>
          notice := Toasted(Toast("Operation failed", Or(OrBlank(message), "Something went wrong. Please try again.")));
          return;
        case Answered(success, result, message) =>
          if editing.Some? {
            if success {
              if store.data.Some? {
                var d := store.data.value;
                store.SetData(Some(d.(users := ReplaceById(d.users, UserId, result))));
              }
              notice := Toasted(Toast("Resident updated", "Update successful."));
            } else {
              notice := Toasted(Toast("Update failed", Or(OrBlank(message), "Please try again.")));
            }
          } else {
            notice := Toasted(Toast("Account created", "Your account was created. Wait for admin approval."));
          }
          open := false;
      }
    }
  }
}
