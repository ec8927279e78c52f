/** The public sign-up page: the resident form (the same slots and change handler as
    the sign-up dialog), the buildings and blocks it offers, the e-mail check, the
    registration payload with its conditional block, and what a settled request does. */
module Signup {
  import opened Common
  import opened Records
  import opened Email
  import SignUpModal

  type ResidentForm = SignUpModal.ResidentForm

  /** `blocks.filter(block => block.building_id === form.buildingId)`: strict equality,
      so a blank building matches no block. */
  function BuildingBlocks(blocks: seq<Block>, buildingId: Field): (r: seq<Block>)
    ensures forall b :: b in r <==> b in blocks && buildingId == Number(Int(b.buildingId))
    ensures buildingId == Blank ==> r == []
  {
    Filter(blocks, (b: Block) => buildingId == Number(Int(b.buildingId)))
  }

  /** The block select is shown when a building is chosen that has blocks. */
  predicate ShowsBlockSelect(form: ResidentForm, blocks: seq<Block>)
  {
    form.buildingId != Blank && |BuildingBlocks(blocks, form.buildingId)| > 0
  }

  /** `blocks.filter(block => block.building_id == form.buildingId)`: the options of the
      block select, compared loosely. */
  function BlockChoices(blocks: seq<Block>, buildingId: Field): (r: seq<Block>)
    ensures forall b :: b in r <==> b in blocks && NumberOf(buildingId) == Int(b.buildingId)
  {
    Filter(blocks, (b: Block) => NumberOf(buildingId) == Int(b.buildingId))
  }

  /** For a chosen building the loose comparison of the options and the strict one of
      the visibility test pick the same blocks, in the same order. */
  lemma ChoicesMatchTest(blocks: seq<Block>, v: Num)
    ensures BlockChoices(blocks, Number(v)) == BuildingBlocks(blocks, Number(v))
  {
    FilterSame(blocks, (b: Block) => NumberOf(Number(v)) == Int(b.buildingId),
               (b: Block) => Number(v) == Number(Int(b.buildingId)));
  }

  /** The registration body: the raw building slot (a number, or "" when none was
      chosen), and the raw block slot only when the building has blocks.
      `confirmPassword` is never sent. */
  datatype Payload = Payload(fullName: string, email: string, password: string, buildingId: Field,
                             unit: string, blockId: Option<Field>)

  function PayloadOf(form: ResidentForm, blocks: seq<Block>): (p: Payload)
    ensures p.fullName == form.fullName && p.email == form.email && p.password == form.password
    ensures p.buildingId == form.buildingId && p.unit == form.unit
    ensures p.blockId.Some? <==> |BuildingBlocks(blocks, form.buildingId)| > 0
    ensures p.blockId.Some? ==> p.blockId.value == form.blockId
  {
    Payload(form.fullName, form.email, form.password, form.buildingId, form.unit,
            if |BuildingBlocks(blocks, form.buildingId)| > 0 then Some(form.blockId) else None)
  }

  /** The block is sent exactly when the page showed the block select, and the
      confirmation field has no influence on what is sent. */
  lemma BlockSentIffShown(form: ResidentForm, blocks: seq<Block>, confirm: string)
    ensures PayloadOf(form, blocks).blockId.Some? <==> ShowsBlockSelect(form, blocks)
    ensures PayloadOf(form.(confirmPassword := confirm), blocks) == PayloadOf(form, blocks)
  {
  }

  /** A building with a block in the list gets that block's choice sent. */
  lemma ChosenBuildingWithBlocks(form: ResidentForm, blocks: seq<Block>, k: int)
    requires 0 <= k < |blocks|
    requires form.buildingId == Number(Int(blocks[k].buildingId))
    ensures PayloadOf(form, blocks).blockId == Some(form.blockId)
  {
    assert blocks[k] in BuildingBlocks(blocks, form.buildingId);
  }

  /** `axios.post("http://localhost:3000/register/user", data)`: no authorization. */
  datatype RegisterRequest = RegisterRequest(url: string, body: Payload)

  /** How the registration settles: resolved, or an error with an optional server
      message and an optional `error.message`. */
  datatype RegisterReply = Registered | RegisterThrew(serverMessage: Option<string>, message: Option<string>)

  /** The failure text: the server's message, else the error's own, else the generic
      text; never empty. */
  function FailureText(serverMessage: Option<string>, message: Option<string>): (r: string)
    ensures r != ""
    ensures serverMessage.Some? && serverMessage.value != "" ==> r == serverMessage.value
    ensures (serverMessage.None? || serverMessage.value == "") && message.Some? && message.value != "" ==>
              r == message.value
    ensures (serverMessage.None? || serverMessage.value == "") && (message.None? || message.value == "") ==>
              r == "Something went wrong. Please try again."
  {
    Or(Or(OrBlank(serverMessage), OrBlank(message)), "Something went wrong. Please try again.")
  }

  /** The notice of a successful registration. */
  const Created := Toast("Account created",
    "Thanks for creating a account with us! Your building's Admin will check and approve your request.")

  class Page {
    var form: ResidentForm
    var buildings: seq<Building>
    var blocks: seq<Block>

    constructor ()
      ensures form == SignUpModal.BlankForm && buildings == [] && blocks == []
    {
      form := SignUpModal.BlankForm;
      buildings := [];
      blocks := [];
    }

    /** The mount effect's `GET /buildings` settles: the lists are replaced, or a notice
      is shown and the lists stay empty. */
    method LoadBuildings(reply: SignUpModal.BuildingsReply) returns (notice: Notice)
      modifies this
      ensures form == old(form)
      ensures reply.BuildingsLoaded? ==>
                buildings == reply.buildings && blocks == reply.blocks && notice == Silent
      ensures reply.BuildingsFailed? ==>
                buildings == old(buildings) && blocks == old(blocks)
                && notice == Toasted(Toast("Failed to load buildings", "Please try again later."))
    {
      match reply {
        case BuildingsLoaded(bs, ks) =>
          buildings := bs;
          blocks := ks;
          notice := Silent;
        case BuildingsFailed =>
          notice := Toasted(Toast("Failed to load buildings", "Please try again later."));
      }
    }

    /** `handleChange`: the building and block slots coerce, the others keep the raw
      string. */
    method HandleChange(name: string, value: string)
      modifies this
      ensures form == SignUpModal.Change(old(form), name, value)
      ensures buildings == old(buildings) && blocks == old(blocks)
    {
      form := SignUpModal.Change(form, name, value);
    }

    /** `handleSubmit`. A malformed e-mail stops with a notice and no request. Otherwise
      the payload is posted; success resets the form and goes to "/", an error reports
      its message and keeps the form. */
    method HandleSubmit(reply: RegisterReply) returns (sent: Option<RegisterRequest>, notice: Notice,
                                                       navigate: Option<string>)
      modifies this
      ensures buildings == old(buildings) && blocks == old(blocks)
      ensures !MatchesPattern(old(form).email) ==>
                sent.None? && navigate.None? && form == old(form)
                && notice == Toasted(Toast("Invalid email", "Please enter a valid email address."))
      ensures MatchesPattern(old(form).email) ==>
                sent == Some(RegisterRequest("http://localhost:3000/register/user", PayloadOf(old(form), old(blocks))))
      ensures MatchesPattern(old(form).email) && reply.Registered? ==>
                form == SignUpModal.BlankForm && navigate == Some("/")
                && notice == Toasted(Created)
      ensures MatchesPattern(old(form).email) && reply.RegisterThrew? ==>
                form == old(form) && navigate.None?
                && notice == Toasted(Toast("Signup failed", FailureText(reply.serverMessage, reply.message)))
    {
      if !MatchesPattern(form.email) {
        return None, Toasted(Toast("Invalid email", "Please enter a valid email address.")), None;
      }
      sent := Some(RegisterRequest("http://localhost:3000/register/user", PayloadOf(form, blocks)));
      match reply {
        case Registered =>
          notice := Toasted(Created);
          form := SignUpModal.BlankForm;
          navigate := Some("/");
        case RegisterThrew(serverMessage, message) =>
          notice := Toasted(Toast("Signup failed", FailureText(serverMessage, message)));
          navigate := None;
      }
    }
  }
}
