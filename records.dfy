/** The records the front end receives from the backend: the signed-in session and the
    dashboard snapshot (users, buildings, blocks, services, maintenance tasks), with the
    id-to-name lookups every table uses. */
module Records {
  import opened Common

  /** The session record kept by the authentication context. Role codes: 1 resident,
      2 subcontractor, 3 admin. */
  datatype Session = Session(
    id: int,
    email: string,
    fullName: string,
    roleCode: int,
    buildingId: Option<int>,
    blockId: Option<int>,
    companyName: Option<string>,
    phone: Option<string>,
    accessToken: string)

  /** A user row. Subcontractor fields (company, service, phone) and resident fields
      (block, approval) are null for the other roles; an absent unit is "". */
  datatype User = User(
    id: int,
    fullName: string,
    email: string,
    unit: string,
    roleCode: int,
    companyName: Option<string>,
    serviceType: Option<int>,
    phone: Option<string>,
    buildingId: Option<int>,
    blockId: Option<int>,
    approvedBy: Option<int>)

  datatype Building = Building(id: int, name: string)

  /** A block of a building; the pages read its building as `building_id`. */
  datatype Block = Block(id: int, name: string, buildingId: int)

  datatype Service = Service(id: int, name: string)

  /** A maintenance task. `dueTo` and `createdAt` (`created_at` on the wire) are ISO
      strings as stored; an empty status means Pending. */
  datatype Maintenance = Maintenance(
    id: int,
    task: string,
    buildingId: int,
    blockId: int,
    subcontractor: Option<int>,
    category: int,
    status: string,
    comment: Option<string>,
    createdAt: string,
    dueTo: string)

  datatype DashboardData = DashboardData(
    users: seq<User>,
    buildings: seq<Building>,
    blocks: seq<Block>,
    services: seq<Service>,
    maintenance: seq<Maintenance>)

  /** The header value `Bearer ${auth?.accessToken}`: without a session the template
      renders "undefined". */
  function Bearer(auth: Option<Session>): (r: string)
    ensures auth.Some? ==> r == "Bearer " + auth.value.accessToken
  {
    "Bearer " + (if auth.Some? then auth.value.accessToken else "undefined")
  }

  /** An `axiosInstance.delete(path, { headers: { Authorization } })` call. */
  datatype DeleteRequest = DeleteRequest(path: string, authorization: string)

  /** `axiosInstance.delete(`/admin/deleteUser/${id}`, { headers })`: the residents' and
      the subcontractors' pages delete a user through the same call. */
  function DeleteUserRequest(id: int, auth: Option<Session>): (r: DeleteRequest)
    ensures r.authorization == Bearer(auth)
    ensures r.path == "/admin/deleteUser/" + Decimal(id)
  {
    DeleteRequest("/admin/deleteUser/" + Decimal(id), Bearer(auth))
  }

  /** How a delete settles: an answer with its `success` flag, or a thrown error. */
  datatype DeleteReply = DeleteAnswered(success: bool) | DeleteThrew

  /** `dashboardData?.maintenance || []` and friends. */
  function TasksOf(data: Option<DashboardData>): seq<Maintenance>
  {
    if data.Some? then data.value.maintenance else []
  }

  function UsersOf(data: Option<DashboardData>): seq<User>
  {
    if data.Some? then data.value.users else []
  }

  function BuildingsOf(data: Option<DashboardData>): seq<Building>
  {
    if data.Some? then data.value.buildings else []
  }

  function BlocksOf(data: Option<DashboardData>): seq<Block>
  {
    if data.Some? then data.value.blocks else []
  }

  function ServicesOf(data: Option<DashboardData>): seq<Service>
  {
    if data.Some? then data.value.services else []
  }

  /** `found?.name || fallback`: the name of the first entry found, unless there is none
      or its name is empty. */
  function NameOr(found: Option<string>, fallback: string): (r: string)
    ensures r == fallback <==> found.None? || found.value == "" || found.value == fallback
  {
    if found.Some? && found.value != "" then found.value else fallback
  }

  /** `buildings.find(b => b.id === id)?.name || fallback`. */
  function BuildingName(buildings: seq<Building>, id: int, fallback: string): (r: string)
    ensures r == fallback || exists i | 0 <= i < |buildings| :: buildings[i].id == id && buildings[i].name == r
    ensures (forall i | 0 <= i < |buildings| :: buildings[i].id != id) ==> r == fallback
    ensures forall k | 0 <= k < |buildings| && buildings[k].id == id && (forall j | 0 <= j < k :: buildings[j].id != id) ::
              r == NameOr(Some(buildings[k].name), fallback)
  {
    var found := Find(buildings, (b: Building) => b.id == id);
    NameOr(if found.Some? then Some(found.value.name) else None, fallback)
  }

  /** `blocks.find(b => b.id === id)?.name || fallback`. */
  function BlockName(blocks: seq<Block>, id: int, fallback: string): (r: string)
    ensures r == fallback || exists i | 0 <= i < |blocks| :: blocks[i].id == id && blocks[i].name == r
    ensures (forall i | 0 <= i < |blocks| :: blocks[i].id != id) ==> r == fallback
    ensures forall k | 0 <= k < |blocks| && blocks[k].id == id && (forall j | 0 <= j < k :: blocks[j].id != id) ::
              r == NameOr(Some(blocks[k].name), fallback)
  {
    var found := Find(blocks, (b: Block) => b.id == id);
    NameOr(if found.Some? then Some(found.value.name) else None, fallback)
  }

  /** `services.find(c => c.id === id)?.name || fallback`. */
  function ServiceName(services: seq<Service>, id: Option<int>, fallback: string): (r: string)
    ensures r == fallback || exists i | 0 <= i < |services| :: Some(services[i].id) == id && services[i].name == r
    ensures (forall i | 0 <= i < |services| :: Some(services[i].id) != id) ==> r == fallback
    ensures forall k | 0 <= k < |services| && Some(services[k].id) == id
                       && (forall j | 0 <= j < k :: Some(services[j].id) != id) ::
              r == NameOr(Some(services[k].name), fallback)
  {
    var found := Find(services, (c: Service) => Some(c.id) == id);
    NameOr(if found.Some? then Some(found.value.name) else None, fallback)
  }

  /** `users.find(u => u.id === id)?.fullName || fallback`; a null id matches no user. */
  function UserName(users: seq<User>, id: Option<int>, fallback: string): (r: string)
    ensures r == fallback || exists i | 0 <= i < |users| :: Some(users[i].id) == id && users[i].fullName == r
    ensures id.None? ==> r == fallback
    ensures (forall i | 0 <= i < |users| :: Some(users[i].id) != id) ==> r == fallback
    ensures forall k | 0 <= k < |users| && Some(users[k].id) == id && (forall j | 0 <= j < k :: Some(users[j].id) != id) ::
              r == NameOr(Some(users[k].fullName), fallback)
  {
    var found := Find(users, (u: User) => Some(u.id) == id);
    NameOr(if found.Some? then Some(found.value.fullName) else None, fallback)
  }

  /** `task.status || "Pending"`: the status the tables show and filter on. */
  function StatusLabel(status: string): (r: string)
    ensures r != ""
    ensures status != "" ==> r == status
  {
    Or(status, "Pending")
  }
}
