/** The dashboard context: the snapshot of users, buildings, blocks, services and tasks
    fetched for the signed-in session, with an in-flight guard so that one fetch runs at
    a time, and a fail-closed fetch that logs out when the backend refuses. The fetch is
    modelled as two steps: the request going out and its answer coming back. */
module DashboardContext {
  import opened Common
  import opened Records
  import opened AuthContext

  /** `POST /dashboard` with body `{ id, roleCode, buildingId }` and the header
      `Authorization: Bearer <accessToken>`. */
  datatype FetchRequest = FetchRequest(id: int, roleCode: int, buildingId: Option<int>, authorization: string)

  /** The request a session sends: its own id, role and building, and its own token. */
  function RequestFor(s: Session): (r: FetchRequest)
    ensures r.id == s.id && r.roleCode == s.roleCode && r.buildingId == s.buildingId
    ensures r.authorization == "Bearer " + s.accessToken
  {
    FetchRequest(s.id, s.roleCode, s.buildingId, "Bearer " + s.accessToken)
  }

  /** How the request settles: the snapshot, or any thrown error. */
  datatype FetchReply = Fetched(data: DashboardData) | FetchFailed

  class DashboardStore {
    const provider: AuthProvider
    var data: Option<DashboardData>
    var isFetching: bool

    constructor (provider: AuthProvider)
      ensures this.provider == provider
      ensures data.None? && !isFetching
    {
      this.provider := provider;
      data := None;
      isFetching := false;
    }

    /** `getDashboardData` up to the request: nothing happens without a session or while
      a fetch is in flight; otherwise the flag is raised and the request goes out. */
    method GetDashboardData() returns (sent: Option<FetchRequest>)
      modifies this
      ensures data == old(data)
      ensures provider.auth.None? || old(isFetching) ==> sent.None? && isFetching == old(isFetching)
      ensures provider.auth.Some? && !old(isFetching) ==>
                sent == Some(RequestFor(provider.auth.value)) && isFetching
    {
      if provider.auth.None? || isFetching {
        sent := None;
        return;
      }
      isFetching := true;
      sent := Some(RequestFor(provider.auth.value));
    }

    /** The rest of `getDashboardData`: a snapshot replaces the old one wholesale; an
      error clears it and logs out; the in-flight flag is lowered either way. */
    method FinishFetch(reply: FetchReply)
      modifies this, provider
      ensures !isFetching
      ensures reply.Fetched? ==>
                data == Some(reply.data)
                && provider.auth == old(provider.auth) && provider.storage == old(provider.storage)
      ensures reply.FetchFailed? ==>
                data.None? && provider.auth.None?
                && provider.storage == Synced(None, old(provider.storage))
    {
      match reply {
        case Fetched(d) =>
          data := Some(d);
        case FetchFailed =>
          data := None;
          provider.Logout();
      }
      isFetching := false;
    }

    /** The effect run when the session changes: fetch for a session, clear the snapshot
      when there is none. */
    method OnAuthChange() returns (sent: Option<FetchRequest>)
      modifies this
      ensures provider.auth.None? ==> data.None? && sent.None? && isFetching == old(isFetching)
      ensures provider.auth.Some? ==> data == old(data)
      ensures provider.auth.Some? && !old(isFetching) ==>
                sent == Some(RequestFor(provider.auth.value)) && isFetching
      ensures provider.auth.Some? && old(isFetching) ==> sent.None? && isFetching
    {
      if provider.auth.Some? {
        sent := GetDashboardData();
      } else {
        data := None;
        sent := None;
      }
    }

    /** `setDashboardData`, the setter the pages use to patch the snapshot. */
    method SetData(d: Option<DashboardData>)
      modifies this
      ensures data == d && isFetching == old(isFetching)
    {
      data := d;
    }
  }

  /** While a fetch is in flight a second call sends nothing; once it settles a new
    fetch can start. */
  method OneFetchAtATime(store: DashboardStore, d: DashboardData)
    returns (first: Option<FetchRequest>, second: Option<FetchRequest>, third: Option<FetchRequest>)
    requires store.provider.auth.Some? && !store.isFetching
    modifies store, store.provider
    ensures first.Some? && second.None? && third.Some?
    ensures store.data == Some(d)
  {
    first := store.GetDashboardData();
    second := store.GetDashboardData();
    store.FinishFetch(Fetched(d));
    third := store.GetDashboardData();
  }
}
