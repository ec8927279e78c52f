/** The authentication context: the session held in memory, its copy in browser storage
    under the key "auth", login and logout, and the response interceptor that answers a
    401 by refreshing the access token once per request and replaying the request. */
module AuthContext {
  import opened Common
  import opened Records

  const StorageKey: string := "auth"

  /** The storage effect keeps a copy exactly when `auth?.accessToken` is truthy. */
  predicate Persisted(auth: Option<Session>)
  {
    auth.Some? && auth.value.accessToken != ""
  }

  /** Storage after the sync effect has run for `auth`: the session under "auth" when it
      has a token, otherwise no "auth" entry; every other key is left alone. */
  function Synced(auth: Option<Session>, storage: map<string, Session>): (r: map<string, Session>)
    ensures StorageKey in r <==> Persisted(auth)
    ensures Persisted(auth) ==> r[StorageKey] == auth.value
    ensures forall k | k != StorageKey :: (k in r <==> k in storage)
    ensures forall k | k != StorageKey && k in storage :: r[k] == storage[k]
  {
    if Persisted(auth) then storage[StorageKey := auth.value] else storage - {StorageKey}
  }

  /** The initial session: the parsed value stored under "auth", or null. */
  function StoredSession(storage: map<string, Session>): Option<Session>
  {
    if StorageKey in storage then Some(storage[StorageKey]) else None
  }

  /** Reloading the page after a sync gives back the session exactly when it carried a
      token, and no session otherwise. */
  lemma ReloadAfterSync(auth: Option<Session>, storage: map<string, Session>)
    ensures StoredSession(Synced(auth, storage)) == if Persisted(auth) then auth else None
  {
  }

  /** Syncing twice for the same session is syncing once; with no session this is
      `logout` applied twice. */
  lemma SyncIdempotent(auth: Option<Session>, storage: map<string, Session>)
    ensures Synced(auth, Synced(auth, storage)) == Synced(auth, storage)
  {
  }

  /** What `POST /auth` does: it answers the user record with its token, or fails with
      an optional server message beside the error's own message. */
  datatype LoginReply =
    | Authenticated(user: Session)
    | LoginError(serverMessage: Option<string>, message: string)

  /** `{ success: true, ...userData }` or `{ success: false, message }`. */
  datatype LoginResult = LoginSucceeded(user: Session) | LoginFailed(message: string)

  /** An error response as the interceptor reads it: `error.response?.status`. */
  datatype HttpError = HttpError(status: Option<int>)

  /** What `GET /auth/refresh` settles to, after passing through the interceptors itself. */
  datatype RefreshReply = Refreshed(accessToken: string) | RefreshFailed(error: HttpError)

  /** The interceptor's first step: refresh with the session in scope, or reject the
      error unchanged. */
  datatype Decision = Refresh(captured: Session) | Reject

  /** The interceptor's second step: replay the original request, or reject with the
      refresh error. */
  datatype Settled = Replay | RejectWith(error: HttpError)

  /** A request configuration; the interceptor writes `_retry` and `headers` into it. */
  class Request {
    const url: string
    var retry: bool
    var headers: map<string, string>

    constructor (url: string, headers: map<string, string>)
      ensures this.url == url && this.headers == headers && !retry
    {
      this.url := url;
      this.headers := headers;
      retry := false;
    }
  }

  class AuthProvider {
    var auth: Option<Session>
    var storage: map<string, Session>

    /** The storage slot agrees with the session held in memory. */
    ghost predicate Valid()
      reads this
    {
      storage == Synced(auth, storage)
    }

    /** Mounting the provider: read the stored session, then run the sync effect. */
    constructor (stored: map<string, Session>)
      ensures auth == StoredSession(stored)
      ensures storage == Synced(auth, stored)
      ensures Valid()
    {
      auth := StoredSession(stored);
      storage := Synced(StoredSession(stored), stored);
    }

    /** `setAuth(a)` followed by the sync effect. */
    method SetAuth(a: Option<Session>)
      modifies this
      ensures auth == a
      ensures storage == Synced(a, old(storage))
      ensures Valid()
    {
      auth := a;
      storage := Synced(a, storage);
    }

    /** `login`: never throws; a success replaces the session with the server's record,
      a failure reports the server message, else the error message, and changes nothing. */
    method Login(reply: LoginReply) returns (result: LoginResult)
      requires Valid()
      modifies this
      ensures Valid()
      ensures reply.Authenticated? ==>
                auth == Some(reply.user) && storage == Synced(auth, old(storage))
                && result == LoginSucceeded(reply.user)
      ensures reply.LoginError? ==>
                auth == old(auth) && storage == old(storage)
                && result == LoginFailed(Or(OrBlank(reply.serverMessage), reply.message))
    {
      match reply
      case Authenticated(user) =>
        SetAuth(Some(user));
        result := LoginSucceeded(user);
      case LoginError(serverMessage, message) =>
        result := LoginFailed(Or(OrBlank(serverMessage), message));
    }

    /** `logout`: remove the stored copy and clear the session; by `SyncIdempotent`
      a second logout changes nothing more. */
    method Logout()
      modifies this
      ensures auth == None
      ensures storage == Synced(None, old(storage))
      ensures Valid()
    {
      storage := storage - {StorageKey};
      SetAuth(None);
    }

    /** The interceptor meets an error: it refreshes only for a 401 on a request not yet
      flagged `_retry` while a session exists, and flags the request before refreshing.
      Every other error is rejected as it came. */
    method OnResponseError(req: Request, error: HttpError) returns (d: Decision)
      modifies req
      ensures d.Refresh? <==> error.status == Some(401) && !old(req.retry) && auth.Some?
      ensures d.Refresh? ==> d.captured == auth.value && req.retry
      ensures d.Reject? ==> req.retry == old(req.retry)
      ensures req.headers == old(req.headers)
    {
      if error.status == Some(401) && !req.retry && auth.Some? {
        req.retry := true;
        d := Refresh(auth.value);
      } else {
        d := Reject;
      }
    }

    /** The refresh settles. On success the session in scope gets the new token (and no
      other change) and is stored, and the original request gets `Authorization: Bearer
      <token>` beside its other headers and is replayed. On failure the refresh error is
      rejected and the session is left as it is. */
    method OnRefreshSettled(req: Request, captured: Session, reply: RefreshReply) returns (s: Settled)
      requires Valid()
      modifies this, req
      ensures Valid()
      ensures req.retry == old(req.retry)
      ensures reply.Refreshed? ==>
                auth == Some(captured.(accessToken := reply.accessToken))
                && storage == Synced(auth, old(storage))
                && req.headers == old(req.headers)["Authorization" := "Bearer " + reply.accessToken]
                && s == Replay
      ensures reply.RefreshFailed? ==>
                auth == old(auth) && storage == old(storage)
                && req.headers == old(req.headers) && s == RejectWith(reply.error)
    {
      match reply
      case Refreshed(token) =>
        var updated := captured.(accessToken := token);
        storage := storage[StorageKey := updated];
        SetAuth(Some(updated));
        req.headers := req.headers["Authorization" := "Bearer " + token];
        s := Replay;
      case RefreshFailed(error) =>
        s := RejectWith(error);
    }
  }

  /** A request answered 401 is refreshed once; its replay answered 401 again is
      rejected without a second refresh. */
  method RetryOnlyOnce(p: AuthProvider, req: Request, token: string)
    returns (first: Decision, settled: Settled, second: Decision)
    requires p.Valid() && p.auth.Some? && !req.retry
    modifies p, req
    ensures first.Refresh? && settled == Replay && second.Reject?
    ensures p.auth == Some(first.captured.(accessToken := token))
  {
    first := p.OnResponseError(req, HttpError(Some(401)));
    settled := p.OnRefreshSettled(req, first.captured, Refreshed(token));
    second := p.OnResponseError(req, HttpError(Some(401)));
  }

  // ---------------------------------------------------------------------------
  // One request through the whole interceptor chain

  /** What the server answers to one network call, in the order the calls are made:
      data (for `/auth/refresh`, the new access token) or an error status. */
  datatype Answer = Ok(data: string) | Fail(status: int)

  /** How the caller's promise settles; a call the script has no answer for gets no
      response, so its error has no status. */
  datatype Outcome = Resolved(data: string) | Rejected(status: Option<int>)

  /** The outcome, the session afterwards, the answers not consumed, and how many
      refresh requests were sent. */
  datatype Trace = Trace(outcome: Outcome, auth: Option<Session>, rest: seq<Answer>, refreshes: nat)

  /** One request sent through the interceptor with session `auth` in scope. `retry` is
      the request's `_retry` flag and `refreshRetry` the flag the refresh request is
      created with: the source creates it unflagged, so the refresh request is itself
      refreshed when it meets a 401. */
  function Send(auth: Option<Session>, retry: bool, refreshRetry: bool, script: seq<Answer>): (t: Trace)
    ensures |t.rest| <= |script|
    decreases |script|
  {
    if script == [] then Trace(Rejected(None), auth, [], 0)
    else match script[0]
      case Ok(data) => Trace(Resolved(data), auth, script[1..], 0)
      case Fail(status) =>
        if status == 401 && !retry && auth.Some? then
          var r := Send(auth, refreshRetry, refreshRetry, script[1..]);
          if r.outcome.Resolved? then
            var replay := Send(Some(auth.value.(accessToken := r.outcome.data)), true, refreshRetry, r.rest);
            Trace(replay.outcome, replay.auth, replay.rest, 1 + r.refreshes + replay.refreshes)
          else
            Trace(r.outcome, r.auth, r.rest, 1 + r.refreshes)
        else
          Trace(Rejected(Some(status)), auth, script[1..], 0)
  }

  /** The chain as written: the refresh request goes out without `_retry`. */
  function DispatchAsWritten(auth: Option<Session>, script: seq<Answer>): Trace
  {
    Send(auth, false, false, script)
  }

  /** The chain as intended: the refresh request goes out flagged, so a 401 on it is
      rejected instead of being refreshed again. */
  function Dispatch(auth: Option<Session>, script: seq<Answer>): Trace
  {
    Send(auth, false, true, script)
  }

  function Unauthorized(n: nat): (r: seq<Answer>)
    ensures |r| == n && forall i | 0 <= i < n :: r[i] == Fail(401)
  {
    if n == 0 then [] else [Fail(401)] + Unauthorized(n - 1)
  }

  /** As written, while the server keeps answering 401 every answer triggers one more
      nested refresh request: the refreshes are bounded only by the server. */
  lemma {:induction false} UnguardedRefreshLoop(s: Session, n: nat)
    ensures DispatchAsWritten(Some(s), Unauthorized(n)) == Trace(Rejected(None), Some(s), [], n)
  {
    if n > 0 {
      assert Unauthorized(n)[1..] == Unauthorized(n - 1);
      UnguardedRefreshLoop(s, n - 1);
    }
  }

  /** A request already flagged `_retry` is never refreshed. */
  lemma FlaggedNeverRefreshes(auth: Option<Session>, refreshRetry: bool, script: seq<Answer>)
    ensures Send(auth, true, refreshRetry, script).refreshes == 0
    ensures script != [] && script[0].Fail? ==>
              Send(auth, true, refreshRetry, script) == Trace(Rejected(Some(script[0].status)), auth, script[1..], 0)
  {
  }

  /** With the refresh request flagged, one user request causes at most one refresh,
      whatever the server answers. */
  lemma RefreshAtMostOnce(auth: Option<Session>, script: seq<Answer>)
    ensures Dispatch(auth, script).refreshes <= 1
  {
    if script != [] && script[0].Fail? && script[0].status == 401 && auth.Some? {
      var r := Send(auth, true, true, script[1..]);
      FlaggedNeverRefreshes(auth, true, script[1..]);
      if r.outcome.Resolved? {
        FlaggedNeverRefreshes(Some(auth.value.(accessToken := r.outcome.data)), true, r.rest);
      }
    }
  }

  /** The same endless 401s as in `UnguardedRefreshLoop`: the flagged chain refreshes
      once, rejects with the refresh request's 401 and leaves the session alone. */
  lemma StopsAfterOneRefresh(s: Session, n: nat)
    ensures Dispatch(Some(s), Unauthorized(n + 2)) == Trace(Rejected(Some(401)), Some(s), Unauthorized(n), 1)
  {
    assert Unauthorized(n + 2)[1..] == Unauthorized(n + 1);
    assert Unauthorized(n + 1)[1..] == Unauthorized(n);
    FlaggedNeverRefreshes(Some(s), true, Unauthorized(n + 1));
  }

  /** A 401 followed by a successful refresh replays the request once with the new
      token; whatever the replay gets is final, a second 401 included. */
  lemma RefreshThenReplay(s: Session, token: string, x: Answer, rest: seq<Answer>)
    ensures Dispatch(Some(s), [Fail(401), Ok(token), x] + rest)
         == Trace(if x.Ok? then Resolved(x.data) else Rejected(Some(x.status)),
                  Some(s.(accessToken := token)), rest, 1)
  {
    var script := [Fail(401), Ok(token), x] + rest;
    assert script[1..] == [Ok(token), x] + rest;
    assert script[1..][1..] == [x] + rest;
    var r := Send(Some(s), true, true, script[1..]);
    assert r == Trace(Resolved(token), Some(s), [x] + rest, 0);
    var updated := Some(s.(accessToken := token));
    FlaggedNeverRefreshes(updated, true, [x] + rest);
    assert ([x] + rest)[1..] == rest;
  }

  /** A refresh that fails rejects with its own error and keeps the session: the context
      does not log out here. */
  lemma RefreshFailureKeepsSession(s: Session, status: int, rest: seq<Answer>)
    ensures Dispatch(Some(s), [Fail(401), Fail(status)] + rest)
         == Trace(Rejected(Some(status)), Some(s), rest, 1)
  {
    var script := [Fail(401), Fail(status)] + rest;
    assert script[1..] == [Fail(status)] + rest;
    assert script[1..][1..] == rest;
    FlaggedNeverRefreshes(Some(s), true, script[1..]);
  }

  /** The chain on three answers: the first one decides whether a refresh is sent, the
      second answers it, and the third answers the replay. */
  lemma DispatchThree(auth: Option<Session>, status: int, ans: Answer, next: Answer)
    ensures !(status == 401 && auth.Some?) ==>
              Dispatch(auth, [Fail(status), ans, next]) == Trace(Rejected(Some(status)), auth, [ans, next], 0)
    ensures status == 401 && auth.Some? && ans.Ok? ==>
              Dispatch(auth, [Fail(status), ans, next])
              == Trace(if next.Ok? then Resolved(next.data) else Rejected(Some(next.status)),
                       Some(auth.value.(accessToken := ans.data)), [], 1)
    ensures status == 401 && auth.Some? && ans.Fail? ==>
              Dispatch(auth, [Fail(status), ans, next]) == Trace(Rejected(Some(ans.status)), auth, [next], 1)
  {
    var script := [Fail(status), ans, next];
    assert script[1..] == [ans, next] && script[1..][1..] == [next] && [next][1..] == [];
    if status == 401 && auth.Some? {
      FlaggedNeverRefreshes(auth, true, [ans, next]);
      if ans.Ok? {
        FlaggedNeverRefreshes(Some(auth.value.(accessToken := ans.data)), true, [next]);
      }
    }
  }

  /** The provider's two steps agree with `Dispatch`: a request answered `status` is
      refreshed by `OnResponseError` exactly when the chain sends a refresh request, and
      the refresh answer `ans` then leaves the provider with the chain's session and
      settles as the chain does, the replay getting `next`. */
  method StepsAgreeWithDispatch(p: AuthProvider, req: Request, status: int, ans: Answer, next: Answer)
    returns (d: Decision, settled: Option<Settled>)
    requires p.Valid() && !req.retry
    modifies p, req
    ensures p.Valid()
    ensures d.Refresh? <==> Dispatch(old(p.auth), [Fail(status), ans, next]).refreshes == 1
    ensures d.Reject? ==> settled.None? && p.auth == old(p.auth)
                          && Dispatch(old(p.auth), [Fail(status), ans, next]).outcome == Rejected(Some(status))
    ensures d.Refresh? && ans.Ok? ==>
              settled == Some(Replay) && p.auth == Dispatch(old(p.auth), [Fail(status), ans, next]).auth
              && req.headers == old(req.headers)["Authorization" := "Bearer " + ans.data]
    ensures d.Refresh? && ans.Fail? ==>
              settled == Some(RejectWith(HttpError(Some(ans.status))))
              && p.auth == Dispatch(old(p.auth), [Fail(status), ans, next]).auth
              && Dispatch(old(p.auth), [Fail(status), ans, next]).outcome == Rejected(Some(ans.status))
  {
    DispatchThree(p.auth, status, ans, next);
    d := p.OnResponseError(req, HttpError(Some(status)));
    if d.Refresh? {
      var reply := if ans.Ok? then Refreshed(ans.data) else RefreshFailed(HttpError(Some(ans.status)));
      var s := p.OnRefreshSettled(req, d.captured, reply);
      settled := Some(s);
    } else {
      settled := None;
    }
  }

  /** Errors other than 401, and any error without a session, pass through untouched. */
  lemma OtherErrorsPassThrough(auth: Option<Session>, status: int, rest: seq<Answer>)
    requires status != 401 || auth.None?
    ensures Dispatch(auth, [Fail(status)] + rest) == Trace(Rejected(Some(status)), auth, rest, 0)
  {
    assert ([Fail(status)] + rest)[1..] == rest;
  }
}
