/**
 The browser side of session refresh, apps/admin-dashboard/src/lib/http.ts: one module-level
 refresh promise shared by all requests that received a 401, and one retry for each request.

 A request is an entry of `requests`, a refresh call an entry of `exchanges`; both are named by
 their index. Only the identity of the current refresh promise is kept in `pending`.
 */
module HttpModel {
  import opened Options
  import opened AuthSessions

  /** Where a request is: on its way to the server, waiting for a refresh promise, or settled. */
  datatype Phase = OnWire | Awaiting(exchange: nat) | Finished

  /** `isAuth` is true of login, refresh and logout urls; `granted` is the access token that the
      awaited refresh resolved to; `header` the Authorization header last sent. */
  datatype Request = Request(isAuth: bool, retried: bool, sends: nat, phase: Phase,
                             waitedOn: Option<nat>, granted: Option<AccessToken>, header: Option<AccessToken>)

  /** The refresh call on the wire, and what its promise has resolved to on the client. */
  datatype Wire = Posted | Replied(reply: Option<Tokens>)
  datatype Outcome = Open | Resolved(value: Option<AccessToken>)
  datatype Exchange = Exchange(token: RefreshToken, wire: Wire, outcome: Outcome)

  datatype Client = Client(session: Option<Tokens>, pending: Option<nat>,
                           requests: seq<Request>, exchanges: seq<Exchange>)

  function Bearer(session: Option<Tokens>): Option<AccessToken> {
    if session.Some? then Some(session.value.access) else None
  }

  function Send(c: Client, isAuth: bool): Client {
    c.(requests := c.requests + [Request(isAuth, false, 1, OnWire, None, None, Bearer(c.session))])
  }

  /** `refreshAccessToken` for request `r`: join the refresh in flight or post a new one. */
  function AwaitRefresh(c: Client, r: nat): Client
    requires r < |c.requests| && c.session.Some?
  {
    var p := if c.pending.Some? then c.pending.value else |c.exchanges|;
    var waiting := c.(requests := c.requests[r := c.requests[r].(retried := true, phase := Awaiting(p), waitedOn := Some(p))]);
    if c.pending.Some? then waiting
    else waiting.(pending := Some(p), exchanges := c.exchanges + [Exchange(c.session.value.refresh, Posted, Open)])
  }

  /** The response interceptor; `status` is None when there is no response at all. */
  function OnResponse(c: Client, r: nat, status: Option<int>): Client
    requires r < |c.requests|
  {
    var q := c.requests[r];
    if status == Some(401) && !q.retried && !q.isAuth && c.session.Some? then AwaitRefresh(c, r)
    else
      var done := c.(requests := c.requests[r := q.(retried := q.retried || (status == Some(401) && !q.isAuth), phase := Finished)]);
      if status == Some(401) && !q.isAuth then done.(session := None) else done
  }

  /** The refresh promise `p` resolves: `.then` on a reply with tokens, `.catch` otherwise. */
  function Settle(c: Client, p: nat, data: Option<Tokens>): Client
    requires p < |c.exchanges|
  {
    c.(session := data, pending := None,
       exchanges := c.exchanges[p := c.exchanges[p].(outcome := Resolved(Bearer(data)))])
  }

  /** A waiter resumes with the resolved value: resend, or clear the session and reject.
      Resending passes the request interceptor, which prefers the store's own token. */
  function Resume(c: Client, r: nat, token: Option<AccessToken>): Client
    requires r < |c.requests|
  {
    var q := c.requests[r];
    if token.Some? then
      var header := if c.session.Some? then Bearer(c.session) else token;
      c.(requests := c.requests[r := q.(sends := q.sends + 1, phase := OnWire, granted := token, header := header)])
    else
      c.(session := None, requests := c.requests[r := q.(phase := Finished)])
  }
}

/** The module state of http.ts together with the session of the auth store. */
module HttpObjects {
  import opened Options
  import opened AuthSessions
  import opened Spec = HttpModel

  class HttpClient {
    var session: Option<Tokens>
    var pending: Option<nat>
    var requests: seq<Request>
    var exchanges: seq<Exchange>

    constructor ()
      ensures State() == Client(None, None, [], [])
    {
      session, pending, requests, exchanges := None, None, [], [];
    }

    function State(): Client
      reads this
    {
      Client(session, pending, requests, exchanges)
    }

    method Send(isAuth: bool)
      modifies this
      ensures State() == Spec.Send(old(State()), isAuth)
    {
      var header: Option<AccessToken> := None;
      if session.Some? {
        header := Some(session.value.access);
      }
      requests := requests + [Request(isAuth, false, 1, OnWire, None, None, header)];
    }

    /** The promise to wait for, or None when there is no session to refresh. */
    method RefreshAccessToken() returns (promise: Option<nat>)
      modifies this`pending, this`exchanges
      ensures promise.Some? <==> session.Some?
      ensures session.None? || old(pending).Some? ==> pending == old(pending) && exchanges == old(exchanges)
      ensures session.Some? ==> promise == pending
      ensures session.Some? && old(pending).None? ==>
                && pending == Some(|old(exchanges)|)
                && exchanges == old(exchanges) + [Exchange(session.value.refresh, Posted, Open)]
    {
      if session.None? {
        return None;
      }
      if pending.None? {
        pending := Some(|exchanges|);
        exchanges := exchanges + [Exchange(session.value.refresh, Posted, Open)];
      }
      promise := pending;
    }

    method OnResponse(r: nat, status: Option<int>)
      requires r < |requests|
      modifies this
      ensures State() == Spec.OnResponse(old(State()), r, status)
    {
      var request := requests[r];
      if status == Some(401) && !request.retried && !request.isAuth {
        request := request.(retried := true);
        var promise := RefreshAccessToken();
        if promise.Some? {
          requests := requests[r := request.(phase := Awaiting(promise.value), waitedOn := promise)];
          return;
        }
      }
      if status == Some(401) && !request.isAuth {
        session := None;
      }
      requests := requests[r := request.(phase := Finished)];
    }

    method OnRefreshSettled(p: nat, data: Option<Tokens>)
      requires p < |exchanges|
      modifies this
      ensures State() == Spec.Settle(old(State()), p, data)
    {
      var value: Option<AccessToken> := None;
      if data.Some? {
        session := data;
        value := Some(data.value.access);
      } else {
        session := None;
      }
      exchanges := exchanges[p := exchanges[p].(outcome := Resolved(value))];
      pending := None;
    }

    method Resume(r: nat, token: Option<AccessToken>)
      requires r < |requests|
      modifies this
      ensures State() == Spec.Resume(old(State()), r, token)
    {
      var request := requests[r];
      if token.Some? {
        request := request.(granted := token, header := token);
        if session.Some? {
          request := request.(header := Some(session.value.access));
        }
        requests := requests[r := request.(sends := request.sends + 1, phase := OnWire)];
      } else {
        session := None;
        requests := requests[r := request.(phase := Finished)];
      }
    }
  }
}
