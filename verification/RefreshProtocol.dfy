/**
 The whole refresh protocol: one client, the server, and a network that may delay, reorder or
 lose every message. A run is any sequence of events; an event that is not possible in a state
 leaves the state as it is, so every statement about runs covers every interleaving.
 */
module RefreshProtocol {
  import opened Options
  import opened AuthSessions
  import opened HttpModel
  import opened Sequences

  /** `logins` holds the answers to login calls that the client has not received;
      `owned` the sessions that were created for this client;
      `mismatched` records that the server took its mismatch-and-revoke branch for a call of this client. */
  datatype World = World(db: Db, client: Client, logins: seq<Option<Tokens>>, owned: set<SessionId>, mismatched: bool)

  datatype Event =
    | SendRequest(isAuth: bool)
    | GetResponse(request: nat, status: Option<int>)
    | ResumeWaiter(request: nat)
    | ServeRefresh(exchange: nat, now: int)
    | DeliverReply(exchange: nat)
    | LoseConnection(exchange: nat)
    | ServeLogin(now: int, code: string, password: string)
    | DeliverLogin(login: nat)
    | ClearSession
    | Interfere(db: Db)

  /** What everybody else may do to the tables: anything except store another refresh token in
      a session of this client, or sign with a serial number again. */
  ghost predicate LeavesTokens(db: Db, after: Db, owned: set<SessionId>) {
    && |db.sessions| <= |after.sessions| && db.nextSerial <= after.nextSerial
    && forall s :: s in owned && s < |db.sessions| ==> after.sessions[s].hash == db.sessions[s].hash
  }

  ghost function Step(w: World, e: Event): World {
    var c := w.client;
    match e
    case SendRequest(isAuth) => w.(client := Send(c, isAuth))
    case GetResponse(r, status) =>
      if r < |c.requests| && c.requests[r].phase.OnWire? then w.(client := OnResponse(c, r, status)) else w
    case ResumeWaiter(r) =>
      if r < |c.requests| && c.requests[r].phase.Awaiting? && c.requests[r].phase.exchange < |c.exchanges|
         && c.exchanges[c.requests[r].phase.exchange].outcome.Resolved?
      then w.(client := Resume(c, r, c.exchanges[c.requests[r].phase.exchange].outcome.value)) else w
    case ServeRefresh(i, now) =>
      if i < |c.exchanges| && c.exchanges[i].wire.Posted? then
        var (db, answer) := Refresh(w.db, now, c.exchanges[i].token);
        var reply := if answer.Ok? then Some(answer.value) else None;
        w.(db := db, mismatched := w.mismatched || answer == Err(TokenMismatch),
           client := c.(exchanges := c.exchanges[i := c.exchanges[i].(wire := Replied(reply))]))
      else w
    case DeliverReply(i) =>
      if i < |c.exchanges| && c.pending == Some(i) && c.exchanges[i].wire.Replied?
      then w.(client := Settle(c, i, c.exchanges[i].wire.reply)) else w
    case LoseConnection(i) =>
      if i < |c.exchanges| && c.pending == Some(i) then w.(client := Settle(c, i, None)) else w
    case ServeLogin(now, code, password) =>
      var (db, answer) := Login(w.db, now, code, password);
      if answer.Ok? then
        w.(db := db, owned := w.owned + {|w.db.sessions|}, logins := w.logins + [Some(answer.value)])
      else w
    case DeliverLogin(j) =>
      if j < |w.logins| && w.logins[j].Some?
      then w.(client := c.(session := w.logins[j]), logins := w.logins[j := None]) else w
    case ClearSession => w.(client := c.(session := None))
    case Interfere(db) => if LeavesTokens(w.db, db, w.owned) then w.(db := db) else w
  }

  ghost function Run(w: World, events: seq<Event>): World
    decreases events
  {
    if events == [] then w else Run(Step(w, events[0]), events[1..])
  }

  /** A freshly loaded page: with no session, or with one that it kept in local storage from an earlier visit.
      The server may already hold anything else. */
  ghost predicate Start(w: World) {
    && w.client == Client(w.client.session, None, [], []) && w.logins == [] && !w.mismatched
    && w.owned == (if w.client.session.Some? then {w.client.session.value.refresh.sessionId} else {})
    && (w.client.session.Some? ==> w.client.session.value.access.serial < w.db.nextSerial)
  }

  /** The session that the page kept, if any, is not stale. */
  predicate KeptSessionStored(w: World) {
    w.client.session.Some? ==> Stored(w.db, w.client.session.value.refresh)
  }

  // ---------- The safety invariant ----------

  predicate Stored(db: Db, token: RefreshToken) {
    token.sessionId < |db.sessions| && db.sessions[token.sessionId].hash == Some(token)
  }

  predicate Outstanding(c: Client, i: nat) {
    i < |c.exchanges| && c.exchanges[i].wire.Posted?
  }

  /** No refresh call that the server has yet to serve is for session `sid`. */
  ghost predicate NonePosted(c: Client, sid: SessionId) {
    forall i :: 0 <= i < |c.exchanges| && Outstanding(c, i) ==> c.exchanges[i].token.sessionId != sid
  }

  predicate RefreshingSession(c: Client, sid: SessionId) {
    c.pending.Some? && c.pending.value < |c.exchanges| && c.exchanges[c.pending.value].token.sessionId == sid
  }

  /** The refresh in flight, if there is one, is the only open promise. */
  ghost predicate OneInFlight(c: Client) {
    && (c.pending.Some? ==> c.pending.value < |c.exchanges|)
    && forall i :: 0 <= i < |c.exchanges| ==> (c.exchanges[i].outcome.Open? <==> c.pending == Some(i))
  }

  ghost predicate RepliesFit(c: Client) {
    forall i :: 0 <= i < |c.exchanges| && c.exchanges[i].wire.Replied? && c.exchanges[i].wire.reply.Some? ==>
      c.exchanges[i].wire.reply.value.refresh.sessionId == c.exchanges[i].token.sessionId
  }

  /** Every refresh token on its way to the server is the stored one, and no two are for one session. */
  ghost predicate PostedCurrent(w: World) {
    && (forall i :: 0 <= i < |w.client.exchanges| && Outstanding(w.client, i) ==> Stored(w.db, w.client.exchanges[i].token))
    && (forall i, j :: 0 <= i < j < |w.client.exchanges| && Outstanding(w.client, i) && Outstanding(w.client, j) ==>
          w.client.exchanges[i].token.sessionId != w.client.exchanges[j].token.sessionId)
  }

  /** A pair of tokens that will become, or is, the client's session. */
  ghost predicate Carries(w: World, t: Tokens) {
    Stored(w.db, t.refresh) && NonePosted(w.client, t.refresh.sessionId)
  }

  ghost predicate ReplyCurrent(w: World) {
    var c := w.client;
    c.pending.Some? && c.pending.value < |c.exchanges| && c.exchanges[c.pending.value].wire.Replied?
    && c.exchanges[c.pending.value].wire.reply.Some? ==>
      Carries(w, c.exchanges[c.pending.value].wire.reply.value)
  }

  ghost predicate SessionCurrent(w: World) {
    var c := w.client;
    c.session.Some? && !RefreshingSession(c, c.session.value.refresh.sessionId) ==> Carries(w, c.session.value)
  }

  /** Answers to logins carry current tokens of sessions that occur nowhere else. */
  ghost predicate LoginsCurrent(w: World) {
    && (forall j :: 0 <= j < |w.logins| && w.logins[j].Some? ==>
          var t := w.logins[j].value;
          && Carries(w, t)
          && !RefreshingSession(w.client, t.refresh.sessionId)
          && (w.client.session.Some? ==> w.client.session.value.refresh.sessionId != t.refresh.sessionId))
    && (forall j, k :: 0 <= j < k < |w.logins| && w.logins[j].Some? && w.logins[k].Some? ==>
          w.logins[j].value.refresh.sessionId != w.logins[k].value.refresh.sessionId)
  }

  ghost predicate OwnsAll(w: World) {
    && (forall s :: s in w.owned ==> s < |w.db.sessions|)
    && (forall i :: 0 <= i < |w.client.exchanges| ==> w.client.exchanges[i].token.sessionId in w.owned)
    && (w.client.session.Some? ==> w.client.session.value.refresh.sessionId in w.owned)
    && (forall j :: 0 <= j < |w.logins| && w.logins[j].Some? ==> w.logins[j].value.refresh.sessionId in w.owned)
  }

  ghost predicate Safe(w: World) {
    && !w.mismatched
    && OneInFlight(w.client) && RepliesFit(w.client) && PostedCurrent(w) && ReplyCurrent(w)
    && SessionCurrent(w) && LoginsCurrent(w) && OwnsAll(w)
  }

  lemma StartIsSafe(w: World)
    requires Start(w) && KeptSessionStored(w)
    ensures Safe(w)
  {
  }

  /** Request bookkeeping and dropping the session carry no token anywhere. */
  lemma QuietKeepsSafe(w: World, requests: seq<Request>, session: Option<Tokens>)
    requires Safe(w) && (session == w.client.session || session.None?)
    ensures Safe(w.(client := w.client.(requests := requests, session := session)))
  {
  }

  lemma PostKeepsSafe(w: World)
    requires Safe(w) && w.client.session.Some? && w.client.pending.None?
    ensures var c := w.client;
            Safe(w.(client := c.(pending := Some(|c.exchanges|),
                                 exchanges := c.exchanges + [Exchange(c.session.value.refresh, Posted, Open)])))
  {
    var c := w.client;
    assert Carries(w, c.session.value);
    var c' := c.(pending := Some(|c.exchanges|), exchanges := c.exchanges + [Exchange(c.session.value.refresh, Posted, Open)]);
    assert forall i :: 0 <= i < |c.exchanges| ==> c'.exchanges[i] == c.exchanges[i] && (Outstanding(c', i) <==> Outstanding(c, i));
    assert LoginsCurrent(w.(client := c'));
  }

  lemma ResponseKeepsSafe(w: World, r: nat, status: Option<int>)
    requires Safe(w)
    ensures Safe(Step(w, GetResponse(r, status)))
  {
    var c := w.client;
    if r < |c.requests| && c.requests[r].phase.OnWire? {
      var c' := OnResponse(c, r, status);
      if status == Some(401) && !c.requests[r].retried && !c.requests[r].isAuth && c.session.Some? {
        QuietKeepsSafe(w, c'.requests, c.session);
        if c.pending.None? {
          PostKeepsSafe(w.(client := c.(requests := c'.requests)));
        }
      } else {
        QuietKeepsSafe(w, c'.requests, c'.session);
      }
    }
  }

  lemma ResumeKeepsSafe(w: World, r: nat)
    requires Safe(w)
    ensures Safe(Step(w, ResumeWaiter(r)))
  {
    var w' := Step(w, ResumeWaiter(r));
    QuietKeepsSafe(w, w'.client.requests, w'.client.session);
  }

  /** Serving a stored token never mismatches and touches no other session's token. */
  lemma ServeStored(db: Db, now: int, token: RefreshToken)
    requires Stored(db, token)
    ensures var (after, answer) := Refresh(db, now, token);
            && answer != Err(TokenMismatch)
            && |after.sessions| == |db.sessions|
            && (answer.Err? ==> after == db)
            && (answer.Ok? ==> Stored(after, answer.value.refresh) && answer.value.refresh.sessionId == token.sessionId)
            && (forall s :: 0 <= s < |db.sessions| && s != token.sessionId ==> after.sessions[s] == db.sessions[s])
  {
  }

  lemma ServeKeepsSafe(w: World, i: nat, now: int)
    requires Safe(w)
    ensures Safe(Step(w, ServeRefresh(i, now)))
  {
    hide Refresh;
    if Outstanding(w.client, i) {
      ServeStored(w.db, now, w.client.exchanges[i].token);
      var w' := Step(w, ServeRefresh(i, now));
      assert OneInFlight(w'.client) && RepliesFit(w'.client) && OwnsAll(w');
      assert PostedCurrent(w');
      assert forall s :: s != w.client.exchanges[i].token.sessionId && NonePosted(w.client, s) ==> NonePosted(w'.client, s);
      assert NonePosted(w'.client, w.client.exchanges[i].token.sessionId);
      assert ReplyCurrent(w');
      assert SessionCurrent(w');
      assert LoginsCurrent(w');
    }
  }

  lemma DeliverKeepsSafe(w: World, i: nat)
    requires Safe(w)
    ensures Safe(Step(w, DeliverReply(i)))
  {
  }

  lemma LoseKeepsSafe(w: World, i: nat)
    requires Safe(w)
    ensures Safe(Step(w, LoseConnection(i)))
  {
  }

  /** A login opens one session, which stores the token it answers with, and touches no other. */
  lemma LoginAdds(db: Db, now: int, code: string, password: string)
    ensures var (after, answer) := Login(db, now, code, password);
            answer.Ok? ==>
              && |after.sessions| == |db.sessions| + 1
              && (forall s :: 0 <= s < |db.sessions| ==> after.sessions[s] == db.sessions[s])
              && Stored(after, answer.value.refresh) && answer.value.refresh.sessionId == |db.sessions|
  {
    hide FindStaff, StaffCode;
  }

  lemma LoginKeepsSafe(w: World, now: int, code: string, password: string)
    requires Safe(w)
    ensures Safe(Step(w, ServeLogin(now, code, password)))
  {
    var w' := Step(w, ServeLogin(now, code, password));
    if w' != w {
      LoginAdds(w.db, now, code, password);
      hide Login;
      assert w'.client == w.client;
      assert forall t :: Carries(w, t) ==> Carries(w', t);
      assert PostedCurrent(w') && ReplyCurrent(w') && SessionCurrent(w') && OwnsAll(w');
      var sid := |w.db.sessions|;
      assert forall i :: 0 <= i < |w.client.exchanges| ==> w.client.exchanges[i].token.sessionId != sid;
      assert LoginsCurrent(w');
    }
  }

  lemma DeliverLoginKeepsSafe(w: World, j: nat)
    requires Safe(w)
    ensures Safe(Step(w, DeliverLogin(j)))
  {
  }

  lemma InterfereKeepsSafe(w: World, db: Db)
    requires Safe(w)
    ensures Safe(Step(w, Interfere(db)))
  {
  }

  lemma StepKeepsSafe(w: World, e: Event)
    requires Safe(w)
    ensures Safe(Step(w, e))
  {
    match e
    case SendRequest(isAuth) => QuietKeepsSafe(w, Send(w.client, isAuth).requests, w.client.session);
    case GetResponse(r, status) => ResponseKeepsSafe(w, r, status);
    case ResumeWaiter(r) => ResumeKeepsSafe(w, r);
    case ServeRefresh(i, now) => ServeKeepsSafe(w, i, now);
    case DeliverReply(i) => DeliverKeepsSafe(w, i);
    case LoseConnection(i) => LoseKeepsSafe(w, i);
    case ServeLogin(now, code, password) => LoginKeepsSafe(w, now, code, password);
    case DeliverLogin(j) => DeliverLoginKeepsSafe(w, j);
    case ClearSession => QuietKeepsSafe(w, w.client.requests, None);
    case Interfere(db) => InterfereKeepsSafe(w, db);
  }

  lemma {:induction false} RunKeepsSafe(w: World, events: seq<Event>)
    requires Safe(w)
    ensures Safe(Run(w, events))
    decreases events
  {
    if events != [] {
      StepKeepsSafe(w, events[0]);
      RunKeepsSafe(Step(w, events[0]), events[1..]);
    }
  }

  /** In every interleaving of requests, 401s, refresh calls, logins, delays and losses, and whatever other
      parties do to the tables, from a page that starts with no session or with one that is not stale: a client
      with a session and no refresh in flight holds exactly the refresh token the server stores, and the client
      never drives the server to revoke. */
  lemma ClientHoldsStoredToken(start: World, events: seq<Event>)
    requires Start(start) && KeptSessionStored(start)
    ensures var w := Run(start, events);
            && !w.mismatched
            && (w.client.session.Some? && w.client.pending.None? ==> Stored(w.db, w.client.session.value.refresh))
  {
    StartIsSafe(start);
    RunKeepsSafe(start, events);
    var w := Run(start, events);
    if w.client.session.Some? && w.client.pending.None? {
      assert Carries(w, w.client.session.value);
    }
  }

  /** With a stale one it does, as soon as a request meets a 401 while the server would find the session. */
  lemma StaleSessionMismatches(start: World, now: int)
    requires Start(start) && !KeptSessionStored(start)
    requires Refreshable(start.db, now, start.client.session.value.refresh)
    ensures var after := Run(start, [SendRequest(false), GetResponse(0, Some(401)), ServeRefresh(0, now)]);
            var sid := start.client.session.value.refresh.sessionId;
            after.mismatched && sid < |after.db.sessions| && after.db.sessions[sid].revoked
  {
    var e1, e2, e3 := SendRequest(false), GetResponse(0, Some(401)), ServeRefresh(0, now);
    var w1 := Step(start, e1);
    var w2 := Step(w1, e2);
    assert w2.client.exchanges == [Exchange(start.client.session.value.refresh, Posted, Open)] && w2.db == start.db;
    StaleCallMismatches(w2, now);
    hide Step, Refreshable, Start, KeptSessionStored;
    assert [e1, e2, e3][1..] == [e2, e3] && [e2, e3][1..] == [e3] && [e3][1..] == [];
    assert Run(w2, [e3]) == Step(w2, e3) && Run(w1, [e2, e3]) == Run(w2, [e3]);
  }

  lemma StaleCallMismatches(w: World, now: int)
    requires Outstanding(w.client, 0) && Refreshable(w.db, now, w.client.exchanges[0].token) && !Stored(w.db, w.client.exchanges[0].token)
    ensures var (after, sid) := (Step(w, ServeRefresh(0, now)), w.client.exchanges[0].token.sessionId);
            after.mismatched && sid < |after.db.sessions| && after.db.sessions[sid].revoked
  {
  }

  /** In every reachable state, a refresh call that the server finds a live session for goes through
      when its answer arrives: nothing the client did before can have spoilt its token. */
  lemma RefreshGoesThrough(start: World, events: seq<Event>, i: nat, now: int)
    requires Start(start) && KeptSessionStored(start)
    requires var w := Run(start, events);
             Outstanding(w.client, i) && w.client.pending == Some(i) && Refreshable(w.db, now, w.client.exchanges[i].token)
    ensures var w := Run(start, events);
            var after := Step(Step(w, ServeRefresh(i, now)), DeliverReply(i));
            && after.client.pending.None? && after.client.session.Some?
            && Stored(after.db, after.client.session.value.refresh)
            && after.client.exchanges[i].outcome == Resolved(Some(after.client.session.value.access))
            && Live(after.db, now, w.client.exchanges[i].token.sessionId) == (w.db.ttl > 0)
  {
    StartIsSafe(start);
    RunKeepsSafe(start, events);
    var w := Run(start, events);
    hide Run, Safe, Start;
    GoesThrough(w, i, now);
  }

  lemma GoesThrough(w: World, i: nat, now: int)
    requires Safe(w)
    requires Outstanding(w.client, i) && w.client.pending == Some(i) && Refreshable(w.db, now, w.client.exchanges[i].token)
    ensures var after := Step(Step(w, ServeRefresh(i, now)), DeliverReply(i));
            && after.client.pending.None? && after.client.session.Some?
            && Stored(after.db, after.client.session.value.refresh)
            && after.client.exchanges[i].outcome == Resolved(Some(after.client.session.value.access))
            && Live(after.db, now, w.client.exchanges[i].token.sessionId) == (w.db.ttl > 0)
  {
    assert Stored(w.db, w.client.exchanges[i].token);
  }

  /** No call that other parties can make counts as interference with this client's tokens: only
      presenting a refresh token of one of its sessions does. */
  lemma OtherCallsLeaveTokens(db: Db, call: Call, owned: set<SessionId>)
    requires call.op.RefreshOp? ==> call.op.token.sessionId !in owned
    ensures LeavesTokens(db, AuthSessions.Step(db, call), owned)
  {
  }

  // ---------- Requests ----------

  predicate RequestFits(c: Client, q: Request) {
    && 1 <= q.sends <= 2
    && (q.sends == 2 <==> q.granted.Some?)
    && (!q.retried ==> !q.phase.Awaiting? && q.sends == 1 && q.waitedOn.None?)
    && (q.phase.Awaiting? ==> q.retried && q.sends == 1 && q.waitedOn == Some(q.phase.exchange))
    && (q.retried && q.phase.OnWire? ==> q.sends == 2)
    && (q.waitedOn.Some? ==> q.waitedOn.value < |c.exchanges|)
    && (q.granted.Some? ==> q.waitedOn.Some? && c.exchanges[q.waitedOn.value].outcome == Resolved(q.granted))
  }

  ghost predicate RequestsFit(c: Client) {
    forall r :: 0 <= r < |c.requests| ==> RequestFits(c, c.requests[r])
  }

  ghost predicate Orderly(w: World) {
    OneInFlight(w.client) && RequestsFit(w.client)
  }

  lemma ResponseKeepsOrderly(w: World, r: nat, status: Option<int>)
    requires Orderly(w)
    ensures Orderly(Step(w, GetResponse(r, status)))
  {
    hide OneInFlight, RequestsFit, RequestFits;
    var c := w.client;
    if r < |c.requests| && c.requests[r].phase.OnWire? {
      var c' := OnResponse(c, r, status);
      FitsOf(c, r);
      if status == Some(401) && !c.requests[r].retried && !c.requests[r].isAuth && c.session.Some? {
        if c.pending.None? {
          PostKeepsOrderly(w);
          WaitingFits(w.(client := c.(pending := c'.pending, exchanges := c'.exchanges)), r, c'.requests[r]);
        } else {
          WaitingFits(w, r, c'.requests[r]);
        }
      } else {
        FinishedFits(c, c.requests[r], c'.requests[r]);
        RequestKeepsOrderly(w, r, c'.requests[r], c'.session);
      }
    }
  }

  lemma FitsOf(c: Client, r: nat)
    requires RequestsFit(c) && r < |c.requests|
    ensures RequestFits(c, c.requests[r])
  {
  }

  lemma FinishedFits(c: Client, q: Request, q': Request)
    requires RequestFits(c, q) && q.phase.OnWire? && q' == q.(retried := q'.retried, phase := Finished) && (q.retried ==> q'.retried)
    ensures RequestFits(c, q')
  {
  }

  lemma RequestKeepsOrderly(w: World, r: nat, q: Request, session: Option<Tokens>)
    requires Orderly(w) && r < |w.client.requests| && RequestFits(w.client, q)
    ensures Orderly(w.(client := w.client.(requests := w.client.requests[r := q], session := session)))
  {
    hide RequestFits;
    var c := w.client;
    var c' := c.(requests := c.requests[r := q], session := session);
    forall k | 0 <= k < |c'.requests|
      ensures RequestFits(c', c'.requests[k])
    {
      SameFit(c, c', c'.requests[k]);
    }
  }

  /** A request that starts to wait for the refresh in flight. */
  lemma WaitingFits(w: World, r: nat, q: Request)
    requires Orderly(w) && r < |w.client.requests| && w.client.pending.Some?
    requires var was := w.client.requests[r];
             && !was.retried && was.phase.OnWire? && RequestFits(w.client, was)
             && q == was.(retried := true, phase := Awaiting(w.client.pending.value), waitedOn := w.client.pending)
    ensures Orderly(w.(client := w.client.(requests := w.client.requests[r := q])))
  {
    RequestKeepsOrderly(w, r, q, w.client.session);
  }

  lemma PostKeepsOrderly(w: World)
    requires Orderly(w) && w.client.session.Some? && w.client.pending.None?
    ensures var c := w.client;
            var c' := c.(pending := Some(|c.exchanges|),
                         exchanges := c.exchanges + [Exchange(c.session.value.refresh, Posted, Open)]);
            Orderly(w.(client := c')) && forall q :: RequestFits(c, q) ==> RequestFits(c', q)
  {
    hide RequestFits;
    var c := w.client;
    var c' := c.(pending := Some(|c.exchanges|), exchanges := c.exchanges + [Exchange(c.session.value.refresh, Posted, Open)]);
    forall q | RequestFits(c, q)
      ensures RequestFits(c', q)
    {
      SameFit(c, c', q);
    }
  }

  lemma SendKeepsOrderly(w: World, isAuth: bool)
    requires Orderly(w)
    ensures Orderly(Step(w, SendRequest(isAuth)))
  {
  }

  lemma ResumeKeepsOrderly(w: World, r: nat)
    requires Orderly(w)
    ensures Orderly(Step(w, ResumeWaiter(r)))
  {
    hide OneInFlight, RequestsFit;
    var w' := Step(w, ResumeWaiter(r));
    if w' != w {
      FitsOf(w.client, r);
      RequestKeepsOrderly(w, r, w'.client.requests[r], w'.client.session);
    }
  }

  /** Settling the open promise with whatever came, or nothing. */
  lemma SettleKeepsOrderly(w: World, p: nat, data: Option<Tokens>)
    requires Orderly(w) && w.client.pending == Some(p)
    ensures Orderly(w.(client := Settle(w.client, p, data)))
  {
  }

  /** Events that leave the requests, the promises and what they resolve to as they are. */
  lemma OutsideKeepsOrderly(w: World, w': World)
    requires Orderly(w) && w'.client.requests == w.client.requests && w'.client.pending == w.client.pending
    requires |w'.client.exchanges| == |w.client.exchanges|
    requires forall i :: 0 <= i < |w.client.exchanges| ==> w'.client.exchanges[i].outcome == w.client.exchanges[i].outcome
    ensures Orderly(w')
  {
    hide RequestFits;
    forall r | 0 <= r < |w.client.requests|
      ensures RequestFits(w'.client, w.client.requests[r])
    {
      SameFit(w.client, w'.client, w.client.requests[r]);
    }
  }

  lemma SameFit(c: Client, c': Client, q: Request)
    requires RequestFits(c, q) && |c'.exchanges| >= |c.exchanges|
    requires forall i :: 0 <= i < |c.exchanges| ==> c'.exchanges[i].outcome == c.exchanges[i].outcome
    ensures RequestFits(c', q)
  {
  }

  lemma StepKeepsOrderly(w: World, e: Event)
    requires Orderly(w)
    ensures Orderly(Step(w, e))
  {
    hide OneInFlight, RequestsFit, Refresh, Login, OnResponse, Resume, LeavesTokens;
    match e
    case SendRequest(isAuth) => SendKeepsOrderly(w, isAuth);
    case GetResponse(r, status) => ResponseKeepsOrderly(w, r, status);
    case ResumeWaiter(r) => ResumeKeepsOrderly(w, r);
    case DeliverReply(i) =>
      if w.client.pending == Some(i) && Step(w, e) != w {
        SettleKeepsOrderly(w, i, w.client.exchanges[i].wire.reply);
      }
    case LoseConnection(i) =>
      if w.client.pending == Some(i) && Step(w, e) != w {
        SettleKeepsOrderly(w, i, None);
      }
    case _ => OutsideKeepsOrderly(w, Step(w, e));
  }

  lemma {:induction false} RunKeepsOrderly(w: World, events: seq<Event>)
    requires Orderly(w)
    ensures Orderly(Run(w, events))
    decreases events
  {
    if events != [] {
      StepKeepsOrderly(w, events[0]);
      RunKeepsOrderly(Step(w, events[0]), events[1..]);
    }
  }

  /** Every request is sent at most twice, a request to an auth url and one that never saw a 401 once;
      there is never more than one open refresh promise; and all requests that a refresh let
      through got one and the same access token, the one their common promise resolved to. */
  lemma RequestsOfARun(start: World, events: seq<Event>, r: nat, r': nat, i: nat, j: nat)
    requires Start(start)
    ensures var c := Run(start, events).client;
            && (r < |c.requests| ==> 1 <= c.requests[r].sends <= 2 && (!c.requests[r].retried ==> c.requests[r].sends == 1))
            && (i < |c.exchanges| && j < |c.exchanges| && c.exchanges[i].outcome.Open? && c.exchanges[j].outcome.Open? ==> i == j)
            && ((r < |c.requests| && r' < |c.requests| && c.requests[r].sends == 2 && c.requests[r'].sends == 2
                 && c.requests[r].waitedOn == c.requests[r'].waitedOn) ==>
                   c.requests[r].granted == c.requests[r'].granted)
  {
    RunKeepsOrderly(start, events);
    var c := Run(start, events).client;
    assert r < |c.requests| ==> RequestFits(c, c.requests[r]);
    assert r' < |c.requests| ==> RequestFits(c, c.requests[r']);
  }

  // ---------- What each event does to the page ----------

  /** All of the world but the client is as it was, and of the client's requests all but `r`. */
  ghost predicate OnlyRequestDiffers(w: World, w': World, r: nat) {
    && w' == w.(client := w'.client) && |w'.client.requests| == |w.client.requests|
    && forall k :: 0 <= k < |w.client.requests| && k != r ==> w'.client.requests[k] == w.client.requests[k]
  }

  /** The answer is the first 401 of an ordinary request, and there is a session to refresh. */
  predicate StartsWaiting(c: Client, q: Request, status: Option<int>) {
    status == Some(401) && !q.isAuth && !q.retried && c.session.Some?
  }

  /** An answer ends the session exactly if there is one and the answer is a 401 to an ordinary request that was
      sent again already. Any other than a first 401 only finishes its request; that one makes it wait for the
      refresh in flight, or for one posted with the session's token. */
  lemma AnswerEffect(w: World, r: nat, status: Option<int>)
    requires r < |w.client.requests| && w.client.requests[r].phase.OnWire?
    ensures var w' := Step(w, GetResponse(r, status));
            var (c, c') := (w.client, w'.client);
            var q := c.requests[r];
            && OnlyRequestDiffers(w, w', r)
            && (c'.session != c.session <==> c.session.Some? && status == Some(401) && !q.isAuth && q.retried)
            && (c'.session == c.session || c'.session.None?)
            && (!StartsWaiting(c, q, status) ==>
                  && c'.pending == c.pending && c'.exchanges == c.exchanges
                  && c'.requests[r] == q.(phase := Finished, retried := c'.requests[r].retried))
            && (StartsWaiting(c, q, status) ==>
                  && c'.pending.Some? && (c.pending.Some? ==> c'.pending == c.pending && c'.exchanges == c.exchanges)
                  && (c.pending.None? ==> c'.exchanges == c.exchanges + [Exchange(c.session.value.refresh, Posted, Open)]
                                          && c'.pending == Some(|c.exchanges|))
                  && c'.requests[r] == q.(retried := true, phase := Awaiting(c'.pending.value), waitedOn := c'.pending))
  {
  }

  /** Sending carries the session's access token, if there is a session, and changes nothing else. */
  lemma SendEffect(w: World, isAuth: bool)
    ensures var w' := Step(w, SendRequest(isAuth));
            var (c, c') := (w.client, w'.client);
            && w' == w.(client := c.(requests := c'.requests)) && |c'.requests| == |c.requests| + 1
            && c'.requests[..|c.requests|] == c.requests
            && var q := c'.requests[|c.requests|];
               && q.isAuth == isAuth && !q.retried && q.sends == 1 && q.phase.OnWire? && q.granted.None? && q.waitedOn.None?
               && (q.header.Some? <==> c.session.Some?) && (c.session.Some? ==> q.header.value == c.session.value.access)
  {
  }

  /** A waiter whose promise resolved to a token is sent again, with the token of the session that the page then
      has, or the resolved one if it has none, and leaves that session alone; with nothing it ends the session. */
  lemma ResumeEffect(w: World, r: nat)
    requires r < |w.client.requests| && w.client.requests[r].phase.Awaiting?
    requires var i := w.client.requests[r].phase.exchange; i < |w.client.exchanges| && w.client.exchanges[i].outcome.Resolved?
    ensures var w' := Step(w, ResumeWaiter(r));
            var (c, c') := (w.client, w'.client);
            var (q, q') := (c.requests[r], c'.requests[r]);
            var token := c.exchanges[q.phase.exchange].outcome.value;
            && OnlyRequestDiffers(w, w', r) && c'.pending == c.pending && c'.exchanges == c.exchanges
            && (token.None? ==> c'.session.None? && q' == q.(phase := Finished))
            && (token.Some? ==>
                  && c'.session == c.session
                  && q' == q.(phase := OnWire, sends := q.sends + 1, granted := token, header := q'.header)
                  && q'.header == (if c.session.Some? then Some(c.session.value.access) else token))
  {
  }

  /** The promise of the refresh in flight settles, on its answer or on a lost connection: the page has the session
      that came, or none, no refresh is in flight any more, and the waiters get the access token or nothing. */
  lemma SettleEffect(w: World, e: Event, i: nat)
    requires w.client.pending == Some(i) && i < |w.client.exchanges|
    requires e == LoseConnection(i) || (e == DeliverReply(i) && w.client.exchanges[i].wire.Replied?)
    ensures var w' := Step(w, e);
            var (c, c') := (w.client, w'.client);
            && w' == w.(client := c') && c'.requests == c.requests && c'.pending.None?
            && c'.session == (if e.LoseConnection? then None else c.exchanges[i].wire.reply)
            && |c'.exchanges| == |c.exchanges|
            && (forall k :: 0 <= k < |c.exchanges| && k != i ==> c'.exchanges[k] == c.exchanges[k])
            && c'.exchanges[i].token == c.exchanges[i].token && c'.exchanges[i].wire == c.exchanges[i].wire
            && c'.exchanges[i].outcome.Resolved?
            && (c'.exchanges[i].outcome.value.Some? <==> c'.session.Some?)
            && (c'.session.Some? ==> c'.exchanges[i].outcome.value.value == c'.session.value.access)
  {
  }

  // ---------- Termination ----------

  predicate IsExchangeStep(e: Event) {
    e.GetResponse? || e.ResumeWaiter? || e.ServeRefresh? || e.DeliverReply? || e.LoseConnection?
  }

  const RequestWork: Request -> int := (q: Request) =>
    match q.phase
    case Finished => 0
    case Awaiting(_) => 2
    case OnWire => if q.retried then 1 else 5

  const ExchangeWork: Exchange -> int := (x: Exchange) =>
    (if x.wire.Posted? then 1 else 0) + (if x.outcome.Open? then 1 else 0)

  ghost function Work(c: Client): int {
    Total(c.requests, RequestWork) + Total(c.exchanges, ExchangeWork)
  }

  lemma ResponseUsesWork(c: Client, r: nat, status: Option<int>)
    requires r < |c.requests| && c.requests[r].phase.OnWire? && RequestFits(c, c.requests[r])
    ensures Work(OnResponse(c, r, status)) < Work(c)
  {
    var c' := OnResponse(c, r, status);
    TotalUpdate(c.requests, r, c'.requests[r], RequestWork);
    if status == Some(401) && !c.requests[r].retried && !c.requests[r].isAuth && c.session.Some? && c.pending.None? {
      FrontLast(c.exchanges, Exchange(c.session.value.refresh, Posted, Open));
    }
  }

  lemma ResumeUsesWork(c: Client, r: nat, token: Option<AccessToken>)
    requires r < |c.requests| && c.requests[r].phase.Awaiting? && RequestFits(c, c.requests[r])
    ensures Work(Resume(c, r, token)) < Work(c)
  {
    TotalUpdate(c.requests, r, Resume(c, r, token).requests[r], RequestWork);
  }

  lemma SettleUsesWork(c: Client, p: nat, data: Option<Tokens>)
    requires p < |c.exchanges| && c.exchanges[p].outcome.Open?
    ensures Work(Settle(c, p, data)) < Work(c)
  {
    TotalUpdate(c.exchanges, p, Settle(c, p, data).exchanges[p], ExchangeWork);
  }

  /** Every response, resumption, server step, delivery or loss that does anything uses up work. */
  lemma StepUsesWork(w: World, e: Event)
    requires Orderly(w) && IsExchangeStep(e)
    ensures Step(w, e) == w || Work(Step(w, e).client) < Work(w.client)
  {
    var c := w.client;
    if Step(w, e) != w {
      match e
      case GetResponse(r, status) => ResponseUsesWork(c, r, status);
      case ResumeWaiter(r) => ResumeUsesWork(c, r, c.exchanges[c.requests[r].phase.exchange].outcome.value);
      case ServeRefresh(i, now) => TotalUpdate(c.exchanges, i, Step(w, e).client.exchanges[i], ExchangeWork);
      case DeliverReply(i) => SettleUsesWork(c, i, c.exchanges[i].wire.reply);
      case LoseConnection(i) => SettleUsesWork(c, i, None);
    }
  }

  /** How many events of the run change the state. */
  ghost function Changes(w: World, events: seq<Event>): nat
    decreases events
  {
    if events == [] then 0
    else (if Step(w, events[0]) == w then 0 else 1) + Changes(Step(w, events[0]), events[1..])
  }

  lemma WorkNonNegative(c: Client)
    ensures Work(c) >= 0
  {
    TotalNonNegative(c.requests, RequestWork);
    TotalNonNegative(c.exchanges, ExchangeWork);
  }

  /** The exchange of the requests at hand ends: however its steps interleave, at most `Work` of them happen. */
  lemma {:induction false} ExchangeTerminates(w: World, events: seq<Event>)
    requires Orderly(w) && forall e :: e in events ==> IsExchangeStep(e)
    ensures Changes(w, events) <= Work(w.client)
    decreases events
  {
    WorkNonNegative(w.client);
    if events != [] {
      StepUsesWork(w, events[0]);
      StepKeepsOrderly(w, events[0]);
      ExchangeTerminates(Step(w, events[0]), events[1..]);
    }
  }

  /** And it cannot get stuck before every request is answered and every promise is settled, on a network
      that loses nothing: the server can serve a posted call, whenever it likes, the client can take its answer,
      a request on its way can be answered, and a waiter whose promise is settled can resume. */
  lemma NotStuck(w: World, now: int, status: int) returns (e: Event)
    requires Orderly(w)
    requires (exists r :: 0 <= r < |w.client.requests| && !w.client.requests[r].phase.Finished?) || w.client.pending.Some?
    ensures IsExchangeStep(e) && Step(w, e) != w
    ensures !e.LoseConnection? && (e.GetResponse? ==> e.status == Some(status)) && (e.ServeRefresh? ==> e.now == now)
  {
    hide Refresh;
    var c := w.client;
    if c.pending.Some? {
      var p := c.pending.value;
      assert c.exchanges[p].outcome.Open?;
      if c.exchanges[p].wire.Posted? {
        e := ServeRefresh(p, now);
        assert Step(w, e).client.exchanges[p].wire.Replied?;
      } else {
        e := DeliverReply(p);
        assert Step(w, e).client.exchanges[p].outcome.Resolved?;
      }
    } else {
      var r :| 0 <= r < |c.requests| && !c.requests[r].phase.Finished?;
      assert RequestFits(c, c.requests[r]);
      if c.requests[r].phase.OnWire? {
        e := GetResponse(r, Some(status));
        assert !Step(w, e).client.requests[r].phase.OnWire?;
      } else {
        e := ResumeWaiter(r);
        assert !Step(w, e).client.requests[r].phase.Awaiting?;
      }
    }
  }
}
