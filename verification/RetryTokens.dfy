/**
 What a retry is for: when the refresh lets a rejected request through, it is sent again with an access
 token other than the one that was rejected, in every interleaving of the refresh protocol.
 */
module RetryTokens {
  import opened AuthSessions
  import opened HttpModel
  import opened Options
  import opened RefreshProtocol

  /** The answer that the pending refresh call is about to deliver. */
  function PendingReply(c: Client): Option<Tokens> {
    if c.pending.Some? && c.pending.value < |c.exchanges| && c.exchanges[c.pending.value].wire.Replied?
    then c.exchanges[c.pending.value].wire.reply else None
  }

  /** The token was issued, and no answer that is still on its way brings it (again). */
  ghost predicate Delivered(w: World, t: AccessToken) {
    && t.serial < w.db.nextSerial
    && (forall j :: 0 <= j < |w.logins| && w.logins[j].Some? ==> w.logins[j].value.access.serial != t.serial)
    && (PendingReply(w.client).Some? ==> PendingReply(w.client).value.access.serial != t.serial)
  }

  ghost predicate SessionDelivered(w: World) {
    w.client.session.Some? ==> Delivered(w, w.client.session.value.access)
  }

  ghost predicate HeadersDelivered(w: World) {
    forall r :: 0 <= r < |w.client.requests| && w.client.requests[r].header.Some? ==> Delivered(w, w.client.requests[r].header.value)
  }

  ghost predicate ResultsDelivered(w: World) {
    forall i :: 0 <= i < |w.client.exchanges| && w.client.exchanges[i].outcome.Resolved? && w.client.exchanges[i].outcome.value.Some? ==>
      Delivered(w, w.client.exchanges[i].outcome.value.value)
  }

  /** The answers on their way bring different tokens. */
  ghost predicate OnTheirWay(w: World) {
    && (PendingReply(w.client).Some? ==> PendingReply(w.client).value.access.serial < w.db.nextSerial)
    && (forall j :: 0 <= j < |w.logins| && w.logins[j].Some? ==>
          && w.logins[j].value.access.serial < w.db.nextSerial
          && (PendingReply(w.client).Some? ==> PendingReply(w.client).value.access.serial != w.logins[j].value.access.serial))
    && (forall j, k :: 0 <= j < k < |w.logins| && w.logins[j].Some? && w.logins[k].Some? ==>
          w.logins[j].value.access.serial != w.logins[k].value.access.serial)
  }

  /** A waiter whose refresh has resolved was rejected with neither the result nor the current token. */
  predicate WaiterMovedOn(c: Client, q: Request) {
    q.phase.Awaiting? && q.phase.exchange < |c.exchanges| && c.exchanges[q.phase.exchange].outcome.Resolved?
    && c.exchanges[q.phase.exchange].outcome.value.Some? ==>
      q.header != c.exchanges[q.phase.exchange].outcome.value && (c.session.Some? ==> q.header != Bearer(c.session))
  }

  ghost predicate WaitersMovedOn(w: World) {
    forall r :: 0 <= r < |w.client.requests| ==> WaiterMovedOn(w.client, w.client.requests[r])
  }

  ghost predicate Separated(w: World) {
    && OneInFlight(w.client)
    && SessionDelivered(w) && HeadersDelivered(w) && ResultsDelivered(w) && OnTheirWay(w) && WaitersMovedOn(w)
  }

  /** What is Delivered depends only on the answers that are still on their way. */
  lemma SameAnswers(w: World, w': World)
    requires w'.db.nextSerial >= w.db.nextSerial && w'.logins == w.logins && PendingReply(w'.client) == PendingReply(w.client)
    ensures forall t :: Delivered(w, t) ==> Delivered(w', t)
    ensures OnTheirWay(w) ==> OnTheirWay(w')
  {
    hide PendingReply;
  }

  /** Changing the bookkeeping of one request, and perhaps dropping the session. */
  lemma QuietKeepsSeparated(w: World, r: nat, q: Request, session: Option<Tokens>)
    requires Separated(w) && r < |w.client.requests| && (session == w.client.session || session.None?)
    requires q.header.Some? ==> Delivered(w, q.header.value)
    requires WaiterMovedOn(w.client, q)
    ensures Separated(w.(client := w.client.(requests := w.client.requests[r := q], session := session)))
  {
    var c := w.client;
    var w' := w.(client := c.(requests := c.requests[r := q], session := session));
    SameAnswers(w, w');
    hide PendingReply, Delivered, OnTheirWay;
    forall k | 0 <= k < |w'.client.requests|
      ensures WaiterMovedOn(w'.client, w'.client.requests[k])
    {
      assert k != r ==> WaiterMovedOn(c, c.requests[k]);
    }
  }

  /** Posting a refresh call brings no answer yet. */
  lemma PostKeepsSeparated(w: World)
    requires Separated(w) && w.client.session.Some? && w.client.pending.None?
    ensures var c := w.client;
            Separated(w.(client := c.(pending := Some(|c.exchanges|),
                                      exchanges := c.exchanges + [Exchange(c.session.value.refresh, Posted, Open)])))
  {
    var c := w.client;
    var w' := w.(client := c.(pending := Some(|c.exchanges|), exchanges := c.exchanges + [Exchange(c.session.value.refresh, Posted, Open)]));
    SameAnswers(w, w');
    hide PendingReply, Delivered, OnTheirWay;
    assert forall i :: 0 <= i < |c.exchanges| ==> w'.client.exchanges[i] == c.exchanges[i];
    forall k | 0 <= k < |c.requests|
      ensures WaiterMovedOn(w'.client, c.requests[k])
    {
      assert WaiterMovedOn(c, c.requests[k]);
    }
  }

  lemma ResponseKeepsSeparated(w: World, r: nat, status: Option<int>)
    requires Separated(w)
    ensures Separated(RefreshProtocol.Step(w, GetResponse(r, status)))
  {
    var c := w.client;
    if r < |c.requests| && c.requests[r].phase.OnWire? {
      var c' := OnResponse(c, r, status);
      if status == Some(401) && !c.requests[r].retried && !c.requests[r].isAuth && c.session.Some? {
        if c.pending.None? {
          PostKeepsSeparated(w);
          var posted := w.(client := c.(pending := c'.pending, exchanges := c'.exchanges));
          assert posted.client.exchanges[|c.exchanges|].outcome.Open?;
          KeepHeader(w, posted, r);
          QuietKeepsSeparated(posted, r, c'.requests[r], c.session);
        } else {
          KeepHeader(w, w, r);
          QuietKeepsSeparated(w, r, c'.requests[r], c.session);
        }
      } else {
        KeepHeader(w, w, r);
        QuietKeepsSeparated(w, r, c'.requests[r], c'.session);
      }
    }
  }

  lemma KeepHeader(w: World, w': World, r: nat)
    requires Separated(w') && w'.client.requests == w.client.requests && r < |w.client.requests|
    ensures w.client.requests[r].header.Some? ==> Delivered(w', w.client.requests[r].header.value)
  {
    hide Delivered, PendingReply;
  }

  lemma SettleKeepsSeparated(w: World, p: nat, data: Option<Tokens>)
    requires Separated(w) && w.client.pending == Some(p)
    requires data == None || data == PendingReply(w.client)
    ensures Separated(w.(client := Settle(w.client, p, data)))
  {
    var w' := w.(client := Settle(w.client, p, data));
    assert forall t :: Delivered(w, t) ==> Delivered(w', t);
    assert forall i :: 0 <= i < |w.client.exchanges| && i != p ==> w'.client.exchanges[i] == w.client.exchanges[i];
    assert WaitersMovedOn(w') by {
      forall r | 0 <= r < |w.client.requests|
        ensures WaiterMovedOn(w'.client, w.client.requests[r])
      {
        assert WaiterMovedOn(w.client, w.client.requests[r]);
      }
    }
  }

  lemma ServeKeepsSeparated(w: World, i: nat, now: int)
    requires Separated(w)
    ensures Separated(RefreshProtocol.Step(w, ServeRefresh(i, now)))
  {
    var c, w' := w.client, RefreshProtocol.Step(w, ServeRefresh(i, now));
    if Outstanding(c, i) {
      var (db, answer) := Refresh(w.db, now, c.exchanges[i].token);
      assert db.nextSerial >= w.db.nextSerial && (answer.Ok? ==> answer.value.access.serial == w.db.nextSerial < db.nextSerial);
      hide Refresh;
      assert forall t :: Delivered(w, t) ==> Delivered(w', t);
      assert forall k :: 0 <= k < |c.exchanges| ==> w'.client.exchanges[k].outcome == c.exchanges[k].outcome;
      assert OnTheirWay(w');
      forall r | 0 <= r < |c.requests|
        ensures WaiterMovedOn(w'.client, c.requests[r])
      {
        assert WaiterMovedOn(c, c.requests[r]);
      }
    }
  }

  lemma LoginKeepsSeparated(w: World, now: int, code: string, password: string)
    requires Separated(w)
    ensures Separated(RefreshProtocol.Step(w, ServeLogin(now, code, password)))
  {
    var w' := RefreshProtocol.Step(w, ServeLogin(now, code, password));
    if w' != w {
      var (db, answer) := Login(w.db, now, code, password);
      assert db.nextSerial > w.db.nextSerial && answer.value.access.serial == w.db.nextSerial;
      hide Login;
      assert PendingReply(w'.client) == PendingReply(w.client);
      hide PendingReply;
      assert forall t :: Delivered(w, t) ==> Delivered(w', t);
      assert OnTheirWay(w');
    }
  }

  lemma StepKeepsSeparated(w: World, e: Event)
    requires Separated(w)
    ensures Separated(RefreshProtocol.Step(w, e))
  {
    var w' := RefreshProtocol.Step(w, e);
    match e
    case GetResponse(r, status) => ResponseKeepsSeparated(w, r, status);
    case ServeRefresh(i, now) => ServeKeepsSeparated(w, i, now);
    case DeliverReply(i) =>
      if w' != w {
        SettleKeepsSeparated(w, i, w.client.exchanges[i].wire.reply);
      }
    case LoseConnection(i) =>
      if w' != w {
        SettleKeepsSeparated(w, i, None);
      }
    case ServeLogin(now, code, password) => LoginKeepsSeparated(w, now, code, password);
    case SendRequest(isAuth) => SendKeepsSeparated(w, isAuth);
    case ResumeWaiter(r) => ResumeKeepsSeparated(w, r);
    case DeliverLogin(j) => DeliverLoginKeepsSeparated(w, j);
    case ClearSession => DropKeepsSeparated(w);
    case Interfere(db) => InterfereKeepsSeparated(w, db);
  }

  lemma SendKeepsSeparated(w: World, isAuth: bool)
    requires Separated(w)
    ensures Separated(RefreshProtocol.Step(w, SendRequest(isAuth)))
  {
    var w' := RefreshProtocol.Step(w, SendRequest(isAuth));
    SameAnswers(w, w');
    hide PendingReply, Delivered, OnTheirWay;
    forall k | 0 <= k < |w'.client.requests|
      ensures WaiterMovedOn(w'.client, w'.client.requests[k])
    {
      assert k < |w.client.requests| ==> WaiterMovedOn(w.client, w.client.requests[k]);
    }
  }

  lemma ResumeKeepsSeparated(w: World, r: nat)
    requires Separated(w)
    ensures Separated(RefreshProtocol.Step(w, ResumeWaiter(r)))
  {
    var w' := RefreshProtocol.Step(w, ResumeWaiter(r));
    hide PendingReply, Delivered, OnTheirWay;
    if w' != w {
      QuietKeepsSeparated(w, r, w'.client.requests[r], w'.client.session);
    }
  }

  lemma DropKeepsSeparated(w: World)
    requires Separated(w)
    ensures Separated(RefreshProtocol.Step(w, ClearSession))
  {
    var w' := RefreshProtocol.Step(w, ClearSession);
    SameAnswers(w, w');
    hide PendingReply, Delivered, OnTheirWay;
    forall k | 0 <= k < |w.client.requests|
      ensures WaiterMovedOn(w'.client, w.client.requests[k])
    {
      assert WaiterMovedOn(w.client, w.client.requests[k]);
    }
  }

  lemma InterfereKeepsSeparated(w: World, db: Db)
    requires Separated(w)
    ensures Separated(RefreshProtocol.Step(w, Interfere(db)))
  {
    var w' := RefreshProtocol.Step(w, Interfere(db));
    SameAnswers(w, w');
    hide PendingReply, Delivered, OnTheirWay, WaiterMovedOn;
    assert w'.client == w.client;
  }

  lemma DeliverLoginKeepsSeparated(w: World, j: nat)
    requires Separated(w)
    ensures Separated(RefreshProtocol.Step(w, DeliverLogin(j)))
  {
    if j < |w.logins| && w.logins[j].Some? {
      var w' := RefreshProtocol.Step(w, DeliverLogin(j));
      var brought := w.logins[j].value.access;
      assert PendingReply(w'.client) == PendingReply(w.client);
      hide PendingReply;
      assert forall t :: Delivered(w, t) ==> Delivered(w', t) && t != brought;
      assert Delivered(w', brought);
      assert OnTheirWay(w');
      hide Delivered, OnTheirWay;
      forall k | 0 <= k < |w.client.requests|
        ensures WaiterMovedOn(w'.client, w.client.requests[k])
      {
        assert WaiterMovedOn(w.client, w.client.requests[k]);
      }
    }
  }

  lemma {:induction false} RunKeepsSeparated(w: World, events: seq<Event>)
    requires Separated(w)
    ensures Separated(RefreshProtocol.Run(w, events))
    decreases events
  {
    if events != [] {
      StepKeepsSeparated(w, events[0]);
      RunKeepsSeparated(RefreshProtocol.Step(w, events[0]), events[1..]);
    }
  }

  /** In every run: a request that is sent again carries a token, and not the one it was rejected with. */
  lemma RetryCarriesNewToken(start: World, events: seq<Event>, r: nat)
    requires Start(start)
    ensures var w := RefreshProtocol.Run(start, events);
            var w' := RefreshProtocol.Step(w, ResumeWaiter(r));
            r < |w.client.requests| && w'.client.requests[r].sends > w.client.requests[r].sends ==>
              w'.client.requests[r].header.Some? && w'.client.requests[r].header != w.client.requests[r].header
  {
    RunKeepsSeparated(start, events);
    var w := RefreshProtocol.Run(start, events);
    if r < |w.client.requests| {
      assert WaiterMovedOn(w.client, w.client.requests[r]);
    }
  }
}
