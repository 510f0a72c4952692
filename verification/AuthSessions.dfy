/**
 The staff session service of backend/src/modules/auth/auth.service.ts.

 The `users` and `userSession` tables are sequences whose index is the primary key. A signed
 token is a value with a serial number that no other token carries; `signed` is the set of
 refresh tokens the server key has signed, so that verifying a signature is membership.
 A stored bcrypt hash is the token it was computed from, or None for the empty string that
 `createSession` writes.
 */
module AuthSessions {
  import opened Options
  import Text

  type UserId = nat
  type SessionId = nat

  datatype User = User(staffCode: Option<string>, restaurantId: string, password: string, isActive: bool)

  datatype RefreshToken = RefreshToken(sessionId: SessionId, userId: UserId, serial: nat, exp: int)
  datatype AccessToken = AccessToken(sessionId: SessionId, userId: UserId, serial: nat)
  datatype Tokens = Tokens(access: AccessToken, refresh: RefreshToken)

  datatype Session = Session(userId: UserId, hash: Option<RefreshToken>, expiresAt: int, revoked: bool)

  datatype Db = Db(users: seq<User>, sessions: seq<Session>, signed: set<RefreshToken>, nextSerial: nat, ttl: int)

  datatype AuthError =
    | InvalidCredentials
    | TokenNotVerified
    | SessionInvalid
    | TokenMismatch
    | NoSessionContext
    | SamePassword
    | UserNotFound
    | WrongPassword

  type Issued = Result<Tokens, AuthError>
  type Done = Result<(), AuthError>

  // ---------- What the operations do to the tables ----------

  function FindStaff(users: seq<User>, code: string): (r: Option<UserId>)
    ensures r.Some? ==> r.value < |users| && users[r.value].staffCode == Some(code)
    ensures r.None? ==> forall u :: 0 <= u < |users| ==> users[u].staffCode != Some(code)
  {
    if users == [] then None
    else
      var prior := FindStaff(users[..|users| - 1], code);
      if prior.Some? then prior
      else if users[|users| - 1].staffCode == Some(code) then Some(|users| - 1)
      else None
  }

  predicate Verified(db: Db, now: int, token: RefreshToken) {
    token in db.signed && now < token.exp
  }

  /** The `where` clause shared by refresh, logout and the access-token guard. */
  predicate Owns(db: Db, sid: SessionId, uid: UserId) {
    sid < |db.sessions| && db.sessions[sid].userId == uid && !db.sessions[sid].revoked
  }

  predicate Live(db: Db, now: int, sid: SessionId) {
    sid < |db.sessions| && !db.sessions[sid].revoked && now < db.sessions[sid].expiresAt
  }

  function CreateSession(db: Db, now: int, uid: UserId): Db {
    db.(sessions := db.sessions + [Session(uid, None, now + db.ttl, false)])
  }

  /** `issueTokens`: signs a pair, stores the refresh token and writes `revokedAt: null`. */
  function IssueTokens(db: Db, now: int, uid: UserId, sid: SessionId): (Db, Tokens)
    requires sid < |db.sessions|
  {
    var refresh := RefreshToken(sid, uid, db.nextSerial, now + db.ttl);
    var row := db.sessions[sid].(hash := Some(refresh), expiresAt := now + db.ttl, revoked := false);
    (db.(sessions := db.sessions[sid := row], signed := db.signed + {refresh}, nextSerial := db.nextSerial + 1),
     Tokens(AccessToken(sid, uid, db.nextSerial), refresh))
  }

  function Revoke(db: Db, sid: SessionId): Db
    requires sid < |db.sessions|
  {
    db.(sessions := db.sessions[sid := db.sessions[sid].(revoked := true)])
  }

  /** The staff code that a typed one stands for. */
  function StaffCode(typed: string): string { Text.Upper(Text.Trim(typed)) }

  function Login(db: Db, now: int, code: string, password: string): (Db, Issued) {
    match FindStaff(db.users, StaffCode(code))
    case None => (db, Err(InvalidCredentials))
    case Some(uid) =>
      if !db.users[uid].isActive || db.users[uid].password != password then (db, Err(InvalidCredentials))
      else
        var (issued, tokens) := IssueTokens(CreateSession(db, now, uid), now, uid, |db.sessions|);
        (issued, Ok(tokens))
  }

  /** The session row that `refresh` finds for the token's payload. */
  predicate Refreshable(db: Db, now: int, token: RefreshToken) {
    && Verified(db, now, token)
    && Owns(db, token.sessionId, token.userId)
    && Live(db, now, token.sessionId)
    && token.userId < |db.users| && db.users[token.userId].isActive
  }

  /** The session stores the hash of this very token. */
  predicate Matches(db: Db, token: RefreshToken) {
    token.sessionId < |db.sessions| && db.sessions[token.sessionId].hash == Some(token)
  }

  /** Refreshing when the comparison with the stored hash says `matches`. */
  function RefreshWhen(db: Db, now: int, token: RefreshToken, matches: bool): (Db, Issued) {
    if !Verified(db, now, token) then (db, Err(TokenNotVerified))
    else if !Refreshable(db, now, token) then (db, Err(SessionInvalid))
    else if !matches then (Revoke(db, token.sessionId), Err(TokenMismatch))
    else
      var (issued, tokens) := IssueTokens(db, now, token.userId, token.sessionId);
      (issued, Ok(tokens))
  }

  function Refresh(db: Db, now: int, token: RefreshToken): (Db, Issued) { RefreshWhen(db, now, token, Matches(db, token)) }

  function LogoutSession(db: Db, sid: SessionId, uid: UserId): Db {
    if Owns(db, sid, uid) then Revoke(db, sid) else db
  }

  /** `caller` is the bearer of the access token: a user and the session it was issued for. */
  function Logout(db: Db, now: int, caller: Option<(UserId, SessionId)>, token: Option<RefreshToken>): (Db, Done) {
    if token.Some? then
      if Verified(db, now, token.value) then
        (LogoutSession(db, token.value.sessionId, token.value.userId), Ok(()))
      else (db, Err(TokenNotVerified))
    else if caller.None? then (db, Err(NoSessionContext))
    else (LogoutSession(db, caller.value.1, caller.value.0), Ok(()))
  }

  /** `updateMany`: revokes the user's sessions other than `keep`. */
  function RevokeOthers(sessions: seq<Session>, uid: UserId, keep: SessionId): (r: seq<Session>)
    ensures |r| == |sessions|
    ensures forall s :: 0 <= s < |r| ==>
      r[s] == if sessions[s].userId == uid && s != keep then sessions[s].(revoked := true) else sessions[s]
  {
    seq(|sessions|, s requires 0 <= s < |sessions| =>
      if sessions[s].userId == uid && s != keep then sessions[s].(revoked := true) else sessions[s])
  }

  function ChangePassword(db: Db, uid: UserId, sid: SessionId, restaurantId: string, current: string, next: string)
    : (Db, Done)
  {
    if current == next then (db, Err(SamePassword))
    else if !(uid < |db.users| && db.users[uid].restaurantId == restaurantId && db.users[uid].isActive) then
      (db, Err(UserNotFound))
    else if db.users[uid].password != current then (db, Err(WrongPassword))
    else
      (db.(users := db.users[uid := db.users[uid].(password := next)],
           sessions := RevokeOthers(db.sessions, uid, sid)), Ok(()))
  }

  // ---------- Runs of the service ----------

  datatype Op =
    | LoginOp(code: string, password: string)
    | RefreshOp(token: RefreshToken)
    | LogoutOp(caller: Option<(UserId, SessionId)>, refresh: Option<RefreshToken>)
    | ChangePasswordOp(uid: UserId, sid: SessionId, restaurantId: string, current: string, next: string)

  datatype Call = Call(now: int, op: Op)

  function Step(db: Db, c: Call): Db {
    match c.op
    case LoginOp(code, password) => Login(db, c.now, code, password).0
    case RefreshOp(token) => Refresh(db, c.now, token).0
    case LogoutOp(caller, token) => Logout(db, c.now, caller, token).0
    case ChangePasswordOp(uid, sid, rid, current, next) => ChangePassword(db, uid, sid, rid, current, next).0
  }

  function Run(db: Db, calls: seq<Call>): Db
    decreases calls
  {
    if calls == [] then db else Run(Step(db, calls[0]), calls[1..])
  }

  /** The calls happen at non-decreasing times, none before `from`. */
  predicate InOrder(from: int, calls: seq<Call>)
    decreases calls
  {
    calls == [] || (from <= calls[0].now && InOrder(calls[0].now, calls[1..]))
  }

  function EndTime(from: int, calls: seq<Call>): int
    decreases calls
  {
    if calls == [] then from else EndTime(calls[0].now, calls[1..])
  }

  // ---------- Dead sessions stay dead ----------

  /** A session that is revoked stays revoked through every operation. */
  lemma StepKeepsRevoked(db: Db, c: Call, sid: SessionId)
    requires sid < |db.sessions| && db.sessions[sid].revoked
    ensures sid < |Step(db, c).sessions| && Step(db, c).sessions[sid].revoked
  {
  }

  lemma {:induction false} RevokedForever(db: Db, calls: seq<Call>, sid: SessionId)
    requires sid < |db.sessions| && db.sessions[sid].revoked
    ensures sid < |Run(db, calls).sessions| && Run(db, calls).sessions[sid].revoked
    decreases calls
  {
    if calls != [] {
      StepKeepsRevoked(db, calls[0], sid);
      RevokedForever(Step(db, calls[0]), calls[1..], sid);
    }
  }

  lemma StepKeepsDead(db: Db, from: int, c: Call, sid: SessionId)
    requires sid < |db.sessions| && !Live(db, from, sid) && from <= c.now
    ensures sid < |Step(db, c).sessions| && !Live(Step(db, c), c.now, sid)
  {
  }

  /** Revoked or expired: with a clock that does not run backwards, a dead session never lives again. */
  lemma {:induction false} DeadForever(db: Db, from: int, calls: seq<Call>, sid: SessionId)
    requires sid < |db.sessions| && !Live(db, from, sid) && InOrder(from, calls)
    ensures sid < |Run(db, calls).sessions| && !Live(Run(db, calls), EndTime(from, calls), sid)
    decreases calls
  {
    if calls != [] {
      StepKeepsDead(db, from, calls[0], sid);
      DeadForever(Step(db, calls[0]), calls[0].now, calls[1..], sid);
    }
  }

  /** Right after a password change the only session of the user that can be live is the caller's,
      no session of anybody else changed, and the others never come back in any later run. */
  lemma PasswordChangeLocksOut(db: Db, uid: UserId, sid: SessionId, restaurantId: string, current: string, next: string,
                               calls: seq<Call>, other: SessionId)
    requires ChangePassword(db, uid, sid, restaurantId, current, next).1.Ok?
    requires other < |db.sessions|
    ensures var after := ChangePassword(db, uid, sid, restaurantId, current, next).0;
            && (db.sessions[other].userId == uid && other != sid ==>
                  other < |Run(after, calls).sessions| && Run(after, calls).sessions[other].revoked)
            && (db.sessions[other].userId != uid || other == sid ==> after.sessions[other] == db.sessions[other])
  {
    var after := ChangePassword(db, uid, sid, restaurantId, current, next).0;
    if db.sessions[other].userId == uid && other != sid {
      RevokedForever(after, calls, other);
    }
  }

  // ---------- Refresh tokens are used at most once ----------

  /** Serials identify tokens: what is stored was signed earlier, for that session and its owner. */
  ghost predicate Consistent(db: Db) {
    && (forall t :: t in db.signed ==> t.serial < db.nextSerial)
    && (forall s :: 0 <= s < |db.sessions| && db.sessions[s].hash.Some? ==>
          && db.sessions[s].hash.value in db.signed
          && db.sessions[s].hash.value.sessionId == s
          && db.sessions[s].hash.value.userId == db.sessions[s].userId)
  }

  lemma StepKeepsConsistent(db: Db, c: Call)
    requires Consistent(db)
    ensures Consistent(Step(db, c))
  {
  }

  /** From an empty session table every reachable state is consistent. */
  lemma {:induction false} RunKeepsConsistent(db: Db, calls: seq<Call>)
    requires Consistent(db)
    ensures Consistent(Run(db, calls))
    decreases calls
  {
    if calls != [] {
      StepKeepsConsistent(db, calls[0]);
      RunKeepsConsistent(Step(db, calls[0]), calls[1..]);
    }
  }

  /** Session `sid` has rotated past every token whose serial is at most `serial`. */
  predicate Past(db: Db, sid: SessionId, serial: nat) {
    && sid < |db.sessions| && serial < db.nextSerial
    && db.sessions[sid].hash.Some? && serial < db.sessions[sid].hash.value.serial
  }

  lemma {:induction false} RunKeepsPast(db: Db, calls: seq<Call>, sid: SessionId, serial: nat)
    requires Past(db, sid, serial) && Consistent(db)
    ensures Past(Run(db, calls), sid, serial)
    decreases calls
  {
    if calls != [] {
      StepKeepsConsistent(db, calls[0]);
      RunKeepsPast(Step(db, calls[0]), calls[1..], sid, serial);
    }
  }

  /** A refresh succeeds exactly for the token that a live session of an active user currently stores. */
  lemma RefreshSucceedsIff(db: Db, now: int, token: RefreshToken)
    requires Consistent(db)
    ensures Refresh(db, now, token).1.Ok? <==>
            && token.sessionId < |db.sessions| && db.sessions[token.sessionId].hash == Some(token)
            && Live(db, now, token.sessionId) && now < token.exp
            && token.userId < |db.users| && db.users[token.userId].isActive
  {
  }

  /** A token that was exchanged once is never accepted again, whatever happens in between. */
  lemma TokenUsedOnce(db: Db, now: int, token: RefreshToken, calls: seq<Call>, later: int)
    requires Consistent(db) && Refresh(db, now, token).1.Ok?
    ensures Refresh(Run(Refresh(db, now, token).0, calls), later, token).1.Err?
  {
    var after := Refresh(db, now, token).0;
    StepKeepsConsistent(db, Call(now, RefreshOp(token)));
    RunKeepsPast(after, calls, token.sessionId, token.serial);
  }

  /** Presenting an exchanged token again while its session is refreshable revokes the session for
      good: section 4.14.2 of RFC 9700. */
  lemma ReplayRevokes(db: Db, now: int, token: RefreshToken, calls: seq<Call>, later: int, rest: seq<Call>)
    requires Consistent(db) && Refresh(db, now, token).1.Ok?
    requires Refreshable(Run(Refresh(db, now, token).0, calls), later, token)
    ensures var replayed := Refresh(Run(Refresh(db, now, token).0, calls), later, token);
            && replayed.1 == Err(TokenMismatch)
            && token.sessionId < |Run(replayed.0, rest).sessions|
            && Run(replayed.0, rest).sessions[token.sessionId].revoked
  {
    var after := Refresh(db, now, token).0;
    StepKeepsConsistent(db, Call(now, RefreshOp(token)));
    RunKeepsPast(after, calls, token.sessionId, token.serial);
    RevokedForever(Refresh(Run(after, calls), later, token).0, rest, token.sessionId);
  }

  /** What rests on the comparison: if it were `same`, an exchanged token that is presented again would be accepted
      exactly when `same` does not tell it from the one that has taken its place, and revoke the session otherwise. */
  lemma ReplayAcceptedIff(db: Db, now: int, token: RefreshToken, calls: seq<Call>, later: int,
                          same: (RefreshToken, RefreshToken) -> bool)
    requires Consistent(db) && Refresh(db, now, token).1.Ok?
    requires Refreshable(Run(Refresh(db, now, token).0, calls), later, token)
    ensures var reached := Run(Refresh(db, now, token).0, calls);
            var stored := reached.sessions[token.sessionId].hash;
            && stored.Some? && stored.value != token && stored.value.userId == token.userId
            && (RefreshWhen(reached, later, token, same(stored.value, token)).1.Ok? <==> same(stored.value, token))
            && (!same(stored.value, token) ==>
                  RefreshWhen(reached, later, token, false).0.sessions[token.sessionId].revoked)
  {
    StepKeepsConsistent(db, Call(now, RefreshOp(token)));
    RunKeepsPast(Refresh(db, now, token).0, calls, token.sessionId, token.serial);
    RunKeepsConsistent(Refresh(db, now, token).0, calls);
  }

  // ---------- What a call finds and what it leaves, row by row ----------

  /** The tables agree except for the row of session `sid`, the set of signed tokens and the serial number. */
  ghost predicate OnlySessionDiffers(db: Db, after: Db, sid: SessionId) {
    && after.users == db.users && after.ttl == db.ttl && |after.sessions| == |db.sessions|
    && forall s :: 0 <= s < |db.sessions| && s != sid ==> after.sessions[s] == db.sessions[s]
  }

  /** The pair is new, for this session and user, and the session's row stores its refresh token until it expires. */
  ghost predicate Opened(db: Db, after: Db, t: Tokens, sid: SessionId, uid: UserId, now: int) {
    && t.refresh.sessionId == t.access.sessionId == sid && t.refresh.userId == t.access.userId == uid
    && t.refresh.exp == now + db.ttl && t.refresh.serial == t.access.serial >= db.nextSerial && t.access.serial < after.nextSerial
    && after.signed == db.signed + {t.refresh}
    && sid < |after.sessions| && after.sessions[sid].userId == uid && after.sessions[sid].hash == Some(t.refresh)
    && after.sessions[sid].expiresAt == now + db.ttl && !after.sessions[sid].revoked
  }

  /** A login opens one more session, for the user whose code and password it was given, or changes nothing. */
  lemma LoginOpens(db: Db, now: int, code: string, password: string)
    ensures var (after, answer) := Login(db, now, code, password);
            match answer
            case Err(e) => after == db && e == InvalidCredentials
            case Ok(t) =>
              && after.users == db.users && after.ttl == db.ttl
              && |after.sessions| == |db.sessions| + 1 && after.sessions[..|db.sessions|] == db.sessions
              && t.refresh.userId < |db.users| && Admits(db.users[t.refresh.userId], StaffCode(code), password)
              && Opened(db, after, t, |db.sessions|, t.refresh.userId, now)
  {
    hide StaffCode;
  }

  /** There is a live session with this id of this user, who is active. */
  predicate FindsSession(db: Db, now: int, sid: SessionId, uid: UserId) {
    && sid < |db.sessions| && db.sessions[sid].userId == uid && !db.sessions[sid].revoked && now < db.sessions[sid].expiresAt
    && uid < |db.users| && db.users[uid].isActive
  }

  /** A refresh rotates the token of its own session, or revokes it on a mismatch, or changes nothing; which of
      these, and which error, depends on the token and its row. */
  lemma RefreshRotates(db: Db, now: int, token: RefreshToken)
    ensures var ((after, answer), sid) := (Refresh(db, now, token), token.sessionId);
            match answer
            case Ok(t) => OnlySessionDiffers(db, after, sid) && Opened(db, after, t, sid, token.userId, now)
            case Err(TokenNotVerified) => after == db && (token !in db.signed || token.exp <= now)
            case Err(TokenMismatch) =>
              && OnlySessionDiffers(db, after, sid) && sid < |db.sessions| && db.sessions[sid].hash != Some(token)
              && after == db.(sessions := after.sessions)
              && after.sessions[sid] == db.sessions[sid].(revoked := true)
            case Err(e) =>
              e == SessionInvalid && after == db && !FindsSession(db, now, sid, token.userId)
  {
  }

  /** A logout by a token needs one that is signed and not expired, one without a token needs a caller; otherwise
      nothing changes. */
  lemma LogoutSucceedsIff(db: Db, now: int, caller: Option<(UserId, SessionId)>, token: Option<RefreshToken>)
    ensures var (after, answer) := Logout(db, now, caller, token);
            && (answer.Ok? <==> if token.Some? then token.value in db.signed && now < token.value.exp else caller.Some?)
            && (answer.Err? ==> after == db && answer.error == if token.Some? then TokenNotVerified else NoSessionContext)
            && after == db.(sessions := after.sessions)
  {
  }

  /** A password change needs another password than the current one, an active user of the restaurant, and that
      user's own password; otherwise nothing changes. */
  lemma ChangePasswordSucceedsIff(db: Db, uid: UserId, sid: SessionId, restaurantId: string, current: string, next: string)
    ensures var (after, answer) := ChangePassword(db, uid, sid, restaurantId, current, next);
            && (answer.Ok? <==>
                  && current != next && uid < |db.users| && db.users[uid].isActive
                  && db.users[uid].restaurantId == restaurantId && db.users[uid].password == current)
            && (answer.Err? ==> after == db)
            && (answer.Ok? ==> after == db.(users := db.users[uid := db.users[uid].(password := next)], sessions := after.sessions))
            && (answer == Err(SamePassword) <==> current == next)
            && (answer == Err(WrongPassword) ==> db.users[uid].password != current)
  {
  }

  // ---------- Issued tokens are good, and stay good until they are used or revoked ----------

  /** The call neither presents a token of session `sid`, nor logs it out, nor changes the password
      of its owner `uid` from another session. */
  predicate Spares(c: Call, sid: SessionId, uid: UserId) {
    match c.op
    case LoginOp(_, _) => true
    case RefreshOp(token) => token.sessionId != sid
    case LogoutOp(caller, token) =>
      if token.Some? then token.value.sessionId != sid else caller.Some? ==> caller.value.1 != sid
    case ChangePasswordOp(u, s, _, _, _) => u != uid || s == sid
  }

  /** Nothing that decides whether the session's token is accepted has changed. */
  predicate SameStanding(db: Db, after: Db, sid: SessionId, uid: UserId)
    requires sid < |db.sessions|
  {
    && db.signed <= after.signed && |db.users| == |after.users|
    && sid < |after.sessions| && after.sessions[sid] == db.sessions[sid]
    && (uid < |db.users| ==> after.users[uid].isActive == db.users[uid].isActive)
  }

  lemma StepSpares(db: Db, c: Call, sid: SessionId, uid: UserId)
    requires sid < |db.sessions| && db.sessions[sid].userId == uid && Spares(c, sid, uid)
    ensures SameStanding(db, Step(db, c), sid, uid)
  {
  }

  lemma {:induction false} RunSpares(db: Db, calls: seq<Call>, sid: SessionId, uid: UserId)
    requires sid < |db.sessions| && db.sessions[sid].userId == uid
    requires forall c :: c in calls ==> Spares(c, sid, uid)
    ensures SameStanding(db, Run(db, calls), sid, uid)
    decreases calls
  {
    if calls != [] {
      StepSpares(db, calls[0], sid, uid);
      RunSpares(Step(db, calls[0]), calls[1..], sid, uid);
    }
  }

  /** The refresh token that a login returns is accepted at any later time before it expires and not
      after, whatever all the other sessions and users do in between. */
  lemma LoginTokenRefreshes(db: Db, now: int, code: string, password: string, calls: seq<Call>, later: int)
    requires Login(db, now, code, password).1.Ok?
    requires forall c :: c in calls ==>
      Spares(c, |db.sessions|, Login(db, now, code, password).1.value.refresh.userId)
    ensures var (after, answer) := Login(db, now, code, password);
            Refresh(Run(after, calls), later, answer.value.refresh).1.Ok? <==> later < now + db.ttl
  {
    var (after, answer) := Login(db, now, code, password);
    RunSpares(after, calls, |db.sessions|, answer.value.refresh.userId);
  }

  /** The same of a token that a refresh returns. */
  lemma RotatedTokenRefreshes(db: Db, now: int, token: RefreshToken, calls: seq<Call>, later: int)
    requires Refresh(db, now, token).1.Ok?
    requires forall c :: c in calls ==> Spares(c, token.sessionId, token.userId)
    ensures var (after, answer) := Refresh(db, now, token);
            Refresh(Run(after, calls), later, answer.value.refresh).1.Ok? <==> later < now + db.ttl
  {
    RunSpares(Refresh(db, now, token).0, calls, token.sessionId, token.userId);
  }

  // ---------- What logging out and changing the password achieve ----------

  /** The session and user that a logout is about. */
  function LogoutTarget(caller: Option<(UserId, SessionId)>, token: Option<RefreshToken>): (UserId, SessionId)
    requires token.Some? || caller.Some?
  {
    if token.Some? then (token.value.userId, token.value.sessionId) else caller.value
  }

  /** After a logout that reports success no token of the session is ever accepted again, and no
      other session has changed. */
  lemma LogoutEndsSession(db: Db, now: int, caller: Option<(UserId, SessionId)>, token: Option<RefreshToken>,
                          calls: seq<Call>, later: int, presented: RefreshToken)
    requires Logout(db, now, caller, token).1.Ok?
    ensures var (uid, sid) := LogoutTarget(caller, token);
            var after := Logout(db, now, caller, token).0;
            && (sid < |db.sessions| && db.sessions[sid].userId == uid && presented.sessionId == sid ==>
                  Refresh(Run(after, calls), later, presented).1.Err?)
            && |after.sessions| == |db.sessions|
            && forall s :: 0 <= s < |db.sessions| && (s != sid || db.sessions[s].userId != uid) ==>
                 after.sessions[s] == db.sessions[s]
  {
    var (uid, sid) := LogoutTarget(caller, token);
    if sid < |db.sessions| && db.sessions[sid].userId == uid {
      RevokedForever(Logout(db, now, caller, token).0, calls, sid);
    }
  }

  /** `staffCode` is unique in the users table. */
  ghost predicate UniqueCodes(users: seq<User>) {
    forall u, v :: 0 <= u < v < |users| && users[u].staffCode.Some? ==> users[u].staffCode != users[v].staffCode
  }

  /** The user is active and has this code and password. */
  predicate Admits(u: User, code: string, password: string) {
    u.isActive && u.staffCode == Some(code) && u.password == password
  }

  lemma LoginSucceedsIff(db: Db, now: int, code: string, password: string)
    requires UniqueCodes(db.users)
    ensures Login(db, now, code, password).1.Ok? <==>
            exists u :: 0 <= u < |db.users| && Admits(db.users[u], StaffCode(code), password)
  {
    hide StaffCode;
    var found := FindStaff(db.users, StaffCode(code));
    if found.Some? {
      assert forall u :: 0 <= u < |db.users| && db.users[u].staffCode == Some(StaffCode(code)) ==> u == found.value;
    }
  }

  /** Blanks around the code do not matter, nor does the case of its letters. */
  lemma LoginIgnoresSpelling(db: Db, now: int, before: string, typed: string, after: string, code: string, password: string)
    requires Text.Blanks(before) && Text.Blanks(after)
    requires typed != "" ==> !Text.IsSpace(typed[0]) && !Text.IsSpace(typed[|typed| - 1])
    requires |code| == |typed| && forall i :: 0 <= i < |typed| ==>
               if 'a' <= typed[i] <= 'z' then code[i] as int - 'A' as int == typed[i] as int - 'a' as int else code[i] == typed[i]
    ensures StaffCode(before + typed + after) == code
    ensures Login(db, now, before + typed + after, password) == Login(db, now, code, password)
  {
    Text.TrimTakesBlanks(before, typed, after);
    Text.UpperSplits(typed, code);
    Text.UpperTrimTwice(typed);
    Text.TrimBare(typed);
  }

  /** After a password change the user logs in with the new password and with no other; everybody
      else as before. */
  lemma PasswordChanged(db: Db, uid: UserId, sid: SessionId, restaurantId: string, current: string, next: string,
                        now: int, code: string, tried: string)
    requires UniqueCodes(db.users) && ChangePassword(db, uid, sid, restaurantId, current, next).1.Ok?
    ensures var after := ChangePassword(db, uid, sid, restaurantId, current, next).0;
            Login(after, now, code, tried).1.Ok? <==>
            if db.users[uid].staffCode == Some(StaffCode(code)) then tried == next else Login(db, now, code, tried).1.Ok?
  {
    var after := ChangePassword(db, uid, sid, restaurantId, current, next).0;
    assert forall u :: 0 <= u < |db.users| ==> after.users[u].staffCode == db.users[u].staffCode;
    hide StaffCode;
    var typed := StaffCode(code);
    var was, found := FindStaff(db.users, typed), FindStaff(after.users, typed);
    assert was.Some? ==> after.users[was.value].staffCode == Some(typed);
    assert found.Some? ==> db.users[found.value].staffCode == Some(typed);
    assert was == found;
    assert db.users[uid].staffCode == Some(typed) ==> found == Some(uid);
  }
}

/** The service object: its methods update the tables step by step, as AuthSessions says. */
module AuthServer {
  import opened Options
  import opened Spec = AuthSessions

  class AuthService {
    var users: seq<User>
    var sessions: seq<Session>
    var signed: set<RefreshToken>
    var nextSerial: nat
    const ttl: int

    constructor (ttl: int, users: seq<User>)
      ensures State() == Db(users, [], {}, 0, ttl)
    {
      this.ttl := ttl;
      this.users := users;
      sessions, signed, nextSerial := [], {}, 0;
    }

    function State(): Db
      reads this
    {
      Db(users, sessions, signed, nextSerial, ttl)
    }

    method IssueTokensFor(now: int, uid: UserId, sid: SessionId) returns (tokens: Tokens)
      requires sid < |sessions|
      modifies this
      ensures (State(), tokens) == IssueTokens(old(State()), now, uid, sid)
    {
      var access := AccessToken(sid, uid, nextSerial);
      var refresh := RefreshToken(sid, uid, nextSerial, now + ttl);
      nextSerial := nextSerial + 1;
      signed := signed + {refresh};
      sessions := sessions[sid := sessions[sid].(hash := Some(refresh), expiresAt := now + ttl, revoked := false)];
      tokens := Tokens(access, refresh);
    }

    method Login(now: int, code: string, password: string) returns (r: Issued)
      modifies this
      ensures (State(), r) == Spec.Login(old(State()), now, code, password)
    {
      var found := FindStaff(users, StaffCode(code));
      if found.None? || !users[found.value].isActive {
        return Err(InvalidCredentials);
      }
      if users[found.value].password != password {
        return Err(InvalidCredentials);
      }
      var sid := |sessions|;
      sessions := sessions + [Session(found.value, None, now + ttl, false)];
      var tokens := IssueTokensFor(now, found.value, sid);
      r := Ok(tokens);
    }

    method Refresh(now: int, token: RefreshToken) returns (r: Issued)
      modifies this
      ensures (State(), r) == Spec.Refresh(old(State()), now, token)
    {
      if token !in signed || token.exp <= now {
        return Err(TokenNotVerified);
      }
      var sid := token.sessionId;
      if |sessions| <= sid || sessions[sid].userId != token.userId || sessions[sid].revoked || sessions[sid].expiresAt <= now {
        return Err(SessionInvalid);
      }
      if |users| <= token.userId || !users[token.userId].isActive {
        return Err(SessionInvalid);
      }
      if sessions[sid].hash != Some(token) {
        sessions := sessions[sid := sessions[sid].(revoked := true)];
        return Err(TokenMismatch);
      }
      var tokens := IssueTokensFor(now, token.userId, sid);
      r := Ok(tokens);
    }

    method RevokeOwned(sid: SessionId, uid: UserId)
      modifies this
      ensures State() == LogoutSession(old(State()), sid, uid)
    {
      if sid < |sessions| && sessions[sid].userId == uid && !sessions[sid].revoked {
        sessions := sessions[sid := sessions[sid].(revoked := true)];
      }
    }

    method Logout(now: int, caller: Option<(UserId, SessionId)>, token: Option<RefreshToken>) returns (r: Done)
      modifies this
      ensures (State(), r) == Spec.Logout(old(State()), now, caller, token)
    {
      if token.Some? {
        if token.value !in signed || token.value.exp <= now {
          return Err(TokenNotVerified);
        }
        RevokeOwned(token.value.sessionId, token.value.userId);
        return Ok(());
      }
      if caller.None? {
        return Err(NoSessionContext);
      }
      RevokeOwned(caller.value.1, caller.value.0);
      r := Ok(());
    }

    method ChangePassword(uid: UserId, sid: SessionId, restaurantId: string, current: string, next: string) returns (r: Done)
      modifies this
      ensures (State(), r) == Spec.ChangePassword(old(State()), uid, sid, restaurantId, current, next)
    {
      if current == next {
        return Err(SamePassword);
      }
      if |users| <= uid || users[uid].restaurantId != restaurantId || !users[uid].isActive {
        return Err(UserNotFound);
      }
      if users[uid].password != current {
        return Err(WrongPassword);
      }
      users := users[uid := users[uid].(password := next)];
      sessions := RevokeOthers(sessions, uid, sid);
      r := Ok(());
    }
  }
}
