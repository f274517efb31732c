/** Whole runs of identity operations, one after another on a clock. */
module SessionRuns {
  import opened FiniteSets
  import opened Results
  import opened Sessions
  import opened SessionProofs

  datatype Op =
    | RequestCode(phone: string, code: string, now: int, ttl: int, maxAttempts: nat)
    | Verify(phone: string, code: string, device: Option<DeviceInfo>, now: int, otp: Option<Id>)
    | Refresh(token: Id, now: int)
    | Logout(token: Id)
    | LogoutAll(user: Id)
    | SignOutDevice(deviceId: Id, user: Id)
    | SetStatus(user: Id, status: string)

  datatype World = World(db: Tables, clock: int, nextId: nat)

  const IDS_PER_OP := 3

  predicate SuspendedPhone(db: Tables, phone: string, u: Id) {
    HasPhone(db, u, phone) && !IsActive(db.users[u])
  }

  /** RequestOTP after the rate limiter: a suspended account gets no code. */
  ghost predicate Requests(db: Tables, op: Op, id: Id, db': Tables, r: Result<Id, SessionError>)
    requires op.RequestCode?
  {
    if exists u :: SuspendedPhone(db, op.phone, u) then r == Err(Suspended) && db' == db
    else
      var otp := Otp(op.phone, op.code, op.now, op.now + op.ttl, 0, op.maxAttempts, false);
      r == Ok(id) && db' == db.(otps := db.otps[id := otp])
  }

  /** What an operation does to the tables and what it answers; an Ok of a verification or a refresh names the row
      of the new refresh token. */
  ghost predicate Does(db: Tables, op: Op, cfg: Config, id: Id, db': Tables, r: Result<Id, SessionError>) {
    match op
    case RequestCode(_, _, _, _, _) => Requests(db, op, id, db', r)
    case Verify(phone, code, device, now, otp) => Verifies(db, phone, code, device, now, cfg, id, otp, db', r)
    case Refresh(t, now) => Refreshes(db, t, now, cfg.refreshTtl, id, db', r)
    case Logout(t) => db' == LoggedOut(db, t)
    case LogoutAll(u) => db' == db.(tokens := RevokeForUser(db.tokens, u))
    case SignOutDevice(d, u) => db' == DeviceRevoked(db, d, u)
    case SetStatus(u, status) => db' == (if u in db.users then StatusSet(db, u, status) else db)
  }

  /** The clock moves strictly forward from one timed operation to the next. */
  function Clock(w: World, op: Op): int {
    match op
    case RequestCode(_, _, now, _, _) => now
    case Verify(_, _, _, now, _) => now
    case Refresh(_, now) => now
    case _ => w.clock + 1
  }

  ghost predicate Next(w: World, op: Op, cfg: Config, w': World, r: Result<Id, SessionError>) {
    && w.clock < Clock(w, op) && w'.clock == Clock(w, op)
    && w'.nextId == w.nextId + IDS_PER_OP
    && Does(w.db, op, cfg, w.nextId, w'.db, r)
  }

  ghost predicate WorldOk(w: World, cfg: Config) {
    Inv(w.db, cfg.maxActiveDevices, w.clock, w.nextId)
  }

  // ---------- each operation ----------

  lemma LaterBelow(db: Tables, n: nat, m: nat)
    requires (forall i :: Below(db, n, i)) && n <= m
    ensures forall i :: Below(db, m, i)
  {
    forall i ensures Below(db, m, i) {
      assert Below(db, n, i);
    }
  }

  lemma LaterDevices(devices: map<Id, Device>, cap: int, clock: int, later: int)
    requires DeviceTableOk(devices, cap, clock) && clock <= later
    ensures DeviceTableOk(devices, cap, later)
  {
    forall d ensures Earlier(devices, later, d) {
      assert Earlier(devices, clock, d);
    }
  }

  lemma SameTokensOk(db: Tables, db': Tables)
    requires TokensOk(db) && db'.tokens == db.tokens && db'.devices == db.devices
    requires forall u :: u in db.users ==> u in db'.users && db'.users[u] == db.users[u]
    ensures TokensOk(db')
  {
    forall t ensures TokenOk(db', t) {
      assert TokenOk(db, t);
    }
    forall a, b ensures FamilyOk(db'.tokens, a, b) {
      assert FamilyOk(db.tokens, a, b);
    }
  }

  lemma RevokingInv(db: Tables, tokens': map<Id, Token>, cap: int, clock: int, n: nat)
    requires Inv(db, cap, clock, n) && OnlyRevokes(db.tokens, tokens')
    ensures Inv(db.(tokens := tokens'), cap, clock, n)
  {
    RevokingKeeps(db, tokens');
    forall i ensures Below(db.(tokens := tokens'), n, i) {
      assert Below(db, n, i) && RevokedOrSame(db.tokens, tokens', i);
    }
  }

  lemma LaterInv(db: Tables, cap: int, clock: int, n: nat, later: int, m: nat)
    requires Inv(db, cap, clock, n) && clock <= later && n <= m
    ensures Inv(db, cap, later, m)
  {
    LaterDevices(db.devices, cap, clock, later);
    LaterBelow(db, n, m);
  }

  lemma IdsAbove(db: Tables, id: Id)
    requires forall i :: Below(db, id, i)
    ensures forall t :: t in db.tokens ==> t < id
    ensures forall d :: d in db.devices ==> d < id
    ensures forall u :: u in db.users ==> u < id
  {
    forall t | t in db.tokens ensures t < id { assert Below(db, id, t); }
    forall t | t in db.devices ensures t < id { assert Below(db, id, t); }
    forall t | t in db.users ensures t < id { assert Below(db, id, t); }
  }

  lemma RotationKeeps(db: Tables, t: Id, expires: int, cap: int, clock: int, id: Id)
    requires Inv(db, cap, clock, id) && t in db.tokens && LiveToken(db.tokens[t])
    ensures var token := db.tokens[t];
            var db' := Replaced(Issued(db, token.user, token.device, Some(token.family), expires, id), t, id);
            Inv(db', cap, clock, id + IDS_PER_OP)
  {
    var token := db.tokens[t];
    var db' := Replaced(Issued(db, token.user, token.device, Some(token.family), expires, id), t, id);
    var n := id + IDS_PER_OP;
    IdsAbove(db, id);
    Rotated(db, t, expires, id);
    forall i ensures Below(db', n, i) {
      assert Below(db, id, i);
    }
  }

  lemma RefreshKeeps(db: Tables, t: Id, now: int, cfg: Config, id: Id, db': Tables, r: Result<Id, SessionError>,
                     clock: int)
    requires Inv(db, cfg.maxActiveDevices, clock, id) && Refreshes(db, t, now, cfg.refreshTtl, id, db', r)
    ensures Inv(db', cfg.maxActiveDevices, clock, id + IDS_PER_OP)
  {
    var cap := cfg.maxActiveDevices;
    LaterInv(db, cap, clock, id, clock, id + IDS_PER_OP);
    if r.Ok? {
      RotationKeeps(db, t, now + cfg.refreshTtl, cap, clock, id);
    } else if db' != db {
      forall x ensures RevokedOrSame(db.tokens, db'.tokens, x) {}
      RevokingInv(db, db'.tokens, cap, clock, id + IDS_PER_OP);
    }
  }

  lemma StatusKeeps(db: Tables, u: Id, status: string, cap: int, clock: int, n: nat)
    requires Inv(db, cap, clock, n) && u in db.users
    ensures Inv(StatusSet(db, u, status), cap, clock, n)
  {
    var db' := StatusSet(db, u, status);
    forall x ensures RevokedOrSame(db.tokens, db'.tokens, x) {}
    RevokingKeeps(db, db'.tokens);
    var mid := db.(tokens := db'.tokens);
    forall t ensures TokenOk(db', t) {
      assert TokenOk(mid, t);
    }
    forall a, b ensures FamilyOk(db'.tokens, a, b) {
      assert FamilyOk(mid.tokens, a, b);
    }
    forall a, b ensures PhonesOk(db'.users, a, b) {
      assert PhonesOk(db.users, a, b);
    }
    forall i ensures Below(db', n, i) {
      assert Below(db, n, i);
    }
  }

  lemma DeviceTableShrinks(devices: map<Id, Device>, d: Id, cap: int, clock: int)
    requires DeviceTableOk(devices, cap, clock) && d in devices
    ensures DeviceTableOk(devices[d := devices[d].(revoked := true)], cap, clock)
  {
    var devices' := devices[d := devices[d].(revoked := true)];
    forall a, b ensures DevicesOk(devices', a, b) {
      assert DevicesOk(devices, a, b);
    }
    forall x ensures Earlier(devices', clock, x) {
      assert Earlier(devices, clock, x);
    }
    forall u ensures CapOk(devices', cap, u) {
      assert CapOk(devices, cap, u);
      Smaller(ActiveIds(devices', u), ActiveIds(devices, u));
    }
  }

  lemma SignOutKeeps(db: Tables, d: Id, user: Id, cap: int, clock: int, n: nat)
    requires Inv(db, cap, clock, n)
    ensures Inv(DeviceRevoked(db, d, user), cap, clock, n)
  {
    var db' := DeviceRevoked(db, d, user);
    forall x ensures RevokedOrSame(db.tokens, db'.tokens, x) {}
    RevokingInv(db, db'.tokens, cap, clock, n);
    var mid := db.(tokens := db'.tokens);
    forall t ensures TokenOk(db', t) {
      assert TokenOk(mid, t);
    }
    forall i ensures Below(db', n, i) {
      assert Below(mid, n, i);
    }
    if d in db.devices && db.devices[d].user == user {
      DeviceTableShrinks(db.devices, d, cap, clock);
    }
  }

  lemma OtpTableKeeps(db: Tables, o: Id, otp: Otp, cap: int, clock: int, n: nat)
    requires Inv(db, cap, clock, n) && o < n && otp.attempts <= otp.maxAttempts
    ensures Inv(db.(otps := db.otps[o := otp]), cap, clock, n)
  {
    var db' := db.(otps := db.otps[o := otp]);
    SameTokensOk(db, db');
    forall x ensures OtpOk(db'.otps, x) {
      assert OtpOk(db.otps, x);
    }
    forall i ensures Below(db', n, i) {
      assert Below(db, n, i);
    }
  }

  lemma AccountKeeps(db: Tables, phone: string, id: Id, u: Id, known: Tables, cap: int, clock: int, n: nat)
    requires Inv(db, cap, clock, n) && n <= id && Account(db, phone, id, u, known)
    ensures Inv(known, cap, clock, id + 1)
    ensures known.devices == db.devices && known.tokens == db.tokens && known.otps == db.otps
  {
    var m := id + 1;
    IdsAbove(db, n);
    LaterInv(db, cap, clock, n, clock, m);
    if known != db {
      SameTokensOk(db, known);
      forall a, b ensures PhonesOk(known.users, a, b) {
        assert PhonesOk(db.users, a, b);
        assert HasPhone(db, a, phone) <==> a in db.users && db.users[a].phone == phone;
        assert HasPhone(db, b, phone) <==> b in db.users && db.users[b].phone == phone;
      }
      forall i ensures Below(known, m, i) {
        assert Below(db, m, i);
      }
    }
  }

  /** The token a login ends with. */
  lemma FirstTokenKeeps(ready: Tables, u: Id, d: Option<Id>, expires: int, id: Id, cap: int, clock: int, n: nat)
    requires Inv(ready, cap, clock, n) && id < n && (forall t :: t in ready.tokens ==> t < id)
    requires u in ready.users && IsActive(ready.users[u])
    requires d.Some? ==> d.value in ready.devices && !ready.devices[d.value].revoked && ready.devices[d.value].user == u
    ensures Inv(Issued(ready, u, d, None, expires, id), cap, clock, n)
  {
    RootIssued(ready, u, d, expires, id);
    forall i ensures Below(Issued(ready, u, d, None, expires, id), n, i) {
      assert Below(ready, n, i);
    }
  }

  lemma DeviceReady(known: Tables, u: Id, info: DeviceInfo, now: int, cap: int, clock: int, id: Id, d: Id,
                    gone: set<Id>, ready: Tables, n: nat)
    requires Inv(known, cap, clock, n) && id < n && now > clock && id !in known.devices
    requires Registered(known, u, info, now, cap, id, d, gone, ready)
    ensures Inv(ready, cap, now, n) && ready.users == known.users && ready.tokens.Keys == known.tokens.Keys
    ensures d in ready.devices && !ready.devices[d].revoked && ready.devices[d].user == u
  {
    RegisteredOk(known, u, info, now, cap, clock, id, d, gone, ready);
    forall i ensures Below(ready, n, i) {
      assert Below(known, n, i);
    }
  }

  /** The last part of a login: the device, if there is one, and the token. */
  lemma TokenGranted(known: Tables, u: Id, device: Option<DeviceInfo>, now: int, cfg: Config, id: Id, d: Option<Id>,
                     gone: set<Id>, ready: Tables, clock: int)
    requires Inv(known, cfg.maxActiveDevices, clock, id + IDS_PER_OP) && now > clock && id + 1 !in known.devices
    requires (forall t :: t in known.tokens ==> t < id) && u in known.users && IsActive(known.users[u])
    requires if device.None? then d.None? && ready == known
             else d.Some? && Registered(known, u, device.value, now, cfg.maxActiveDevices, id + 1, d.value, gone, ready)
    ensures Inv(Issued(ready, u, d, None, now + cfg.refreshTtl, id), cfg.maxActiveDevices, now, id + IDS_PER_OP)
  {
    var cap, n := cfg.maxActiveDevices, id + IDS_PER_OP;
    LaterInv(known, cap, clock, n, now, n);
    if device.Some? {
      DeviceReady(known, u, device.value, now, cap, clock, id + 1, d.value, gone, ready, n);
    }
    FirstTokenKeeps(ready, u, d, now + cfg.refreshTtl, id, cap, now, n);
  }

  lemma LoggingInKeeps(db: Tables, phone: string, device: Option<DeviceInfo>, now: int, cfg: Config, id: Id,
                       db': Tables, r: Result<Id, SessionError>, clock: int, u: Id, known: Tables, d: Option<Id>,
                       gone: set<Id>, ready: Tables)
    requires Inv(db, cfg.maxActiveDevices, clock, id) && now > clock
    requires LoggingIn(db, phone, device, now, cfg, id, db', r, u, known, d, gone, ready)
    ensures Inv(db', cfg.maxActiveDevices, now, id + IDS_PER_OP)
  {
    IdsAbove(db, id);
    AccountKeeps(db, phone, id + 2, u, known, cfg.maxActiveDevices, clock, id);
    if IsActive(known.users[u]) {
      TokenGranted(known, u, device, now, cfg, id, d, gone, ready, clock);
    } else {
      LaterInv(known, cfg.maxActiveDevices, clock, id + IDS_PER_OP, now, id + IDS_PER_OP);
    }
  }

  lemma LoginKeeps(db: Tables, phone: string, device: Option<DeviceInfo>, now: int, cfg: Config, id: Id, db': Tables,
                   r: Result<Id, SessionError>, clock: int)
    requires Inv(db, cfg.maxActiveDevices, clock, id) && now > clock && LogsIn(db, phone, device, now, cfg, id, db', r)
    ensures Inv(db', cfg.maxActiveDevices, now, id + IDS_PER_OP)
  {
    var u, known, d, gone, ready :| LoggingIn(db, phone, device, now, cfg, id, db', r, u, known, d, gone, ready);
    LoggingInKeeps(db, phone, device, now, cfg, id, db', r, clock, u, known, d, gone, ready);
  }

  /** Trying a code and consuming it both keep the tables in order. */
  lemma OtpUsesKeep(db: Tables, o: Id, cap: int, clock: int, n: nat)
    requires Inv(db, cap, clock, n) && o in db.otps
    ensures Inv(OtpConsumed(db, o), cap, clock, n)
    ensures db.otps[o].attempts < db.otps[o].maxAttempts ==> Inv(OtpTried(db, o), cap, clock, n)
  {
    assert Below(db, n, o) && OtpOk(db.otps, o);
    var otp := db.otps[o];
    OtpTableKeeps(db, o, otp.(consumed := true), cap, clock, n);
    if otp.attempts < otp.maxAttempts {
      OtpTableKeeps(db, o, otp.(attempts := otp.attempts + 1), cap, clock, n);
    }
  }

  lemma VerifiesKeeps(db: Tables, phone: string, code: string, device: Option<DeviceInfo>, now: int, cfg: Config,
                      id: Id, o: Option<Id>, db': Tables, r: Result<Id, SessionError>, clock: int)
    requires Inv(db, cfg.maxActiveDevices, clock, id) && now > clock
    requires Verifies(db, phone, code, device, now, cfg, id, o, db', r)
    ensures Inv(db', cfg.maxActiveDevices, now, id + IDS_PER_OP)
  {
    var cap, n := cfg.maxActiveDevices, id + IDS_PER_OP;
    LaterInv(db, cap, clock, id, now, n);
    if o.Some? {
      OtpUsesKeep(db, o.value, cap, now, n);
      OtpUsesKeep(db, o.value, cap, clock, id);
      if db.otps[o.value].attempts < db.otps[o.value].maxAttempts && db.otps[o.value].code == code {
        LoginKeeps(OtpConsumed(db, o.value), phone, device, now, cfg, id, db', r, clock);
      }
    }
  }

  lemma VerifyKeeps(w: World, op: Op, cfg: Config, w': World, r: Result<Id, SessionError>)
    requires WorldOk(w, cfg) && op.Verify? && Next(w, op, cfg, w', r)
    ensures WorldOk(w', cfg)
  {
    VerifiesKeeps(w.db, op.phone, op.code, op.device, op.now, cfg, w.nextId, op.otp, w'.db, r, w.clock);
  }

  lemma NextKeeps(w: World, op: Op, cfg: Config, w': World, r: Result<Id, SessionError>)
    requires WorldOk(w, cfg) && Next(w, op, cfg, w', r)
    ensures WorldOk(w', cfg)
  {
    var cap, n := cfg.maxActiveDevices, w.nextId + IDS_PER_OP;
    LaterInv(w.db, cap, w.clock, w.nextId, w'.clock, n);
    match op
    case RequestCode(phone, code, now, ttl, max) =>
      if w'.db != w.db {
        OtpTableKeeps(w.db, w.nextId, Otp(phone, code, now, now + ttl, 0, max, false), cap, now, n);
      }
    case Verify(_, _, _, _, _) => VerifyKeeps(w, op, cfg, w', r);
    case Refresh(t, now) =>
      RefreshKeeps(w.db, t, now, cfg, w.nextId, w'.db, r, w.clock);
      LaterInv(w'.db, cap, w.clock, n, now, n);
    case Logout(t) =>
      forall x ensures RevokedOrSame(w.db.tokens, w'.db.tokens, x) {}
      RevokingInv(w.db, w'.db.tokens, cap, w'.clock, n);
    case LogoutAll(u) =>
      forall x ensures RevokedOrSame(w.db.tokens, w'.db.tokens, x) {}
      RevokingInv(w.db, w'.db.tokens, cap, w'.clock, n);
    case SignOutDevice(d, u) => SignOutKeeps(w.db, d, u, cap, w'.clock, n);
    case SetStatus(u, status) => if u in w.db.users { StatusKeeps(w.db, u, status, cap, w'.clock, n); }
  }

  // ---------- a killed family stays dead ----------

  predicate DeadToken(tokens: map<Id, Token>, t: Id, family: Id) {
    t in tokens && tokens[t].family == family ==> !LiveToken(tokens[t])
  }

  /** The family exists and none of its tokens can be used any more. */
  ghost predicate Dead(db: Tables, family: Id) {
    && (exists t :: t in db.tokens && db.tokens[t].family == family)
    && forall t :: DeadToken(db.tokens, t, family)
  }

  /** Presenting a used or revoked token is answered as a replay and leaves its whole family dead. */
  lemma ReplayKillsFamily(w: World, t: Id, now: int, cfg: Config, w': World, r: Result<Id, SessionError>)
    requires Next(w, Refresh(t, now), cfg, w', r) && t in w.db.tokens && !LiveToken(w.db.tokens[t])
    ensures r == Err(TokenReplayed) && Dead(w'.db, w.db.tokens[t].family)
  {
    var f := w.db.tokens[t].family;
    assert t in w'.db.tokens && w'.db.tokens[t].family == f;
    forall x ensures DeadToken(w'.db.tokens, x, f) {}
  }

  /** A token of a dead family is never exchanged for a new one. */
  lemma DeadNeverRefreshes(w: World, t: Id, now: int, cfg: Config, w': World, r: Result<Id, SessionError>)
    requires t in w.db.tokens && Dead(w.db, w.db.tokens[t].family) && Next(w, Refresh(t, now), cfg, w', r)
    ensures r == Err(TokenReplayed)
  {
    assert DeadToken(w.db.tokens, t, w.db.tokens[t].family);
  }

  /** What an operation may do to one family that has tokens already: unless it refreshes a live token of that
      family, it adds none to it and revives none in it. */
  predicate FamilyQuiet(tokens: map<Id, Token>, tokens': map<Id, Token>, family: Id, t: Id) {
    && (t in tokens ==>
          && t in tokens' && tokens'[t].family == tokens[t].family
          && (LiveToken(tokens'[t]) ==> LiveToken(tokens[t])))
    && (t !in tokens && t in tokens' ==> tokens'[t].family != family)
  }

  lemma QuietStaysDead(db: Tables, db': Tables, family: Id)
    requires Dead(db, family) && forall t :: FamilyQuiet(db.tokens, db'.tokens, family, t)
    ensures Dead(db', family)
  {
    var t :| t in db.tokens && db.tokens[t].family == family;
    assert FamilyQuiet(db.tokens, db'.tokens, family, t);
    forall x ensures DeadToken(db'.tokens, x, family) {
      assert FamilyQuiet(db.tokens, db'.tokens, family, x) && DeadToken(db.tokens, x, family);
    }
  }

  lemma RegisteringQuiet(db: Tables, user: Id, info: DeviceInfo, now: int, cap: int, id: Id, d: Id, gone: set<Id>,
                         db': Tables)
    requires Registered(db, user, info, now, cap, id, d, gone, db')
    ensures db'.tokens == RevokeOnDevices(db.tokens, gone)
  {
    var up :| Upserting(db, user, info, now, cap, id, d, gone, db', up);
  }

  /** A login revokes tokens of evicted devices and starts a family of its own. */
  lemma LoginTokens(db: Tables, phone: string, device: Option<DeviceInfo>, now: int, cfg: Config, id: Id, db': Tables,
                    r: Result<Id, SessionError>, u: Id, known: Tables, d: Option<Id>, gone: set<Id>, ready: Tables)
    requires LoggingIn(db, phone, device, now, cfg, id, db', r, u, known, d, gone, ready)
    ensures db'.tokens == db.tokens || ready.tokens == db.tokens || ready.tokens == RevokeOnDevices(db.tokens, gone)
    ensures db'.tokens != db.tokens ==>
              db'.tokens == ready.tokens[id := Token(u, d, id, now + cfg.refreshTtl, false, false, None)]
  {
    assert known.tokens == db.tokens;
    if IsActive(known.users[u]) && device.Some? {
      RegisteringQuiet(known, u, device.value, now, cfg.maxActiveDevices, id + 1, d.value, gone, ready);
    }
  }

  lemma FreshFamilyQuiet(tokens: map<Id, Token>, ready: map<Id, Token>, tokens': map<Id, Token>, gone: set<Id>, id: Id,
                         family: Id, t: Id)
    requires ready == tokens || ready == RevokeOnDevices(tokens, gone)
    requires tokens' == tokens || (id in tokens' && tokens' == ready[id := tokens'[id]] && tokens'[id].family == id)
    requires family < id && id !in tokens
    ensures FamilyQuiet(tokens, tokens', family, t)
  {}

  lemma LoginQuiet(db: Tables, phone: string, device: Option<DeviceInfo>, now: int, cfg: Config, id: Id, db': Tables,
                   r: Result<Id, SessionError>, family: Id, t: Id)
    requires LogsIn(db, phone, device, now, cfg, id, db', r) && family < id && id !in db.tokens
    ensures FamilyQuiet(db.tokens, db'.tokens, family, t)
  {
    var u, known, d, gone, ready :| LoggingIn(db, phone, device, now, cfg, id, db', r, u, known, d, gone, ready);
    LoginTokens(db, phone, device, now, cfg, id, db', r, u, known, d, gone, ready);
    if db'.tokens != db.tokens {
      FreshFamilyQuiet(db.tokens, ready.tokens, db'.tokens, gone, id, family, t);
    }
  }

  lemma RefreshQuiet(db: Tables, t: Id, now: int, ttl: int, id: Id, db': Tables, r: Result<Id, SessionError>,
                     family: Id, x: Id)
    requires Refreshes(db, t, now, ttl, id, db', r) && Dead(db, family) && id !in db.tokens
    ensures FamilyQuiet(db.tokens, db'.tokens, family, x)
  {
    assert DeadToken(db.tokens, t, family);
  }

  lemma OpQuiet(w: World, op: Op, cfg: Config, w': World, r: Result<Id, SessionError>, family: Id, t: Id)
    requires Dead(w.db, family) && family < w.nextId && w.nextId !in w.db.tokens && Next(w, op, cfg, w', r)
    ensures FamilyQuiet(w.db.tokens, w'.db.tokens, family, t)
  {
    match op
    case Verify(phone, code, device, now, otp) =>
      if otp.Some? && w.db.otps[otp.value].attempts < w.db.otps[otp.value].maxAttempts
         && w.db.otps[otp.value].code == code {
        LoginQuiet(OtpConsumed(w.db, otp.value), phone, device, now, cfg, w.nextId, w'.db, r, family, t);
      }
    case Refresh(x, now) => RefreshQuiet(w.db, x, now, cfg.refreshTtl, w.nextId, w'.db, r, family, t);
    case _ =>
  }

  lemma DeadStays(w: World, op: Op, cfg: Config, w': World, r: Result<Id, SessionError>, family: Id)
    requires WorldOk(w, cfg) && Dead(w.db, family) && Next(w, op, cfg, w', r)
    ensures Dead(w'.db, family)
  {
    var k :| k in w.db.tokens && w.db.tokens[k].family == family;
    assert TokenOk(w.db, k) && Below(w.db, w.nextId, k) && Below(w.db, w.nextId, w.nextId);
    forall t ensures FamilyQuiet(w.db.tokens, w'.db.tokens, family, t) {
      OpQuiet(w, op, cfg, w', r, family, t);
    }
    QuietStaysDead(w.db, w'.db, family);
  }

  // ---------- whole runs ----------

  ghost predicate Run(worlds: seq<World>, ops: seq<Op>, answers: seq<Result<Id, SessionError>>, cfg: Config) {
    && |worlds| == |ops| + 1 && |answers| == |ops|
    && forall i :: 0 <= i < |ops| ==> Next(worlds[i], ops[i], cfg, worlds[i + 1], answers[i])
  }

  function NoAccounts(clock: int): World {
    World(Tables(map[], map[], map[], map[]), clock, 0)
  }

  lemma {:induction false} RunKeeps(worlds: seq<World>, ops: seq<Op>, answers: seq<Result<Id, SessionError>>,
                                    cfg: Config, n: nat)
    requires Run(worlds, ops, answers, cfg) && worlds[0] == NoAccounts(worlds[0].clock) && n < |worlds|
    ensures WorldOk(worlds[n], cfg)
    decreases n
  {
    if n > 0 {
      RunKeeps(worlds, ops, answers, cfg, n - 1);
      NextKeeps(worlds[n - 1], ops[n - 1], cfg, worlds[n], answers[n - 1]);
    }
  }

  /** Once a replay is detected, no later operation of the run revives the family: no token of it is ever exchanged
      again, and none of its tokens, old or new, is live. */
  lemma {:induction false} ReplayIsFinal(worlds: seq<World>, ops: seq<Op>, answers: seq<Result<Id, SessionError>>,
                                         cfg: Config, i: nat, n: nat)
    requires Run(worlds, ops, answers, cfg) && worlds[0] == NoAccounts(worlds[0].clock)
    requires i < n <= |ops| && ops[i].Refresh? && answers[i] == Err(TokenReplayed)
    ensures ops[i].token in worlds[i].db.tokens
    ensures Dead(worlds[n].db, worlds[i].db.tokens[ops[i].token].family)
    decreases n
  {
    var t := ops[i].token;
    if n == i + 1 {
      ReplayKillsFamily(worlds[i], t, ops[i].now, cfg, worlds[i + 1], answers[i]);
    } else {
      ReplayIsFinal(worlds, ops, answers, cfg, i, n - 1);
      RunKeeps(worlds, ops, answers, cfg, n - 1);
      DeadStays(worlds[n - 1], ops[n - 1], cfg, worlds[n], answers[n - 1], worlds[i].db.tokens[t].family);
    }
  }

  /** A token that has been used or revoked. */
  predicate SpentToken(tokens: map<Id, Token>, t: Id) {
    t in tokens && !LiveToken(tokens[t])
  }

  lemma LoginSpends(db: Tables, phone: string, device: Option<DeviceInfo>, now: int, cfg: Config, id: Id, db': Tables,
                    r: Result<Id, SessionError>, t: Id)
    requires LogsIn(db, phone, device, now, cfg, id, db', r) && SpentToken(db.tokens, t) && t != id
    ensures SpentToken(db'.tokens, t)
  {
    var u, known, d, gone, ready :| LoggingIn(db, phone, device, now, cfg, id, db', r, u, known, d, gone, ready);
    LoginTokens(db, phone, device, now, cfg, id, db', r, u, known, d, gone, ready);
  }

  /** No operation brings a token back. */
  lemma SpentStays(w: World, op: Op, cfg: Config, w': World, r: Result<Id, SessionError>, t: Id)
    requires WorldOk(w, cfg) && Next(w, op, cfg, w', r) && SpentToken(w.db.tokens, t)
    ensures SpentToken(w'.db.tokens, t) && !(op == Refresh(t, Clock(w, op)) && r.Ok?)
  {
    assert Below(w.db, w.nextId, t);
    match op
    case Verify(phone, code, device, now, otp) =>
      if otp.Some? && w.db.otps[otp.value].attempts < w.db.otps[otp.value].maxAttempts
         && w.db.otps[otp.value].code == code {
        LoginSpends(OtpConsumed(w.db, otp.value), phone, device, now, cfg, w.nextId, w'.db, r, t);
      }
    case _ =>
  }

  lemma {:induction false} SpentRun(worlds: seq<World>, ops: seq<Op>, answers: seq<Result<Id, SessionError>>,
                                    cfg: Config, i: nat, n: nat, t: Id)
    requires Run(worlds, ops, answers, cfg) && worlds[0] == NoAccounts(worlds[0].clock) && i <= n < |worlds|
    requires SpentToken(worlds[i].db.tokens, t)
    ensures SpentToken(worlds[n].db.tokens, t)
    decreases n
  {
    if i < n {
      SpentRun(worlds, ops, answers, cfg, i, n - 1, t);
      RunKeeps(worlds, ops, answers, cfg, n - 1);
      SpentStays(worlds[n - 1], ops[n - 1], cfg, worlds[n], answers[n - 1], t);
    }
  }

  /** A token that was signed out is never exchanged again: presenting it is answered as a replay. */
  lemma LogoutIsFinal(worlds: seq<World>, ops: seq<Op>, answers: seq<Result<Id, SessionError>>, cfg: Config, i: nat,
                      n: nat, t: Id)
    requires Run(worlds, ops, answers, cfg) && worlds[0] == NoAccounts(worlds[0].clock)
    requires i < n < |ops| && ops[i] == Logout(t) && t in worlds[i].db.tokens
    requires ops[n].Refresh? && ops[n].token == t
    ensures answers[n] == Err(TokenReplayed)
  {
    assert Next(worlds[i], ops[i], cfg, worlds[i + 1], answers[i]);
    SpentRun(worlds, ops, answers, cfg, i + 1, n, t);
    assert Next(worlds[n], ops[n], cfg, worlds[n + 1], answers[n]);
  }

  /** At most one token of a family can be used. */
  lemma OneLiveToken(worlds: seq<World>, ops: seq<Op>, answers: seq<Result<Id, SessionError>>, cfg: Config, n: nat,
                     a: Id, b: Id)
    requires Run(worlds, ops, answers, cfg) && worlds[0] == NoAccounts(worlds[0].clock) && n < |worlds|
    requires var tokens := worlds[n].db.tokens;
             && a in tokens && b in tokens && tokens[a].family == tokens[b].family
             && LiveToken(tokens[a]) && LiveToken(tokens[b])
    ensures a == b
  {
    RunKeeps(worlds, ops, answers, cfg, n);
    assert FamilyOk(worlds[n].db.tokens, a, b);
  }

  /** A live token's user is active and its device is signed in and belongs to that user. */
  lemma LiveTokenLinks(worlds: seq<World>, ops: seq<Op>, answers: seq<Result<Id, SessionError>>, cfg: Config, n: nat,
                       t: Id)
    requires Run(worlds, ops, answers, cfg) && worlds[0] == NoAccounts(worlds[0].clock) && n < |worlds|
    requires t in worlds[n].db.tokens && LiveToken(worlds[n].db.tokens[t])
    ensures var db, token := worlds[n].db, worlds[n].db.tokens[t];
            && token.user in db.users && IsActive(db.users[token.user])
            && (token.device.Some? ==> token.device.value in ActiveIds(db.devices, token.user))
  {
    RunKeeps(worlds, ops, answers, cfg, n);
    assert TokenOk(worlds[n].db, t);
  }

  /** Nobody is signed in on more devices than a positive cap allows; the default cap is five. */
  lemma DeviceCap(worlds: seq<World>, ops: seq<Op>, answers: seq<Result<Id, SessionError>>, cfg: Config, n: nat, u: Id,
                  signedIn: set<Id>)
    requires Run(worlds, ops, answers, WithDefaults(cfg)) && worlds[0] == NoAccounts(worlds[0].clock) && n < |worlds|
    requires cfg.maxActiveDevices >= 0
    requires forall d :: d in signedIn <==>
               d in worlds[n].db.devices && worlds[n].db.devices[d].user == u && !worlds[n].db.devices[d].revoked
    ensures |signedIn| <= (if cfg.maxActiveDevices == 0 then 5 else cfg.maxActiveDevices)
  {
    RunKeeps(worlds, ops, answers, WithDefaults(cfg), n);
    assert signedIn == ActiveIds(worlds[n].db.devices, u);
    assert CapOk(worlds[n].db.devices, WithDefaults(cfg).maxActiveDevices, u);
  }

  // ---------- the replacement chain ----------

  /** `b` is reached from `a` by following replacements. */
  predicate Leads(tokens: map<Id, Token>, a: Id, b: Id, steps: nat)
    decreases steps
  {
    if steps == 0 then a == b
    else a in tokens && tokens[a].replacedBy.Some? && Leads(tokens, tokens[a].replacedBy.value, b, steps - 1)
  }

  /** The tokens of a family form one line: of any two, the earlier leads to the later. */
  lemma {:induction false} OneChain(db: Tables, a: Id, b: Id, n: nat) returns (steps: nat)
    requires TokensOk(db) && (forall t :: t in db.tokens ==> t < n)
    requires a in db.tokens && b in db.tokens && db.tokens[a].family == db.tokens[b].family && a <= b
    ensures Leads(db.tokens, a, b, steps)
    decreases b - a
  {
    if a == b {
      steps := 0;
    } else {
      assert TokenOk(db, a) && FamilyOk(db.tokens, a, b);
      assert db.tokens[a].used by {
        if !db.tokens[a].used {
          TipIsLatest(db, b, a, n);
        }
      }
      var rest := OneChain(db, db.tokens[a].replacedBy.value, b, n);
      steps := rest + 1;
    }
  }
}
