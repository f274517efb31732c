/** The identity service, statement by statement. Each method is proved to do what the session machine says. */
module SessionService {
  import opened FiniteSets
  import opened Results
  import opened Sessions
  import opened SessionProofs
  import opened SessionRuns

  ghost function LastActives(devices: map<Id, Device>): map<Id, int> {
    map d | d in devices :: devices[d].lastActive
  }

  lemma NobodyGone(db: Tables)
    ensures SignedOut(db, {}) == db
  {
    assert RevokeDevices(db.devices, {}) == db.devices && RevokeOnDevices(db.tokens, {}) == db.tokens;
  }

  lemma OneMoreGone(up: Tables, user: Id, gone: set<Id>, oldest: Id)
    requires LeastRecent(up.devices, user, gone) && (forall a, b :: DevicesOk(up.devices, a, b))
    requires oldest in ActiveIds(up.devices, user) - gone
    requires forall d :: d in ActiveIds(up.devices, user) - gone ==>
               up.devices[oldest].lastActive <= up.devices[d].lastActive
    ensures LeastRecent(up.devices, user, gone + {oldest})
    ensures SignedOut(SignedOut(up, gone), {oldest}) == SignedOut(up, gone + {oldest})
  {
    var more := gone + {oldest};
    forall g, k | g in more && k in ActiveIds(up.devices, user) - more
      ensures up.devices[g].lastActive < up.devices[k].lastActive
    {
      assert DevicesOk(up.devices, g, k);
    }
    var once := SignedOut(up, gone);
    assert RevokeDevices(once.devices, {oldest}) == RevokeDevices(up.devices, more);
    assert RevokeOnDevices(once.tokens, {oldest}) == RevokeOnDevices(up.tokens, more);
  }

  class Service {
    var db: Tables
    var clock: int
    var nextId: nat
    const cfg: Config

    ghost predicate Valid()
      reads this
    {
      WorldOk(Now(), cfg)
    }

    ghost function Now(): World
      reads this
    {
      World(db, clock, nextId)
    }

    constructor (config: Config, start: int)
      ensures Valid() && Now() == NoAccounts(start)
      ensures cfg.maxActiveDevices == (if config.maxActiveDevices == 0 then 5 else config.maxActiveDevices)
      ensures cfg.refreshTtl == config.refreshTtl
    {
      db := Tables(map[], map[], map[], map[]);
      clock := start;
      nextId := 0;
      cfg := WithDefaults(config);
    }

    // ---------- devices ----------

    /** UpsertDevice. */
    method UpsertDevice(user: Id, info: DeviceInfo, now: int, id: Id) returns (d: Id)
      modifies this`db
      ensures Upserted(old(db), user, info, now, id, d, db)
      ensures var was := old(db).devices;
              && d in db.devices && db == old(db).(devices := was[d := db.devices[d]])
              && db.devices[d] == Device(user, info.fingerprint, now, false)
              && if exists x :: x in was && was[x].user == user && info.fingerprint.Some?
                                && was[x].fingerprint == info.fingerprint
                 then d in was && was[d].user == user && was[d].fingerprint == info.fingerprint
                 else d == id
    {
      if exists x :: x in db.devices && Matches(db.devices, x, user, info) {
        var x :| x in db.devices && Matches(db.devices, x, user, info);
        db := db.(devices := db.devices[x := db.devices[x].(revoked := false, lastActive := now)]);
        return x;
      }
      db := db.(devices := db.devices[id := Device(user, info.fingerprint, now, false)]);
      return id;
    }

    /** RevokeOldestActiveDevice, with the tokens of the device. */
    method RevokeOldest(user: Id) returns (oldest: Id)
      requires ActiveIds(db.devices, user) != {}
      modifies this`db
      ensures oldest in ActiveIds(old(db).devices, user)
      ensures forall d :: d in ActiveIds(old(db).devices, user) ==>
                old(db).devices[oldest].lastActive <= old(db).devices[d].lastActive
      ensures db == SignedOut(old(db), {oldest})
    {
      var active := ActiveIds(db.devices, user);
      ghost var m := LeastExists(active, LastActives(db.devices));
      oldest :| oldest in active
                && forall d :: d in active ==> db.devices[oldest].lastActive <= db.devices[d].lastActive;
      db := db.(devices := RevokeDevices(db.devices, {oldest}));
      db := db.(tokens := RevokeOnDevices(db.tokens, {oldest}));
    }

    /** The cap loop: the least recently active devices are signed out, one at a time, until the cap is met. */
    method CapDevices(user: Id, cap: int) returns (ghost gone: set<Id>)
      requires cap > 0 && forall a, b :: DevicesOk(db.devices, a, b)
      modifies this`db
      ensures LeastRecent(old(db).devices, user, gone) && GoneCount(old(db).devices, user, cap, gone)
      ensures db == SignedOut(old(db), gone)
    {
      ghost var up := db;
      ghost var active := ActiveIds(db.devices, user);
      gone := {};
      NobodyGone(up);
      var count := |ActiveIds(db.devices, user)|;
      while count > cap
        invariant db == SignedOut(up, gone) && LeastRecent(up.devices, user, gone)
        invariant count == |active| - |gone|
        invariant if |active| > cap then count >= cap else gone == {}
      {
        SignedOutActive(up.devices, gone, user);
        Smaller(gone, active);
        var oldest := RevokeOldest(user);
        OneMoreGone(up, user, gone, oldest);
        gone := gone + {oldest};
        count := count - 1;
      }
    }

    /** registerDevice. */
    method RegisterDevice(user: Id, info: DeviceInfo, now: int, id: Id) returns (d: Id, ghost gone: set<Id>)
      requires DeviceTableOk(db.devices, cfg.maxActiveDevices, clock) && now > clock && id !in db.devices
      modifies this`db
      ensures Registered(old(db), user, info, now, cfg.maxActiveDevices, id, d, gone, db)
      ensures CapApplied(old(db), user, cfg.maxActiveDevices, d, db)
      ensures d in db.devices && db.devices[d] == Device(user, info.fingerprint, now, false)
    {
      d := UpsertDevice(user, info, now, id);
      UpsertKeepsDevices(old(db), user, info, now, id, d, db, cfg.maxActiveDevices, clock);
      ghost var up := db;
      gone := {};
      NobodyGone(up);
      if cfg.maxActiveDevices > 0 {
        gone := CapDevices(user, cfg.maxActiveDevices);
      }
      assert Upserting(old(db), user, info, now, cfg.maxActiveDevices, id, d, gone, db, up);
      RegisteredMeans(old(db), user, info, now, cfg.maxActiveDevices, clock, id, d, gone, db);
    }

    // ---------- tokens ----------

    /** issueTokenPair, as far as the database goes. */
    method IssueToken(user: Id, device: Option<Id>, family: Option<Id>, now: int, id: Id)
      modifies this`db
      ensures db == Issued(old(db), user, device, family, now + cfg.refreshTtl, id)
    {
      var root := if family.Some? then family.value else id;
      db := db.(tokens := db.tokens[id := Token(user, device, root, now + cfg.refreshTtl, false, false, None)]);
    }

    /** RefreshToken: replay, expiry and status are checked in this order, then the chain is rotated. */
    method RefreshToken(t: Id, now: int) returns (r: Result<Id, SessionError>)
      requires Valid() && now > clock
      modifies this
      ensures Valid()
      ensures Next(old(Now()), Refresh(t, now), cfg, Now(), r)
      ensures r.Ok? ==> LiveToken(old(db).tokens[t]) && LiveToken(db.tokens[r.value]) && !LiveToken(db.tokens[t])
                        && db.tokens[r.value].family == old(db).tokens[t].family
      ensures r.Ok? <==>
                && t in old(db).tokens
                && var token := old(db).tokens[t];
                && !token.used && !token.revoked && now <= token.expires
                && token.user in old(db).users && old(db).users[token.user].status == "active"
      ensures r.Ok? ==>
                forall x :: x in old(db).tokens && x != t ==> x in db.tokens && db.tokens[x] == old(db).tokens[x]
      ensures r == Err(TokenReplayed) ==>
                forall x :: x in old(db).tokens && old(db).tokens[x].family != old(db).tokens[t].family ==>
                              x in db.tokens && db.tokens[x] == old(db).tokens[x]
      ensures r == Err(Suspended) ==>
                && (forall x :: x in db.tokens && db.tokens[x].user == old(db).tokens[t].user ==>
                                  !LiveToken(db.tokens[x]))
                && forall x :: x in old(db).tokens && old(db).tokens[x].user != old(db).tokens[t].user ==>
                                 x in db.tokens && db.tokens[x] == old(db).tokens[x]
      ensures r.Err? && !r.error.TokenReplayed? && !r.error.Suspended? ==> db == old(db)
      ensures db.users == old(db).users && db.devices == old(db).devices && db.otps == old(db).otps
      ensures r.Ok? ==>
                var token := old(db).tokens[t];
                db.tokens[r.value] ==
                Token(token.user, token.device, token.family, now + cfg.refreshTtl, false, false, None)
      ensures t in old(db).tokens && !LiveToken(old(db).tokens[t]) ==>
                && r == Err(TokenReplayed)
                && forall x :: x in db.tokens && db.tokens[x].family == old(db).tokens[t].family ==>
                                 !LiveToken(db.tokens[x])
    {
      var id := nextId;
      IdsAbove(db, id);
      r := Rotate(t, now, id);
      clock := now;
      nextId := id + IDS_PER_OP;
      NextKeeps(old(Now()), Refresh(t, now), cfg, Now(), r);
    }

    method Rotate(t: Id, now: int, id: Id) returns (r: Result<Id, SessionError>)
      requires id !in db.tokens
      modifies this`db
      ensures Refreshes(old(db), t, now, cfg.refreshTtl, id, db, r)
    {
      if t !in db.tokens {
        return Err(TokenInvalid);
      }
      var existing := db.tokens[t];
      if existing.used || existing.revoked {
        db := db.(tokens := RevokeFamily(db.tokens, existing.family));
        return Err(TokenReplayed);
      }
      if now > existing.expires {
        return Err(TokenInvalid);
      }
      if existing.user !in db.users {
        return Err(NotFound);
      }
      if !IsActive(db.users[existing.user]) {
        db := db.(tokens := RevokeForUser(db.tokens, existing.user));
        return Err(Suspended);
      }
      IssueToken(existing.user, existing.device, Some(existing.family), now, id);
      db := Replaced(db, t, id);
      return Ok(id);
    }

    // ---------- login ----------

    /** RequestOTP once the rate limiter has let it through: a suspended account gets no code. */
    method RequestOtp(phone: string, code: string, now: int, ttl: int, maxAttempts: nat)
        returns (r: Result<Id, SessionError>)
      requires Valid() && now > clock
      modifies this
      ensures Valid()
      ensures Next(old(Now()), RequestCode(phone, code, now, ttl, maxAttempts), cfg, Now(), r)
      ensures r.Ok? <==> forall u :: u in old(db).users && old(db).users[u].phone == phone ==>
                                       old(db).users[u].status == "active"
      ensures r.Ok? ==>
                && r.value !in old(db).otps
                && var row := Otp(phone, code, now, now + ttl, 0, maxAttempts, false);
                db == old(db).(otps := old(db).otps[r.value := row])
      ensures r.Err? ==> r.error == Suspended && db == old(db)
    {
      var id := nextId;
      assert Below(db, id, id);
      if exists u :: u in db.users && SuspendedPhone(db, phone, u) {
        r := Err(Suspended);
      } else {
        db := db.(otps := db.otps[id := Otp(phone, code, now, now + ttl, 0, maxAttempts, false)]);
        r := Ok(id);
      }
      clock := now;
      nextId := id + IDS_PER_OP;
      NextKeeps(old(Now()), RequestCode(phone, code, now, ttl, maxAttempts), cfg, Now(), r);
    }

    method FindOtp(phone: string, now: int) returns (o: Option<Id>)
      ensures LatestOtp(db, phone, now, o)
      ensures o.Some? ==>
                && o.value in db.otps && db.otps[o.value].phone == phone && !db.otps[o.value].consumed
                && now < db.otps[o.value].expires
      ensures forall x :: x in db.otps && db.otps[x].phone == phone && !db.otps[x].consumed
                          && now < db.otps[x].expires ==>
                            o.Some? && db.otps[x].created <= db.otps[o.value].created
    {
      o := None;
      var rest := db.otps.Keys;
      while rest != {}
        invariant rest <= db.otps.Keys
        invariant o.None? ==> forall x :: OtpUsable(db, x, phone, now) ==> x in rest
        invariant o.Some? ==> OtpUsable(db, o.value, phone, now)
        invariant o.Some? ==> forall x :: OtpUsable(db, x, phone, now) && x !in rest ==>
                                db.otps[x].created <= db.otps[o.value].created
      {
        var x :| x in rest;
        rest := rest - {x};
        if OtpUsable(db, x, phone, now) && (o.None? || db.otps[x].created > db.otps[o.value].created) {
          o := Some(x);
        }
      }
      forall x | x in db.otps && db.otps[x].phone == phone && !db.otps[x].consumed && now < db.otps[x].expires
        ensures o.Some? && db.otps[x].created <= db.otps[o.value].created
      {
        assert OtpUsable(db, x, phone, now);
      }
    }

    /** VerifyOTP. */
    method VerifyOtp(phone: string, code: string, device: Option<DeviceInfo>, now: int)
        returns (r: Result<Id, SessionError>, ghost otp: Option<Id>)
      requires Valid() && now > clock
      modifies this
      ensures Valid()
      ensures Next(old(Now()), Verify(phone, code, device, now, otp), cfg, Now(), r)
      ensures forall x :: x in old(db).otps && old(db).otps[x].phone == phone && !old(db).otps[x].consumed
                          && now < old(db).otps[x].expires ==>
                            && otp.Some? && otp.value in old(db).otps
                            && old(db).otps[x].created <= old(db).otps[otp.value].created
      ensures otp.None? ==> r == Err(InvalidOtp) && db == old(db)
      ensures otp.Some? ==>
                && otp.value in old(db).otps
                && var row := old(db).otps[otp.value];
                && row.phone == phone && !row.consumed && now < row.expires
                && (row.attempts >= row.maxAttempts ==> r == Err(OtpAttempts) && db == old(db))
                && (row.attempts < row.maxAttempts && row.code != code ==>
                      && r == Err(InvalidOtp)
                      && db == old(db).(otps := old(db).otps[otp.value := row.(attempts := row.attempts + 1)]))
                && (row.attempts < row.maxAttempts && row.code == code ==> r.Ok? || r == Err(Suspended))
    {
      var id := nextId;
      IdsAbove(db, id);
      var o := FindOtp(phone, now);
      otp := o;
      if o.None? {
        r := Err(InvalidOtp);
      } else if db.otps[o.value].attempts >= db.otps[o.value].maxAttempts {
        r := Err(OtpAttempts);
      } else if db.otps[o.value].code != code {
        db := OtpTried(db, o.value);
        r := Err(InvalidOtp);
      } else {
        db := OtpConsumed(db, o.value);
        r := LogIn(phone, device, now, id);
      }
      clock := now;
      nextId := id + IDS_PER_OP;
      NextKeeps(old(Now()), Verify(phone, code, device, now, otp), cfg, Now(), r);
    }

    method LogIn(phone: string, device: Option<DeviceInfo>, now: int, id: Id) returns (r: Result<Id, SessionError>)
      requires DeviceTableOk(db.devices, cfg.maxActiveDevices, clock) && now > clock && id + 1 !in db.devices
      modifies this`db
      ensures LogsIn(old(db), phone, device, now, cfg, id, db, r)
    {
      var u := FindAccount(phone, id + 2);
      ghost var known := db;
      if !IsActive(db.users[u]) {
        assert LoggingIn(old(db), phone, device, now, cfg, id, db, Err(Suspended), u, known, None, {}, known);
        return Err(Suspended);
      }
      var d: Option<Id> := None;
      ghost var gone := {};
      if device.Some? {
        var registered;
        registered, gone := RegisterDevice(u, device.value, now, id + 1);
        d := Some(registered);
      }
      ghost var ready := db;
      IssueToken(u, d, None, now, id);
      assert LoggingIn(old(db), phone, device, now, cfg, id, db, Ok(id), u, known, d, gone, ready);
      return Ok(id);
    }

    method FindAccount(phone: string, id: Id) returns (u: Id)
      modifies this`db
      ensures Account(old(db), phone, id, u, db) && u in db.users && db.devices == old(db).devices
    {
      if exists x :: x in db.users && HasPhone(db, x, phone) {
        u :| u in db.users && HasPhone(db, u, phone);
        return;
      }
      db := db.(users := db.users[id := User(phone, STATUS_ACTIVE)]);
      u := id;
    }

    // ---------- ending sessions ----------

    method Logout(t: Id)
      requires Valid()
      modifies this
      ensures Valid() && db == LoggedOut(old(db), t)
      ensures t in old(db).tokens ==>
                && t in db.tokens && !LiveToken(db.tokens[t])
                && db == old(db).(tokens := old(db).tokens[t := db.tokens[t]])
      ensures t !in old(db).tokens ==> db == old(db)
    {
      ghost var w := Now();
      if t in db.tokens {
        db := db.(tokens := db.tokens[t := db.tokens[t].(revoked := true)]);
      }
      clock, nextId := clock + 1, nextId + IDS_PER_OP;
      NextKeeps(w, Op.Logout(t), cfg, Now(), Err(NotFound));
    }

    method LogoutAll(u: Id)
      requires Valid()
      modifies this
      ensures Valid() && db == old(db).(tokens := RevokeForUser(old(db).tokens, u))
      ensures forall t :: t in db.tokens && db.tokens[t].user == u ==> !LiveToken(db.tokens[t])
      ensures forall t :: t in old(db).tokens && old(db).tokens[t].user != u ==>
                t in db.tokens && db.tokens[t] == old(db).tokens[t]
      ensures db == old(db).(tokens := db.tokens)
    {
      ghost var w := Now();
      db := db.(tokens := RevokeForUser(db.tokens, u));
      clock, nextId := clock + 1, nextId + IDS_PER_OP;
      NextKeeps(w, Op.LogoutAll(u), cfg, Now(), Err(NotFound));
    }

    /** RevokeDevice: the device row of its owner, then the tokens of the device. */
    method RevokeDevice(d: Id, user: Id)
      requires Valid()
      modifies this
      ensures Valid() && db == DeviceRevoked(old(db), d, user)
      ensures forall t :: t in db.tokens && db.tokens[t].device == Some(d) ==> !LiveToken(db.tokens[t])
      ensures forall t :: t in old(db).tokens && old(db).tokens[t].device != Some(d) ==>
                t in db.tokens && db.tokens[t] == old(db).tokens[t]
      ensures db == old(db).(devices := db.devices, tokens := db.tokens)
      ensures if d in old(db).devices && old(db).devices[d].user == user
              then db.devices == old(db).devices[d := old(db).devices[d].(revoked := true)]
              else db.devices == old(db).devices
    {
      ghost var w := Now();
      if d in db.devices && db.devices[d].user == user {
        db := db.(devices := db.devices[d := db.devices[d].(revoked := true)]);
      }
      db := db.(tokens := RevokeOnDevices(db.tokens, {d}));
      clock, nextId := clock + 1, nextId + IDS_PER_OP;
      NextKeeps(w, SignOutDevice(d, user), cfg, Now(), Err(NotFound));
    }

    /** SetStatus: leaving the active status ends every session. */
    method SetStatus(u: Id, status: string) returns (r: Result<User, SessionError>)
      requires Valid()
      modifies this
      ensures Valid()
      ensures r.Ok? <==> u in old(db).users
      ensures r.Ok? ==> db == StatusSet(old(db), u, status) && r.value == db.users[u] && r.value.status == status
      ensures r.Ok? ==> db == old(db).(users := old(db).users[u := r.value], tokens := db.tokens)
      ensures r.Ok? ==> r.value == User(old(db).users[u].phone, status)
      ensures r.Ok? && status == "active" ==> db.tokens == old(db).tokens
      ensures r.Ok? && status != "active" ==>
                && (forall t :: t in db.tokens && db.tokens[t].user == u ==> !LiveToken(db.tokens[t]))
                && forall t :: t in old(db).tokens && old(db).tokens[t].user != u ==>
                                 t in db.tokens && db.tokens[t] == old(db).tokens[t]
      ensures r.Err? ==> db == old(db)
    {
      ghost var w := Now();
      if u !in db.users {
        return Err(NotFound);
      }
      db := db.(users := db.users[u := db.users[u].(status := status)]);
      if status != STATUS_ACTIVE {
        db := db.(tokens := RevokeForUser(db.tokens, u));
      }
      clock, nextId := clock + 1, nextId + IDS_PER_OP;
      NextKeeps(w, Op.SetStatus(u, status), cfg, Now(), Err(NotFound));
      return Ok(db.users[u]);
    }
  }
}
