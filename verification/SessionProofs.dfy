/** Revoking, registering a device and issuing tokens, each on its own, keep the session invariants. */
module SessionProofs {
  import opened FiniteSets
  import opened Results
  import opened Sessions

  // ---------- revoking tokens ----------

  predicate RevokedOrSame(tokens: map<Id, Token>, tokens': map<Id, Token>, t: Id) {
    && (t in tokens <==> t in tokens')
    && (t in tokens ==> tokens'[t] == tokens[t] || tokens'[t] == tokens[t].(revoked := true))
  }

  /** Nothing happened to the tokens but that some of them were revoked. */
  ghost predicate OnlyRevokes(tokens: map<Id, Token>, tokens': map<Id, Token>) {
    forall t :: RevokedOrSame(tokens, tokens', t)
  }

  lemma RevokingKeepsFamilies(tokens: map<Id, Token>, tokens': map<Id, Token>, a: Id, b: Id)
    requires OnlyRevokes(tokens, tokens') && FamilyOk(tokens, a, b)
    ensures FamilyOk(tokens', a, b)
  {
    assert RevokedOrSame(tokens, tokens', a) && RevokedOrSame(tokens, tokens', b);
  }

  lemma RevokingKeepsToken(db: Tables, tokens': map<Id, Token>, t: Id)
    requires OnlyRevokes(db.tokens, tokens') && TokenOk(db, t)
    ensures TokenOk(db.(tokens := tokens'), t)
  {
    assert RevokedOrSame(db.tokens, tokens', t);
    if t in db.tokens && db.tokens[t].replacedBy.Some? {
      assert RevokedOrSame(db.tokens, tokens', db.tokens[t].replacedBy.value);
    }
  }

  lemma RevokingKeeps(db: Tables, tokens': map<Id, Token>)
    requires TokensOk(db) && OnlyRevokes(db.tokens, tokens')
    ensures TokensOk(db.(tokens := tokens'))
  {
    forall t ensures TokenOk(db.(tokens := tokens'), t) {
      assert TokenOk(db, t);
      RevokingKeepsToken(db, tokens', t);
    }
    forall a, b ensures FamilyOk(tokens', a, b) {
      assert FamilyOk(db.tokens, a, b);
      RevokingKeepsFamilies(db.tokens, tokens', a, b);
    }
  }

  // ---------- devices ----------

  lemma DeviceChangeKeepsToken(db: Tables, devices': map<Id, Device>, t: Id)
    requires TokenOk(db, t)
    requires t in db.tokens && LiveToken(db.tokens[t])
             && db.tokens[t].device.Some? && db.tokens[t].device.value in db.devices ==>
               var d := db.tokens[t].device.value;
               && d in devices' && devices'[d].user == db.devices[d].user
               && (devices'[d].revoked ==> db.devices[d].revoked)
    ensures TokenOk(db.(devices := devices'), t)
  {}

  /** Signing devices out takes their tokens with them, so a live token never points to a revoked device. */
  lemma SignedOutKeeps(db: Tables, gone: set<Id>)
    requires TokensOk(db)
    ensures TokensOk(SignedOut(db, gone))
  {
    var tokens' := RevokeOnDevices(db.tokens, gone);
    forall t ensures RevokedOrSame(db.tokens, tokens', t) {}
    RevokingKeeps(db, tokens');
    var mid := db.(tokens := tokens');
    forall t ensures TokenOk(SignedOut(db, gone), t) {
      assert TokenOk(mid, t);
      DeviceChangeKeepsToken(mid, RevokeDevices(db.devices, gone), t);
    }
    forall a, b ensures FamilyOk(tokens', a, b) {
      assert FamilyOk(mid.tokens, a, b);
    }
  }

  lemma UpsertKeepsTokens(db: Tables, user: Id, info: DeviceInfo, now: int, id: Id, d: Id, up: Tables)
    requires TokensOk(db) && Upserted(db, user, info, now, id, d, up) && id !in db.devices
    ensures TokensOk(up)
  {
    forall t ensures TokenOk(up, t) {
      assert TokenOk(db, t);
      DeviceChangeKeepsToken(db, up.devices, t);
    }
    forall a, b ensures FamilyOk(up.tokens, a, b) {
      assert FamilyOk(db.tokens, a, b);
    }
  }

  /** What the upsert leaves for the cap loop: the device just written is the most recently active. */
  ghost predicate Newest(db: Tables, user: Id, now: int, d: Id, up: Tables) {
    && d in up.devices && up.devices[d].user == user && !up.devices[d].revoked && up.devices[d].lastActive == now
    && (forall a, b :: DevicesOk(up.devices, a, b))
    && (forall x :: Earlier(up.devices, now, x))
    && (forall x :: x in ActiveIds(up.devices, user) && x != d ==> up.devices[x].lastActive < now)
    && (forall u :: ActiveIds(up.devices, u) <= ActiveIds(db.devices, u) + (if u == user then {d} else {}))
  }

  lemma UpsertKeepsDevices(db: Tables, user: Id, info: DeviceInfo, now: int, id: Id, d: Id, up: Tables, cap: int,
                           clock: int)
    requires DeviceTableOk(db.devices, cap, clock) && now > clock && Upserted(db, user, info, now, id, d, up)
    requires id !in db.devices
    ensures Newest(db, user, now, d, up)
  {
    forall a, b ensures DevicesOk(up.devices, a, b) {
      assert DevicesOk(db.devices, a, b) && Earlier(db.devices, clock, a) && Earlier(db.devices, clock, b);
      assert a in db.devices && info.fingerprint.Some? ==> (Matches(db.devices, a, user, info) <==>
               db.devices[a].user == user && db.devices[a].fingerprint == info.fingerprint);
      assert b in db.devices && info.fingerprint.Some? ==> (Matches(db.devices, b, user, info) <==>
               db.devices[b].user == user && db.devices[b].fingerprint == info.fingerprint);
    }
    forall x ensures Earlier(up.devices, now, x) {
      assert Earlier(db.devices, clock, x);
    }
    forall x | x in ActiveIds(up.devices, user) && x != d ensures up.devices[x].lastActive < now {
      assert Earlier(db.devices, clock, x);
    }
  }

  lemma SignedOutActive(devices: map<Id, Device>, gone: set<Id>, u: Id)
    ensures ActiveIds(RevokeDevices(devices, gone), u) == ActiveIds(devices, u) - gone
  {}

  lemma CapAfter(devices: map<Id, Device>, up: map<Id, Device>, user: Id, d: Id, gone: set<Id>, cap: int, u: Id)
    requires CapOk(devices, cap, u) && gone <= ActiveIds(up, user) && GoneCount(up, user, cap, gone)
    requires ActiveIds(up, u) <= ActiveIds(devices, u) + (if u == user then {d} else {})
    ensures cap > 0 ==> |ActiveIds(up, u) - gone| <= cap
  {
    if u == user {
      Smaller(gone, ActiveIds(up, u));
    } else {
      Smaller(ActiveIds(up, u), ActiveIds(devices, u));
      Smaller(ActiveIds(up, u) - gone, ActiveIds(up, u));
    }
  }

  lemma CapMet(db: Tables, user: Id, now: int, cap: int, d: Id, up: Tables, gone: set<Id>)
    requires (forall u :: CapOk(db.devices, cap, u)) && Newest(db, user, now, d, up)
    requires LeastRecent(up.devices, user, gone) && GoneCount(up.devices, user, cap, gone)
    ensures DeviceTableOk(RevokeDevices(up.devices, gone), cap, now)
  {
    var devices' := RevokeDevices(up.devices, gone);
    forall a, b ensures DevicesOk(devices', a, b) {
      assert DevicesOk(up.devices, a, b);
    }
    forall x ensures Earlier(devices', now, x) {
      assert Earlier(up.devices, now, x);
    }
    forall u ensures CapOk(devices', cap, u) {
      assert CapOk(db.devices, cap, u);
      SignedOutActive(up.devices, gone, u);
      CapAfter(db.devices, up.devices, user, d, gone, cap, u);
    }
  }

  lemma RegisteredTokens(db: Tables, user: Id, info: DeviceInfo, now: int, cap: int, id: Id, d: Id, gone: set<Id>,
                         db': Tables, up: Tables)
    requires TokensOk(db) && id !in db.devices && Upserting(db, user, info, now, cap, id, d, gone, db', up)
    ensures TokensOk(db')
  {
    UpsertKeepsTokens(db, user, info, now, id, d, up);
    SignedOutKeeps(up, gone);
  }

  lemma NewestStays(devices: map<Id, Device>, user: Id, now: int, cap: int, d: Id, gone: set<Id>)
    requires d in ActiveIds(devices, user) && LeastRecent(devices, user, gone) && devices[d].lastActive == now
    requires forall x :: x in ActiveIds(devices, user) && x != d ==> devices[x].lastActive < now
    requires GoneCount(devices, user, cap, gone)
    ensures d !in gone
  {
    var active := ActiveIds(devices, user);
    Smaller(gone, active);
    if gone != {} {
      var k :| k in active - gone;
      if k != d {
        assert devices[k].lastActive < devices[d].lastActive;
      }
    }
  }

  lemma RegisteredDevices(db: Tables, user: Id, info: DeviceInfo, now: int, cap: int, clock: int, id: Id, d: Id,
                          gone: set<Id>, db': Tables, up: Tables)
    requires DeviceTableOk(db.devices, cap, clock) && now > clock && id !in db.devices
    requires Upserting(db, user, info, now, cap, id, d, gone, db', up)
    ensures DeviceTableOk(db'.devices, cap, now)
    ensures d in db'.devices && db'.devices[d].user == user && !db'.devices[d].revoked && d !in gone
  {
    UpsertKeepsDevices(db, user, info, now, id, d, up, cap, clock);
    NewestStays(up.devices, user, now, cap, d, gone);
    CapMet(db, user, now, cap, d, up, gone);
  }

  lemma RegisteredKeys(db: Tables, user: Id, info: DeviceInfo, now: int, cap: int, id: Id, d: Id, gone: set<Id>,
                       db': Tables, up: Tables)
    requires Upserting(db, user, info, now, cap, id, d, gone, db', up)
    ensures db'.users == db.users && db'.otps == db.otps && db'.tokens.Keys == db.tokens.Keys
    ensures db'.devices.Keys <= db.devices.Keys + {id}
  {}

  /** Registering a device leaves at most the cap signed in, and the new device is one of them: it is the most
      recently active, and the least recently active go first. */
  lemma RegisteredOk(db: Tables, user: Id, info: DeviceInfo, now: int, cap: int, clock: int, id: Id, d: Id,
                     gone: set<Id>, db': Tables)
    requires TokensOk(db) && DeviceTableOk(db.devices, cap, clock) && now > clock && id !in db.devices
    requires Registered(db, user, info, now, cap, id, d, gone, db')
    ensures TokensOk(db') && DeviceTableOk(db'.devices, cap, now)
    ensures d in db'.devices && db'.devices[d].user == user && !db'.devices[d].revoked && d !in gone
    ensures db'.users == db.users && db'.otps == db.otps && db'.tokens.Keys == db.tokens.Keys
    ensures db'.devices.Keys <= db.devices.Keys + {id}
  {
    var up :| Upserting(db, user, info, now, cap, id, d, gone, db', up);
    RegisteredTokens(db, user, info, now, cap, id, d, gone, db', up);
    RegisteredDevices(db, user, info, now, cap, clock, id, d, gone, db', up);
    RegisteredKeys(db, user, info, now, cap, id, d, gone, db', up);
  }

  /** Who goes and who stays, read off the tables: of the devices signed in, the new one among them, exactly as many as
      the cap allows stay, each more recently active than each that goes; no cap, none goes; the tokens of a device go
      with it, and nothing else changes. */
  ghost predicate CapApplied(db: Tables, user: Id, cap: int, d: Id, db': Tables) {
    var had, left := ActiveIds(db.devices, user) + {d}, ActiveIds(db'.devices, user);
    && d in left && left <= had
    && |left| == (if cap > 0 && |had| > cap then cap else |had|)
    && (forall g, k :: g in had - left && k in left ==>
          g in db'.devices && k in db'.devices && db'.devices[g].lastActive < db'.devices[k].lastActive)
    && (forall x :: x in db.devices && x !in had ==> x in db'.devices && db'.devices[x] == db.devices[x])
    && (forall t :: t in db.tokens ==>
          && t in db'.tokens
          && db'.tokens[t] ==
             (if db.tokens[t].device.Some? && db.tokens[t].device.value in had - left
              then db.tokens[t].(revoked := true) else db.tokens[t]))
  }

  lemma UpsertedActive(db: Tables, user: Id, info: DeviceInfo, now: int, id: Id, d: Id, up: Tables)
    requires Upserted(db, user, info, now, id, d, up) && id !in db.devices
    ensures ActiveIds(up.devices, user) == ActiveIds(db.devices, user) + {d} && up.tokens == db.tokens
    ensures forall x :: x in db.devices && x != d ==> x in up.devices && up.devices[x] == db.devices[x]
  {}

  lemma CapIsApplied(db: Tables, user: Id, cap: int, d: Id, gone: set<Id>, up: Tables)
    requires ActiveIds(up.devices, user) == ActiveIds(db.devices, user) + {d} && up.tokens == db.tokens && d !in gone
    requires forall x :: x in db.devices && x != d ==> x in up.devices && up.devices[x] == db.devices[x]
    requires LeastRecent(up.devices, user, gone) && GoneCount(up.devices, user, cap, gone)
    ensures CapApplied(db, user, cap, d, SignedOut(up, gone))
  {
    var had := ActiveIds(up.devices, user);
    SignedOutActive(up.devices, gone, user);
    Smaller(gone, had);
    assert had - (had - gone) == gone;
  }

  lemma RegisteredMeans(db: Tables, user: Id, info: DeviceInfo, now: int, cap: int, clock: int, id: Id, d: Id,
                        gone: set<Id>, db': Tables)
    requires DeviceTableOk(db.devices, cap, clock) && now > clock && id !in db.devices
    requires Registered(db, user, info, now, cap, id, d, gone, db')
    ensures CapApplied(db, user, cap, d, db')
    ensures d in db'.devices && db'.devices[d].user == user && !db'.devices[d].revoked
    ensures db'.devices[d].lastActive == now && db'.devices[d].fingerprint == info.fingerprint
  {
    var up :| Upserting(db, user, info, now, cap, id, d, gone, db', up);
    UpsertedActive(db, user, info, now, id, d, up);
    RegisteredDevices(db, user, info, now, cap, clock, id, d, gone, db', up);
    CapIsApplied(db, user, cap, d, gone, up);
  }

  // ---------- issuing tokens ----------

  /** A first token of a family, for an active user on a device that is signed in. */
  lemma RootIssued(db: Tables, user: Id, device: Option<Id>, expires: int, id: Id)
    requires TokensOk(db) && (forall t :: t in db.tokens ==> t < id)
    requires user in db.users && IsActive(db.users[user])
    requires device.Some? ==>
               device.value in db.devices && !db.devices[device.value].revoked && db.devices[device.value].user == user
    ensures TokensOk(Issued(db, user, device, None, expires, id))
  {
    var db' := Issued(db, user, device, None, expires, id);
    forall t ensures TokenOk(db', t) {
      assert TokenOk(db, t);
    }
    forall a, b ensures FamilyOk(db'.tokens, a, b) {
      assert FamilyOk(db.tokens, a, b) && TokenOk(db, a) && TokenOk(db, b);
    }
  }

  /** The unused token of a family is its latest. */
  lemma {:induction false} TipIsLatest(db: Tables, b: Id, tip: Id, id: Id)
    requires TokensOk(db) && (forall x :: x in db.tokens ==> x < id)
    requires b in db.tokens && tip in db.tokens && db.tokens[b].family == db.tokens[tip].family && !db.tokens[tip].used
    ensures b <= tip
    decreases id - b
  {
    assert TokenOk(db, b) && FamilyOk(db.tokens, b, tip);
    if db.tokens[b].used {
      TipIsLatest(db, db.tokens[b].replacedBy.value, tip, id);
    }
  }

  /** Rotation: the new token takes the place of the old one at the end of its chain. */
  lemma Rotated(db: Tables, t: Id, expires: int, id: Id)
    requires TokensOk(db) && (forall x :: x in db.tokens ==> x < id) && t in db.tokens && LiveToken(db.tokens[t])
    ensures var token := db.tokens[t];
            TokensOk(Replaced(Issued(db, token.user, token.device, Some(token.family), expires, id), t, id))
  {
    var token := db.tokens[t];
    var db' := Replaced(Issued(db, token.user, token.device, Some(token.family), expires, id), t, id);
    assert TokenOk(db, t);
    forall x ensures TokenOk(db', x) {
      assert TokenOk(db, x);
    }
    forall a, b ensures FamilyOk(db'.tokens, a, b) {
      assert FamilyOk(db.tokens, a, b) && FamilyOk(db.tokens, t, a) && FamilyOk(db.tokens, t, b);
      assert TokenOk(db, a) && TokenOk(db, b);
      if b in db.tokens && db.tokens[b].family == token.family {
        TipIsLatest(db, b, t, id);
      }
    }
  }
}
