/**
  Which login codes log somebody in, over whole runs: exactly the newest code requested for a phone number, while it
  lasts, once, and after fewer wrong tries than it allows.
 */
module LoginCodes {
  import opened Results
  import opened Sessions
  import opened SessionProofs
  import opened SessionRuns

  // ---------- what has been asked and tried ----------

  /** Operation `j` requested this code for this phone number, and row `o` is the answer. */
  predicate RequestAt(ops: seq<Op>, answers: seq<Result<Id, SessionError>>, j: nat, phone: string, code: string,
                      o: Id)
  {
    && j < |ops| && j < |answers| && answers[j] == Ok(o)
    && ops[j].RequestCode? && ops[j].phone == phone && ops[j].code == code
  }

  /** Operation `k` tried a code on row `o`. */
  predicate TriedOn(ops: seq<Op>, k: nat, o: Id) {
    k < |ops| && ops[k].Verify? && ops[k].otp == Some(o)
  }

  /** How many of the first `n` operations tried another code on row `o`. */
  function WrongCodes(ops: seq<Op>, n: nat, o: Id, code: string): nat
    requires n <= |ops|
  {
    if n == 0 then 0 else
      WrongCodes(ops, n - 1, o, code) + (if TriedOn(ops, n - 1, o) && ops[n - 1].code != code then 1 else 0)
  }

  /** One of the first `n` operations tried the very code on row `o`, before the wrong ones had used it up. */
  predicate SpentAt(ops: seq<Op>, k: nat, o: Id, code: string, maxAttempts: nat) {
    k < |ops| && TriedOn(ops, k, o) && ops[k].code == code && WrongCodes(ops, k, o, code) < maxAttempts
  }

  ghost predicate Spent(ops: seq<Op>, n: nat, o: Id, code: string, maxAttempts: nat) {
    exists k: nat :: k < n && SpentAt(ops, k, o, code, maxAttempts)
  }

  /** The row of a code as its request wrote it, apart from the tries. */
  predicate RowOf(otp: Otp, op: Op)
    requires op.RequestCode?
  {
    && otp.phone == op.phone && otp.code == op.code && otp.created == op.now
    && otp.expires == op.now + op.ttl && otp.maxAttempts == op.maxAttempts
  }

  predicate OriginAt(ops: seq<Op>, answers: seq<Result<Id, SessionError>>, j: nat, o: Id, otp: Otp) {
    RequestAt(ops, answers, j, otp.phone, otp.code, o) && RowOf(otp, ops[j])
  }

  /** What the tables know about row `o` after `n` operations: where it comes from, how often it was tried, whether it
      is spent. A row that does not exist was never tried. */
  ghost predicate CodeKnown(worlds: seq<World>, ops: seq<Op>, answers: seq<Result<Id, SessionError>>, n: nat, o: Id) {
    && n < |worlds| && n <= |ops|
    && if o in worlds[n].db.otps then
         var otp := worlds[n].db.otps[o];
         var wrong := WrongCodes(ops, n, o, otp.code);
         && (exists j: nat :: j < n && OriginAt(ops, answers, j, o, otp))
         && otp.attempts == (if wrong < otp.maxAttempts then wrong else otp.maxAttempts)
         && (otp.consumed <==> Spent(ops, n, o, otp.code, otp.maxAttempts))
       else forall k: nat :: k < n ==> !TriedOn(ops, k, o)
  }

  lemma {:induction false} NeverTried(ops: seq<Op>, n: nat, o: Id, code: string)
    requires n <= |ops| && forall k: nat :: k < n ==> !TriedOn(ops, k, o)
    ensures WrongCodes(ops, n, o, code) == 0
  {
    if n > 0 {
      NeverTried(ops, n - 1, o, code);
    }
  }

  lemma {:induction false} WrongCodesGrow(ops: seq<Op>, a: nat, b: nat, o: Id, code: string)
    requires a <= b <= |ops|
    ensures WrongCodes(ops, a, o, code) <= WrongCodes(ops, b, o, code)
    decreases b
  {
    if a < b {
      WrongCodesGrow(ops, a, b - 1, o, code);
    }
  }

  // ---------- one operation ----------

  lemma LoginKeepsCodes(db: Tables, phone: string, device: Option<DeviceInfo>, now: int, cfg: Config, id: Id,
                        db': Tables, r: Result<Id, SessionError>)
    requires LogsIn(db, phone, device, now, cfg, id, db', r)
    ensures db'.otps == db.otps
  {
    var u, known, d, gone, ready :| LoggingIn(db, phone, device, now, cfg, id, db', r, u, known, d, gone, ready);
    if device.Some? && IsActive(known.users[u]) {
      var up :| Upserting(known, u, device.value, now, cfg.maxActiveDevices, id + 1, d.value, gone, ready, up);
    }
  }

  /** What one try does to the row it names. */
  function AfterTry(otp: Otp, code: string): Otp {
    if otp.attempts >= otp.maxAttempts then otp
    else if otp.code != code then otp.(attempts := otp.attempts + 1)
    else otp.(consumed := true)
  }

  /** What one operation does to the codes. */
  lemma CodesAfter(w: World, op: Op, cfg: Config, w': World, r: Result<Id, SessionError>)
    requires Next(w, op, cfg, w', r)
    ensures match op
            case RequestCode(phone, code, now, ttl, maxAttempts) =>
              if r.Ok? then
                && r == Ok(w.nextId)
                && w'.db.otps == w.db.otps[w.nextId := Otp(phone, code, now, now + ttl, 0, maxAttempts, false)]
              else w'.db.otps == w.db.otps
            case Verify(phone, code, device, now, otp) =>
              if otp.None? then w'.db.otps == w.db.otps && r.Err?
              else && otp.value in w.db.otps
                   && w'.db.otps == w.db.otps[otp.value := AfterTry(w.db.otps[otp.value], code)]
            case _ => w'.db.otps == w.db.otps
  {
    if op.Verify? && op.otp.Some? {
      var o := op.otp.value;
      var otp := w.db.otps[o];
      if otp.attempts >= otp.maxAttempts {
        assert w.db.otps[o := otp] == w.db.otps;
      } else if otp.code == op.code {
        LoginKeepsCodes(OtpConsumed(w.db, o), op.phone, op.device, op.now, cfg, w.nextId, w'.db, r);
      }
    }
  }

  // ---------- whole runs ----------

  lemma SpentStep(ops: seq<Op>, n: nat, o: Id, code: string, maxAttempts: nat)
    requires n < |ops|
    ensures Spent(ops, n + 1, o, code, maxAttempts) <==>
              Spent(ops, n, o, code, maxAttempts) || SpentAt(ops, n, o, code, maxAttempts)
  {
    if Spent(ops, n, o, code, maxAttempts) {
      var k: nat :| k < n && SpentAt(ops, k, o, code, maxAttempts);
      assert k < n + 1 && SpentAt(ops, k, o, code, maxAttempts);
    }
  }

  lemma OriginStep(ops: seq<Op>, answers: seq<Result<Id, SessionError>>, n: nat, o: Id, otp: Otp, otp': Otp)
    requires exists j: nat :: j < n && OriginAt(ops, answers, j, o, otp)
    requires otp' == otp.(attempts := otp'.attempts, consumed := otp'.consumed)
    ensures exists j: nat :: j < n + 1 && OriginAt(ops, answers, j, o, otp')
  {
    var j: nat :| j < n && OriginAt(ops, answers, j, o, otp);
    assert j < n + 1 && OriginAt(ops, answers, j, o, otp');
  }

  /** A code that exists. */
  lemma OldCodeKnown(worlds: seq<World>, ops: seq<Op>, answers: seq<Result<Id, SessionError>>, cfg: Config, n: nat,
                     o: Id)
    requires Run(worlds, ops, answers, cfg) && n < |ops| && WorldOk(worlds[n], cfg)
    requires CodeKnown(worlds, ops, answers, n, o) && o in worlds[n].db.otps
    ensures CodeKnown(worlds, ops, answers, n + 1, o)
  {
    CodesAfter(worlds[n], ops[n], cfg, worlds[n + 1], answers[n]);
    assert Below(worlds[n].db, worlds[n].nextId, o);
    var otp, otp' := worlds[n].db.otps[o], worlds[n + 1].db.otps[o];
    assert otp' == (if TriedOn(ops, n, o) then AfterTry(otp, ops[n].code) else otp);
    OriginStep(ops, answers, n, o, otp, otp');
    SpentStep(ops, n, o, otp.code, otp.maxAttempts);
  }

  /** A row that does not exist yet: nobody can have tried it. */
  lemma NewCodeKnown(worlds: seq<World>, ops: seq<Op>, answers: seq<Result<Id, SessionError>>, cfg: Config, n: nat,
                     o: Id)
    requires Run(worlds, ops, answers, cfg) && n < |ops| && WorldOk(worlds[n], cfg)
    requires CodeKnown(worlds, ops, answers, n, o) && o !in worlds[n].db.otps
    ensures CodeKnown(worlds, ops, answers, n + 1, o)
  {
    CodesAfter(worlds[n], ops[n], cfg, worlds[n + 1], answers[n]);
    if o in worlds[n + 1].db.otps {
      var otp := worlds[n + 1].db.otps[o];
      NeverTried(ops, n + 1, o, otp.code);
      assert OriginAt(ops, answers, n, o, otp);
    }
  }

  lemma NothingKnown(worlds: seq<World>, ops: seq<Op>, answers: seq<Result<Id, SessionError>>, cfg: Config, o: Id)
    requires Run(worlds, ops, answers, cfg) && worlds[0] == NoAccounts(worlds[0].clock)
    ensures CodeKnown(worlds, ops, answers, 0, o)
  {}

  lemma NextKnown(worlds: seq<World>, ops: seq<Op>, answers: seq<Result<Id, SessionError>>, cfg: Config, n: nat, o: Id)
    requires Run(worlds, ops, answers, cfg) && worlds[0] == NoAccounts(worlds[0].clock) && n < |ops|
    requires CodeKnown(worlds, ops, answers, n, o)
    ensures CodeKnown(worlds, ops, answers, n + 1, o)
  {
    RunKeeps(worlds, ops, answers, cfg, n);
    if o in worlds[n].db.otps {
      OldCodeKnown(worlds, ops, answers, cfg, n, o);
    } else {
      NewCodeKnown(worlds, ops, answers, cfg, n, o);
    }
  }

  lemma RunKnown(worlds: seq<World>, ops: seq<Op>, answers: seq<Result<Id, SessionError>>, cfg: Config, n: nat, o: Id)
    requires Run(worlds, ops, answers, cfg) && worlds[0] == NoAccounts(worlds[0].clock) && n < |worlds|
    ensures CodeKnown(worlds, ops, answers, n, o)
  {
    NothingKnown(worlds, ops, answers, cfg, o);
    for k := 0 to n
      invariant CodeKnown(worlds, ops, answers, k, o)
    {
      NextKnown(worlds, ops, answers, cfg, k, o);
    }
  }

  lemma {:induction false} ClockGrows(worlds: seq<World>, ops: seq<Op>, answers: seq<Result<Id, SessionError>>,
                                      cfg: Config, a: nat, b: nat)
    requires Run(worlds, ops, answers, cfg) && a <= b < |worlds|
    ensures worlds[a].clock <= worlds[b].clock && worlds[a].nextId + IDS_PER_OP * (b - a) == worlds[b].nextId
    decreases b
  {
    if a < b {
      ClockGrows(worlds, ops, answers, cfg, a, b - 1);
      assert Next(worlds[b - 1], ops[b - 1], cfg, worlds[b], answers[b - 1]);
    }
  }

  /** Of two requests the later has the later instant and another row. */
  lemma RequestsInOrder(worlds: seq<World>, ops: seq<Op>, answers: seq<Result<Id, SessionError>>, cfg: Config, a: nat,
                        b: nat, phone: string, code: string, o: Id, phone': string, code': string, o': Id)
    requires Run(worlds, ops, answers, cfg) && a < b < |ops|
    requires RequestAt(ops, answers, a, phone, code, o) && RequestAt(ops, answers, b, phone', code', o')
    ensures ops[a].now < ops[b].now && o < o'
  {
    assert Next(worlds[a], ops[a], cfg, worlds[a + 1], answers[a]);
    assert Next(worlds[b], ops[b], cfg, worlds[b + 1], answers[b]);
    CodesAfter(worlds[a], ops[a], cfg, worlds[a + 1], answers[a]);
    CodesAfter(worlds[b], ops[b], cfg, worlds[b + 1], answers[b]);
    ClockGrows(worlds, ops, answers, cfg, a + 1, b);
  }

  /** The row of a request stays what it was, apart from its tries. */
  lemma {:induction false} RowStays(worlds: seq<World>, ops: seq<Op>, answers: seq<Result<Id, SessionError>>,
                                    cfg: Config, j: nat, n: nat, phone: string, code: string, o: Id)
    requires Run(worlds, ops, answers, cfg) && worlds[0] == NoAccounts(worlds[0].clock)
    requires RequestAt(ops, answers, j, phone, code, o) && j < n < |worlds|
    ensures o in worlds[n].db.otps && RowOf(worlds[n].db.otps[o], ops[j])
    decreases n
  {
    assert Next(worlds[n - 1], ops[n - 1], cfg, worlds[n], answers[n - 1]);
    CodesAfter(worlds[n - 1], ops[n - 1], cfg, worlds[n], answers[n - 1]);
    if j < n - 1 {
      RowStays(worlds, ops, answers, cfg, j, n - 1, phone, code, o);
      RunKeeps(worlds, ops, answers, cfg, n - 1);
      assert Below(worlds[n - 1].db, worlds[n - 1].nextId, o);
    }
  }

  // ---------- what a login answers to ----------

  /** What a successful verification found in the tables. */
  lemma LoginFound(w: World, op: Op, cfg: Config, w': World, r: Result<Id, SessionError>)
    requires op.Verify? && r.Ok? && Next(w, op, cfg, w', r)
    ensures op.otp.Some? && op.otp.value in w.db.otps
    ensures var otp := w.db.otps[op.otp.value];
            && otp.phone == op.phone && otp.code == op.code && !otp.consumed
            && op.now < otp.expires && otp.attempts < otp.maxAttempts
    ensures forall x :: x in w.db.otps && w.db.otps[x].phone == op.phone
                        && w.db.otps[x].created > w.db.otps[op.otp.value].created ==>
                          w.db.otps[x].consumed || w.db.otps[x].expires <= op.now
  {
    forall x | x in w.db.otps && w.db.otps[x].phone == op.phone
               && w.db.otps[x].created > w.db.otps[op.otp.value].created
      ensures w.db.otps[x].consumed || w.db.otps[x].expires <= op.now
    {
      assert !OtpUsable(w.db, x, op.phone, op.now);
    }
  }

  /** Whoever logs in presents a code that was requested for that very phone number: not longer ago than it lasts,
      never spent before, and tried with fewer wrong codes than it allows. */
  lemma LoginAnswersToRequest(worlds: seq<World>, ops: seq<Op>, answers: seq<Result<Id, SessionError>>, cfg: Config,
                              i: nat)
    requires Run(worlds, ops, answers, cfg) && worlds[0] == NoAccounts(worlds[0].clock)
    requires i < |ops| && ops[i].Verify? && answers[i].Ok?
    ensures exists j: nat, o: Id ::
              && j < i && RequestAt(ops, answers, j, ops[i].phone, ops[i].code, o) && ops[i].otp == Some(o)
              && ops[i].now < ops[j].now + ops[j].ttl
              && WrongCodes(ops, i, o, ops[i].code) < ops[j].maxAttempts
              && forall k: nat :: k < i && TriedOn(ops, k, o) ==> ops[k].code != ops[i].code
  {
    assert Next(worlds[i], ops[i], cfg, worlds[i + 1], answers[i]);
    LoginFound(worlds[i], ops[i], cfg, worlds[i + 1], answers[i]);
    var o := ops[i].otp.value;
    var otp := worlds[i].db.otps[o];
    RunKnown(worlds, ops, answers, cfg, i, o);
    var j: nat :| j < i && OriginAt(ops, answers, j, o, otp);
    forall k: nat | k < i && TriedOn(ops, k, o) ensures ops[k].code != ops[i].code {
      WrongCodesGrow(ops, k, i, o, otp.code);
      assert !SpentAt(ops, k, o, otp.code, otp.maxAttempts);
    }
    assert RequestAt(ops, answers, j, ops[i].phone, ops[i].code, o);
  }

  /** Each requested code logs in at most once. */
  lemma CodeLogsInOnce(worlds: seq<World>, ops: seq<Op>, answers: seq<Result<Id, SessionError>>, cfg: Config, a: nat,
                       b: nat)
    requires Run(worlds, ops, answers, cfg) && worlds[0] == NoAccounts(worlds[0].clock)
    requires a < b < |ops| && ops[a].Verify? && answers[a].Ok? && ops[b].Verify? && answers[b].Ok?
    ensures ops[a].otp != ops[b].otp
  {
    assert Next(worlds[a], ops[a], cfg, worlds[a + 1], answers[a]);
    LoginFound(worlds[a], ops[a], cfg, worlds[a + 1], answers[a]);
    LoginAnswersToRequest(worlds, ops, answers, cfg, a);
    LoginAnswersToRequest(worlds, ops, answers, cfg, b);
    if ops[a].otp == ops[b].otp {
      assert TriedOn(ops, a, ops[b].otp.value);
      var o := ops[a].otp.value;
      var j: nat :| j < a && RequestAt(ops, answers, j, ops[a].phone, ops[a].code, o);
      var i: nat :| i < b && RequestAt(ops, answers, i, ops[b].phone, ops[b].code, o);
      if j < i {
        RequestsInOrder(worlds, ops, answers, cfg, j, i, ops[a].phone, ops[a].code, o, ops[b].phone, ops[b].code, o);
      } else if i < j {
        RequestsInOrder(worlds, ops, answers, cfg, i, j, ops[b].phone, ops[b].code, o, ops[a].phone, ops[a].code, o);
      }
    }
  }

  /** A code is overtaken by every later one for the same number, unless that is spent or no longer lasts. */
  lemma LoginIsNewest(worlds: seq<World>, ops: seq<Op>, answers: seq<Result<Id, SessionError>>, cfg: Config, i: nat,
                      j: nat, o: Id, k: nat, code: string, x: Id)
    requires Run(worlds, ops, answers, cfg) && worlds[0] == NoAccounts(worlds[0].clock)
    requires i < |ops| && ops[i].Verify? && answers[i].Ok? && ops[i].otp == Some(o)
    requires j < k < i && RequestAt(ops, answers, j, ops[i].phone, ops[i].code, o)
    requires RequestAt(ops, answers, k, ops[i].phone, code, x)
    ensures ops[k].now + ops[k].ttl <= ops[i].now || Spent(ops, i, x, code, ops[k].maxAttempts)
  {
    assert Next(worlds[i], ops[i], cfg, worlds[i + 1], answers[i]);
    LoginFound(worlds[i], ops[i], cfg, worlds[i + 1], answers[i]);
    RequestsInOrder(worlds, ops, answers, cfg, j, k, ops[i].phone, ops[i].code, o, ops[i].phone, code, x);
    RowStays(worlds, ops, answers, cfg, j, i, ops[i].phone, ops[i].code, o);
    RowStays(worlds, ops, answers, cfg, k, i, ops[i].phone, code, x);
    RunKnown(worlds, ops, answers, cfg, i, x);
  }

  /** A live token belongs to the user of its device, so the cap on one user's devices spares the tokens of others. */
  lemma CapSpares(known: Tables, u: Id, cap: int, d: Id, ready: Tables, t: Id)
    requires CapApplied(known, u, cap, d, ready) && t in known.tokens && LiveToken(known.tokens[t])
    requires known.tokens[t].user != u && TokenOk(known, t)
    ensures t in ready.tokens && ready.tokens[t] == known.tokens[t]
  {
    assert known.tokens[t].device.Some? ==> known.tokens[t].device.value !in ActiveIds(known.devices, u);
  }

  /** The device a login came from is registered, if it told. */
  ghost predicate DeviceStep(known: Tables, u: Id, device: Option<DeviceInfo>, now: int, cap: int, id: Id, d: Option<Id>,
                             gone: set<Id>, ready: Tables)
  {
    if device.None? then d.None? && ready == known
    else d.Some? && Registered(known, u, device.value, now, cap, id, d.value, gone, ready)
  }

  lemma LoginDevice(known: Tables, u: Id, device: Option<DeviceInfo>, now: int, cap: int, clock: int, id: Id,
                    d: Option<Id>, gone: set<Id>, ready: Tables)
    requires DeviceTableOk(known.devices, cap, clock) && now > clock && id !in known.devices
    requires DeviceStep(known, u, device, now, cap, id, d, gone, ready)
    ensures ready.users == known.users && (device.None? ==> d.None?)
    ensures device.Some? ==>
              && d.Some? && d.value in ready.devices
              && ready.devices[d.value] == Device(u, device.value.fingerprint, now, false)
  {
    if device.Some? {
      RegisteredMeans(known, u, device.value, now, cap, clock, id, d.value, gone, ready);
      var up :| Upserting(known, u, device.value, now, cap, id, d.value, gone, ready, up);
      RegisteredKeys(known, u, device.value, now, cap, id, d.value, gone, ready, up);
    }
  }

  lemma LoginSpares(known: Tables, u: Id, device: Option<DeviceInfo>, now: int, cap: int, clock: int, id: Id,
                    d: Option<Id>, gone: set<Id>, ready: Tables, t: Id)
    requires DeviceTableOk(known.devices, cap, clock) && now > clock && id !in known.devices
    requires DeviceStep(known, u, device, now, cap, id, d, gone, ready)
    requires t in known.tokens && LiveToken(known.tokens[t]) && known.tokens[t].user != u && TokenOk(known, t)
    ensures t in ready.tokens && ready.tokens[t] == known.tokens[t]
  {
    if device.Some? {
      RegisteredMeans(known, u, device.value, now, cap, clock, id, d.value, gone, ready);
      CapSpares(known, u, cap, d.value, ready, t);
    }
  }

  /** The token is bound to the device the login came from, which is signed in as of now. */
  predicate BoundTo(db: Tables, token: Token, device: Option<DeviceInfo>, now: int) {
    if device.None? then token.device.None?
    else
      && token.device.Some? && token.device.value in db.devices
      && db.devices[token.device.value] == Device(token.user, device.value.fingerprint, now, false)
  }

  /** The account a login ends up with is the only one with its phone number. */
  lemma OneAccount(db: Tables, phone: string, id: Id, u: Id, known: Tables)
    requires (forall a, b :: PhonesOk(db.users, a, b)) && Account(db, phone, id, u, known)
    ensures HasPhone(known, u, phone) && known.tokens == db.tokens && known.devices == db.devices
    ensures forall x :: x in db.users && db.users[x].phone == phone ==> x == u
  {
    forall x | x in db.users && db.users[x].phone == phone ensures x == u {
      assert HasPhone(db, x, phone) && PhonesOk(db.users, x, u);
    }
  }

  /** The tables after a login: the new token, its user, its device, and the sessions of others. */
  predicate LoggedIn(db: Tables, db': Tables, t: Id, phone: string, device: Option<DeviceInfo>, now: int,
                     expires: int)
  {
    && t !in db.tokens && t in db'.tokens
    && var token := db'.tokens[t];
    && !token.used && !token.revoked && token.family == t && token.expires == expires
    && BoundTo(db', token, device, now)
    && token.user in db'.users && db'.users[token.user].phone == phone
    && (forall u :: u in db.users && db.users[u].phone == phone ==> u == token.user)
    && forall x :: x in db.tokens && LiveToken(db.tokens[x]) && db.tokens[x].user != token.user ==>
                     x in db'.tokens && db'.tokens[x] == db.tokens[x]
  }

  lemma LoginLogsIn(db: Tables, op: Op, cfg: Config, clock: int, id: Id, db': Tables, r: Result<Id, SessionError>,
                    u: Id, known: Tables, d: Option<Id>, gone: set<Id>, ready: Tables)
    requires Inv(db, cfg.maxActiveDevices, clock, id) && op.Verify? && op.now > clock && r.Ok?
    requires LoggingIn(db, op.phone, op.device, op.now, cfg, id, db', r, u, known, d, gone, ready)
    ensures r == Ok(id) && LoggedIn(db, db', id, op.phone, op.device, op.now, op.now + cfg.refreshTtl)
  {
    IdsAbove(db, id);
    OneAccount(db, op.phone, id + 2, u, known);
    AccountKeeps(db, op.phone, id + 2, u, known, cfg.maxActiveDevices, clock, id);
    LoginDevice(known, u, op.device, op.now, cfg.maxActiveDevices, clock, id + 1, d, gone, ready);
    forall x | x in db.tokens && LiveToken(db.tokens[x]) && db.tokens[x].user != u
      ensures x in db'.tokens && db'.tokens[x] == db.tokens[x]
    {
      assert TokenOk(known, x);
      LoginSpares(known, u, op.device, op.now, cfg.maxActiveDevices, clock, id + 1, d, gone, ready, x);
    }
  }

  lemma CodeLogsIn(db: Tables, op: Op, cfg: Config, clock: int, id: Id, db': Tables, r: Result<Id, SessionError>)
    requires Inv(db, cfg.maxActiveDevices, clock, id) && op.Verify? && op.now > clock && r.Ok?
    requires LogsIn(db, op.phone, op.device, op.now, cfg, id, db', r)
    ensures r == Ok(id) && LoggedIn(db, db', id, op.phone, op.device, op.now, op.now + cfg.refreshTtl)
  {
    var u, known, d, gone, ready :| LoggingIn(db, op.phone, op.device, op.now, cfg, id, db', r, u, known, d, gone,
                                              ready);
    LoginLogsIn(db, op, cfg, clock, id, db', r, u, known, d, gone, ready);
  }

  lemma VerifyLogsIn(w: World, op: Op, cfg: Config, w': World, r: Result<Id, SessionError>)
    requires WorldOk(w, cfg) && op.Verify? && r.Ok? && Next(w, op, cfg, w', r)
    ensures LoggedIn(w.db, w'.db, r.value, op.phone, op.device, op.now, op.now + cfg.refreshTtl)
  {
    OtpUsesKeep(w.db, op.otp.value, cfg.maxActiveDevices, w.clock, w.nextId);
    CodeLogsIn(OtpConsumed(w.db, op.otp.value), op, cfg, w.clock, w.nextId, w'.db, r);
  }

  /** The token of a login is live, lasts as long as configured, is bound to the device the login came from, and belongs
      to the one account of the phone number, an old one if there was one. Nobody else's sessions end. */
  lemma LoginToken(worlds: seq<World>, ops: seq<Op>, answers: seq<Result<Id, SessionError>>, cfg: Config, i: nat)
    requires Run(worlds, ops, answers, cfg) && worlds[0] == NoAccounts(worlds[0].clock)
    requires i < |ops| && ops[i].Verify? && answers[i].Ok?
    ensures LoggedIn(worlds[i].db, worlds[i + 1].db, answers[i].value, ops[i].phone, ops[i].device, ops[i].now,
                     ops[i].now + cfg.refreshTtl)
  {
    RunKeeps(worlds, ops, answers, cfg, i);
    VerifyLogsIn(worlds[i], ops[i], cfg, worlds[i + 1], answers[i]);
  }

  lemma OthersOlder(worlds: seq<World>, ops: seq<Op>, answers: seq<Result<Id, SessionError>>, cfg: Config, j: nat,
                    i: nat, phone: string, code: string, o: Id, x: Id)
    requires Run(worlds, ops, answers, cfg) && worlds[0] == NoAccounts(worlds[0].clock)
    requires j < i < |ops| && RequestAt(ops, answers, j, phone, code, o)
    requires forall k: nat, c, y: Id :: j < k < i ==> !RequestAt(ops, answers, k, phone, c, y)
    requires x in worlds[i].db.otps && worlds[i].db.otps[x].phone == phone && x != o
    ensures o in worlds[i].db.otps && worlds[i].db.otps[x].created < worlds[i].db.otps[o].created
  {
    RowStays(worlds, ops, answers, cfg, j, i, phone, code, o);
    RunKnown(worlds, ops, answers, cfg, i, x);
    var otp := worlds[i].db.otps[x];
    var k: nat :| k < i && OriginAt(ops, answers, k, x, otp);
    assert RequestAt(ops, answers, k, phone, otp.code, x);
    RequestsInOrder(worlds, ops, answers, cfg, k, j, phone, otp.code, x, phone, code, o);
  }

  lemma NextLogsIn(w: World, op: Op, cfg: Config, w': World, r: Result<Id, SessionError>, o: Id)
    requires op.Verify? && Next(w, op, cfg, w', r) && op.otp == Some(o) && o in w.db.otps
    requires w.db.otps[o].attempts < w.db.otps[o].maxAttempts && w.db.otps[o].code == op.code
    requires forall u :: u in w.db.users && w.db.users[u].phone == op.phone ==> w.db.users[u].status == STATUS_ACTIVE
    ensures r.Ok?
  {
    var db := OtpConsumed(w.db, o);
    var u, known, d, gone, ready :| LoggingIn(db, op.phone, op.device, op.now, cfg, w.nextId, w'.db, r, u, known, d,
                                              gone, ready);
    assert IsActive(known.users[u]);
  }

  /** The newest code of a number, while it lasts and before it is spent or tried too often, logs its owner in, unless
      the account is not active. */
  lemma RightCodeLogsIn(worlds: seq<World>, ops: seq<Op>, answers: seq<Result<Id, SessionError>>, cfg: Config, j: nat,
                        i: nat, phone: string, code: string, o: Id)
    requires Run(worlds, ops, answers, cfg) && worlds[0] == NoAccounts(worlds[0].clock)
    requires j < i < |ops| && RequestAt(ops, answers, j, phone, code, o)
    requires ops[i].Verify? && ops[i].phone == phone && ops[i].code == code && ops[i].now < ops[j].now + ops[j].ttl
    requires forall k: nat, c, x: Id :: j < k < i ==> !RequestAt(ops, answers, k, phone, c, x)
    requires WrongCodes(ops, i, o, code) < ops[j].maxAttempts && !Spent(ops, i, o, code, ops[j].maxAttempts)
    requires forall u :: u in worlds[i].db.users && worlds[i].db.users[u].phone == phone ==>
               worlds[i].db.users[u].status == STATUS_ACTIVE
    ensures answers[i].Ok? && ops[i].otp == Some(o)
  {
    var w, op := worlds[i], ops[i];
    assert Next(w, op, cfg, worlds[i + 1], answers[i]);
    RowStays(worlds, ops, answers, cfg, j, i, phone, code, o);
    RunKnown(worlds, ops, answers, cfg, i, o);
    assert OtpUsable(w.db, o, phone, op.now);
    if op.otp.Some? && op.otp.value != o {
      OthersOlder(worlds, ops, answers, cfg, j, i, phone, code, o, op.otp.value);
    }
    NextLogsIn(w, op, cfg, worlds[i + 1], answers[i], o);
  }
}
