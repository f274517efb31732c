/**
  Accounts, devices and refresh tokens: what each identity operation does to the tables, and the invariants that
  link a token to its family, its device and its user.
 */
module Sessions {
  import opened Results

  type Id = nat

  const STATUS_ACTIVE := "active"

  datatype User = User(phone: string, status: string)
  datatype DeviceInfo = DeviceInfo(fingerprint: Option<string>)
  datatype Device = Device(user: Id, fingerprint: Option<string>, lastActive: int, revoked: bool)
  /** The row id stands for the token's plaintext and its hash. */
  datatype Token = Token(user: Id, device: Option<Id>, family: Id, expires: int, used: bool, revoked: bool,
                         replacedBy: Option<Id>)
  datatype Otp = Otp(phone: string, code: string, created: int, expires: int, attempts: nat, maxAttempts: nat,
                     consumed: bool)

  datatype Tables = Tables(users: map<Id, User>, devices: map<Id, Device>, tokens: map<Id, Token>, otps: map<Id, Otp>)

  datatype Config = Config(maxActiveDevices: int, refreshTtl: int)

  /** withDefaults: an unset cap becomes five, a negative one switches the cap off. */
  function WithDefaults(c: Config): Config {
    if c.maxActiveDevices == 0 then c.(maxActiveDevices := 5) else c
  }

  datatype SessionError = InvalidOtp | OtpAttempts | Suspended | TokenInvalid | TokenReplayed | NotFound

  predicate IsActive(u: User) {
    u.status == STATUS_ACTIVE
  }

  predicate LiveToken(t: Token) {
    !t.used && !t.revoked
  }

  // ---------- what the statements do ----------

  function ActiveIds(devices: map<Id, Device>, user: Id): set<Id> {
    set d | d in devices && devices[d].user == user && !devices[d].revoked
  }

  /** RevokeRefreshTokensForDevice, for each device of a set. */
  function RevokeOnDevices(tokens: map<Id, Token>, gone: set<Id>): map<Id, Token> {
    map t | t in tokens ::
      if tokens[t].device.Some? && tokens[t].device.value in gone then tokens[t].(revoked := true) else tokens[t]
  }

  function RevokeDevices(devices: map<Id, Device>, gone: set<Id>): map<Id, Device> {
    map d | d in devices :: if d in gone then devices[d].(revoked := true) else devices[d]
  }

  function RevokeFamily(tokens: map<Id, Token>, family: Id): map<Id, Token> {
    map t | t in tokens :: if tokens[t].family == family then tokens[t].(revoked := true) else tokens[t]
  }

  function RevokeForUser(tokens: map<Id, Token>, user: Id): map<Id, Token> {
    map t | t in tokens :: if tokens[t].user == user then tokens[t].(revoked := true) else tokens[t]
  }

  /** Devices signed out together with their tokens. */
  function SignedOut(db: Tables, gone: set<Id>): Tables {
    db.(devices := RevokeDevices(db.devices, gone), tokens := RevokeOnDevices(db.tokens, gone))
  }

  predicate Matches(devices: map<Id, Device>, d: Id, user: Id, info: DeviceInfo) {
    d in devices && devices[d].user == user && info.fingerprint.Some? && devices[d].fingerprint == info.fingerprint
  }

  /** UpsertDevice: a known fingerprint comes back to life, an unknown device gets a row of its own. */
  ghost predicate Upserted(db: Tables, user: Id, info: DeviceInfo, now: int, id: Id, d: Id, db': Tables) {
    if exists x :: Matches(db.devices, x, user, info) then
      Matches(db.devices, d, user, info)
      && db' == db.(devices := db.devices[d := db.devices[d].(revoked := false, lastActive := now)])
    else
      d == id && db' == db.(devices := db.devices[id := Device(user, info.fingerprint, now, false)])
  }

  /** The least recently active devices of a user: each of them was idle longer than each device kept. */
  predicate LeastRecent(devices: map<Id, Device>, user: Id, gone: set<Id>) {
    && gone <= ActiveIds(devices, user)
    && forall g, k :: g in gone && k in ActiveIds(devices, user) - gone ==>
                        devices[g].lastActive < devices[k].lastActive
  }

  /** How many devices must go for the cap to be met; no cap, none. */
  predicate GoneCount(devices: map<Id, Device>, user: Id, cap: int, gone: set<Id>) {
    var n := |ActiveIds(devices, user)|;
    |gone| == (if cap > 0 && n > cap then n - cap else 0)
  }

  ghost predicate Upserting(db: Tables, user: Id, info: DeviceInfo, now: int, cap: int, id: Id, d: Id, gone: set<Id>,
                            db': Tables, up: Tables)
  {
    && Upserted(db, user, info, now, id, d, up)
    && LeastRecent(up.devices, user, gone)
    && db' == SignedOut(up, gone)
    && GoneCount(up.devices, user, cap, gone)
  }

  /** registerDevice: the upsert, then the least recently active devices signed out until the cap is met. */
  ghost predicate Registered(db: Tables, user: Id, info: DeviceInfo, now: int, cap: int, id: Id, d: Id, gone: set<Id>,
                             db': Tables)
  {
    exists up :: Upserting(db, user, info, now, cap, id, d, gone, db', up)
  }

  /** CreateRefreshToken: without a family the token starts its own. */
  function Issued(db: Tables, user: Id, device: Option<Id>, family: Option<Id>, expires: int, id: Id): Tables {
    var root := if family.Some? then family.value else id;
    db.(tokens := db.tokens[id := Token(user, device, root, expires, false, false, None)])
  }

  /** MarkRefreshTokenUsed. */
  function Replaced(db: Tables, t: Id, next: Id): Tables
    requires t in db.tokens
  {
    db.(tokens := db.tokens[t := db.tokens[t].(used := true, revoked := true, replacedBy := Some(next))])
  }

  // ---------- the operations ----------

  /** What RefreshToken does: the tables and the answer, either an error or the row of the new token. */
  ghost predicate Refreshes(db: Tables, t: Id, now: int, ttl: int, id: Id, db': Tables, r: Result<Id, SessionError>) {
    if t !in db.tokens then r == Err(TokenInvalid) && db' == db
    else
      var token := db.tokens[t];
      if token.used || token.revoked then
        r == Err(TokenReplayed) && db' == db.(tokens := RevokeFamily(db.tokens, token.family))
      else if now > token.expires then r == Err(TokenInvalid) && db' == db
      else if token.user !in db.users then r == Err(NotFound) && db' == db
      else if !IsActive(db.users[token.user]) then
        r == Err(Suspended) && db' == db.(tokens := RevokeForUser(db.tokens, token.user))
      else
        r == Ok(id) && db' == Replaced(Issued(db, token.user, token.device, Some(token.family), now + ttl, id), t, id)
  }

  predicate OtpUsable(db: Tables, o: Id, phone: string, now: int) {
    o in db.otps && db.otps[o].phone == phone && !db.otps[o].consumed && db.otps[o].expires > now
  }

  /** GetLatestActiveOTP. */
  ghost predicate LatestOtp(db: Tables, phone: string, now: int, o: Option<Id>) {
    if o.None? then forall x :: !OtpUsable(db, x, phone, now)
    else OtpUsable(db, o.value, phone, now)
         && forall x :: OtpUsable(db, x, phone, now) ==> db.otps[x].created <= db.otps[o.value].created
  }

  function OtpTried(db: Tables, o: Id): Tables
    requires o in db.otps
  {
    db.(otps := db.otps[o := db.otps[o].(attempts := db.otps[o].attempts + 1)])
  }

  function OtpConsumed(db: Tables, o: Id): Tables
    requires o in db.otps
  {
    db.(otps := db.otps[o := db.otps[o].(consumed := true)])
  }

  predicate HasPhone(db: Tables, u: Id, phone: string) {
    u in db.users && db.users[u].phone == phone
  }

  /** The account a verified phone number logs in to, created on first use. */
  ghost predicate Account(db: Tables, phone: string, id: Id, u: Id, db': Tables) {
    if exists x :: HasPhone(db, x, phone) then HasPhone(db, u, phone) && db' == db
    else u == id && db' == db.(users := db.users[id := User(phone, STATUS_ACTIVE)])
  }

  ghost predicate LoggingIn(db: Tables, phone: string, device: Option<DeviceInfo>, now: int, cfg: Config, id: Id,
                            db': Tables, r: Result<Id, SessionError>, u: Id, known: Tables, d: Option<Id>,
                            gone: set<Id>, ready: Tables)
  {
    && Account(db, phone, id + 2, u, known) && u in known.users
    && if !IsActive(known.users[u]) then r == Err(Suspended) && db' == known
       else
         && (if device.None? then d.None? && ready == known
             else d.Some?
                  && Registered(known, u, device.value, now, cfg.maxActiveDevices, id + 1, d.value, gone, ready))
         && r == Ok(id) && db' == Issued(ready, u, d, None, now + cfg.refreshTtl, id)
  }

  /** What a login does once the code is verified. Fresh rows take the ids `id` (token), `id + 1` (device) and
      `id + 2` (user). */
  ghost predicate LogsIn(db: Tables, phone: string, device: Option<DeviceInfo>, now: int, cfg: Config, id: Id,
                         db': Tables, r: Result<Id, SessionError>)
  {
    exists u, known, d, gone, ready :: LoggingIn(db, phone, device, now, cfg, id, db', r, u, known, d, gone, ready)
  }

  /** What VerifyOTP does. */
  ghost predicate Verifies(db: Tables, phone: string, code: string, device: Option<DeviceInfo>, now: int, cfg: Config,
                           id: Id, o: Option<Id>, db': Tables, r: Result<Id, SessionError>)
  {
    && LatestOtp(db, phone, now, o)
    && if o.None? then r == Err(InvalidOtp) && db' == db
       else if db.otps[o.value].attempts >= db.otps[o.value].maxAttempts then r == Err(OtpAttempts) && db' == db
       else if db.otps[o.value].code != code then r == Err(InvalidOtp) && db' == OtpTried(db, o.value)
       else LogsIn(OtpConsumed(db, o.value), phone, device, now, cfg, id, db', r)
  }

  function StatusSet(db: Tables, u: Id, status: string): Tables
    requires u in db.users
  {
    var tokens := if status == STATUS_ACTIVE then db.tokens else RevokeForUser(db.tokens, u);
    db.(users := db.users[u := db.users[u].(status := status)], tokens := tokens)
  }

  /** RevokeDevice: the device row only for its owner, the tokens of the device in any case. */
  function DeviceRevoked(db: Tables, d: Id, user: Id): Tables {
    db.(devices := if d in db.devices && db.devices[d].user == user
                   then db.devices[d := db.devices[d].(revoked := true)]
                   else db.devices,
        tokens := RevokeOnDevices(db.tokens, {d}))
  }

  function LoggedOut(db: Tables, t: Id): Tables {
    if t in db.tokens then db.(tokens := db.tokens[t := db.tokens[t].(revoked := true)]) else db
  }

  // ---------- invariants ----------

  /** The three links of one token: to its family, to its user and to its device. */
  predicate TokenOk(db: Tables, t: Id) {
    t in db.tokens ==>
      var token := db.tokens[t];
      && token.family <= t && token.user in db.users
      && (token.used ==> token.revoked && token.replacedBy.Some?)
      && (token.replacedBy.Some? ==>
            && token.used && token.replacedBy.value in db.tokens && t < token.replacedBy.value
            && db.tokens[token.replacedBy.value].family == token.family
            && db.tokens[token.replacedBy.value].user == token.user
            && db.tokens[token.replacedBy.value].device == token.device)
      && (LiveToken(token) ==> IsActive(db.users[token.user]))
      && (LiveToken(token) && token.device.Some? ==>
            && token.device.value in db.devices && !db.devices[token.device.value].revoked
            && db.devices[token.device.value].user == token.user)
  }

  /** Two tokens of one family: at most one of them is unused, and none lies between another and its replacement. */
  predicate FamilyOk(tokens: map<Id, Token>, a: Id, b: Id) {
    a in tokens && b in tokens && tokens[a].family == tokens[b].family ==>
      && (!tokens[a].used && !tokens[b].used ==> a == b)
      && (tokens[a].replacedBy.Some? ==> !(a < b < tokens[a].replacedBy.value))
  }

  /** Two devices of one user: never the same fingerprint, never last active at the same instant. */
  predicate DevicesOk(devices: map<Id, Device>, a: Id, b: Id) {
    a in devices && b in devices && a != b && devices[a].user == devices[b].user ==>
      && devices[a].lastActive != devices[b].lastActive
      && (devices[a].fingerprint.Some? ==> devices[a].fingerprint != devices[b].fingerprint)
  }

  predicate CapOk(devices: map<Id, Device>, cap: int, u: Id) {
    cap > 0 ==> |ActiveIds(devices, u)| <= cap
  }

  predicate PhonesOk(users: map<Id, User>, a: Id, b: Id) {
    a in users && b in users && users[a].phone == users[b].phone ==> a == b
  }

  predicate OtpOk(otps: map<Id, Otp>, o: Id) {
    o in otps ==> otps[o].attempts <= otps[o].maxAttempts
  }

  predicate Below(db: Tables, n: nat, i: Id) {
    (i in db.users || i in db.devices || i in db.tokens || i in db.otps) ==> i < n
  }

  predicate Earlier(devices: map<Id, Device>, clock: int, d: Id) {
    d in devices ==> devices[d].lastActive <= clock
  }

  ghost predicate TokensOk(db: Tables) {
    (forall t :: TokenOk(db, t)) && (forall a, b :: FamilyOk(db.tokens, a, b))
  }

  ghost predicate DeviceTableOk(devices: map<Id, Device>, cap: int, clock: int) {
    && (forall a, b :: DevicesOk(devices, a, b))
    && (forall u :: CapOk(devices, cap, u))
    && (forall d :: Earlier(devices, clock, d))
  }

  ghost predicate Inv(db: Tables, cap: int, clock: int, n: nat) {
    && TokensOk(db)
    && DeviceTableOk(db.devices, cap, clock)
    && (forall a, b :: PhonesOk(db.users, a, b))
    && (forall o :: OtpOk(db.otps, o))
    && (forall i :: Below(db, n, i))
  }
}
