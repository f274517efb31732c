/**
  The renewal sweep: which subscriptions it picks up and what one sweep does to each of them. Sweeps run one at a
  time. Times are microseconds, as PostgreSQL keeps them.
 */
module Renewals {
  import opened FiniteSets
  import opened Results
  import opened CommerceModel
  import opened CommerceTx
  import opened CommerceInvariants
  import opened Runs
  import opened CommerceService

  /** All three in hours. */
  datatype Window = Window(lookahead: nat, grace: nat, retryAfter: nat)

  const DEFAULT_WINDOW := Window(1, 72, 6)

  function Hours(n: int): int {
    n * MICROS_PER_HOUR
  }

  /** The WHERE clause of ListSubscriptionsDueForRenewal. */
  predicate DueRow(sub: Subscription, w: Window, now: int) {
    && sub.autoRenew
    && (sub.status.SubActive? || sub.status.SubExpired?)
    && sub.expiresAt <= now + Hours(w.lookahead)
    && sub.expiresAt > now - Hours(w.grace)
    && (sub.lastAttempt.None? || sub.lastAttempt.value < now - Hours(w.retryAfter))
  }

  predicate Due(subs: map<Id, Subscription>, s: Id, w: Window, now: int) {
    s in subs && DueRow(subs[s], w, now)
  }

  predicate Distinct(ids: seq<Id>) {
    forall i, j :: 0 <= i < j < |ids| ==> ids[i] != ids[j]
  }

  predicate Known(subs: map<Id, Subscription>, ids: seq<Id>) {
    forall i :: 0 <= i < |ids| ==> ids[i] in subs
  }

  ghost predicate Listing(subs: map<Id, Subscription>, due: seq<Id>, w: Window, now: int) {
    && Distinct(due) && Known(subs, due)
    && (forall s :: s in due <==> Due(subs, s, w, now))
  }

  /** ORDER BY expires_at. */
  predicate ByExpiry(subs: map<Id, Subscription>, due: seq<Id>) {
    && Known(subs, due)
    && (forall i, j :: 0 <= i < j < |due| ==> subs[due[i]].expiresAt <= subs[due[j]].expiresAt)
  }

  // ---------- one renewal ----------

  /** renewOne: NotFound when the plan is gone, otherwise one charge, one extension and the reactivation. */
  function RenewOne(db: Db, s: Id, base: Id): Result<Db, TxError>
    requires s in db.subs
  {
    if db.subs[s].plan !in db.plans then Err(NotFound) else
      var p := db.plans[db.subs[s].plan];
      Atomic(db, ExtendJob(s, p.price, p.periodDays, true), base)
  }

  /** The wallet covers the plan's price at this moment. */
  predicate Affordable(db: Db, s: Id) {
    s in db.subs && db.subs[s].plan in db.plans
    && (db.plans[db.subs[s].plan].price == 0 || Balance(db.ledger, db.subs[s].user) >= db.plans[db.subs[s].plan].price)
  }

  function Marked(sub: Subscription, now: int, succeeded: bool): Subscription {
    sub.(lastAttempt := Some(now), failures := if succeeded then 0 else sub.failures + 1)
  }

  /** The row a try leaves behind: extended, reactivated and marked, or only marked. */
  function Outcome(db: Db, sub: Subscription, renewed: bool, now: int): Subscription
    requires renewed ==> sub.plan in db.plans
  {
    if renewed then Marked(Extended(sub, db.plans[sub.plan].price, db.plans[sub.plan].periodDays, true), now, true)
    else Marked(sub, now, false)
  }

  function RenewalRows(db: Db, s: Id, base: Id): seq<LedgerRow>
    requires s in db.subs
  {
    if Affordable(db, s) && db.plans[db.subs[s].plan].price > 0 then
      [LedgerRow(base + 1, db.subs[s].user, Debit, db.plans[db.subs[s].plan].price, SubscriptionRef(s))]
    else []
  }

  /** One turn of the sweep's loop: the attempt, then its marker, whatever came of it. */
  function Attempted(db: Db, s: Id, now: int, base: Id): Db
    requires s in db.subs
  {
    db.(ledger := db.ledger + RenewalRows(db, s, base),
        subs := db.subs[s := Outcome(db, db.subs[s], Affordable(db, s), now)])
  }

  /** A renewal succeeds exactly when the plan exists and the wallet covers its price. */
  lemma RenewedWhenAffordable(db: Db, s: Id, base: Id)
    requires s in db.subs
    ensures RenewOne(db, s, base).Ok? <==> Affordable(db, s)
    ensures RenewOne(db, s, base).Err? ==>
              RenewOne(db, s, base).error == (if db.subs[s].plan in db.plans then InsufficientFunds else NotFound)
  {}

  /** A turn is the renewal transaction, kept only when it succeeded, and then the attempt marker. */
  lemma TurnIsTransaction(db: Db, s: Id, now: int, base: Id)
    requires s in db.subs
    ensures var r := RenewOne(db, s, base);
            var d := if r.Ok? then r.value else db;
            && OpEnabled(d, MarkAttempt(s, now, r.Ok?))
            && Attempted(db, s, now, base) == OpEffect(d, MarkAttempt(s, now, r.Ok?), base)
  {
    RenewedWhenAffordable(db, s, base);
    assert db.ledger + [] == db.ledger;
    if Affordable(db, s) {
      var p := db.plans[db.subs[s].plan];
      var sub := Extended(db.subs[s], p.price, p.periodDays, true);
      assert db.subs[s := sub][s := Marked(sub, now, true)] == db.subs[s := Marked(sub, now, true)];
    }
  }

  /** A try that fails, for funds or for a missing plan, changes nothing but the attempt marker and its counter;
      one that succeeds takes exactly the price from the payer. */
  lemma AttemptMeans(db: Db, s: Id, now: int, base: Id)
    requires s in db.subs
    ensures var d, sub := Attempted(db, s, now, base), db.subs[s];
            if Affordable(db, s) then
              && sub.plan in db.plans
              && Balance(d.ledger, sub.user) == Balance(db.ledger, sub.user) - db.plans[sub.plan].price
              && var p, next := db.plans[sub.plan], d.subs[s];
              && next.expiresAt == sub.expiresAt + p.periodDays * MICROS_PER_DAY && next.hoursConsumed == 0.0
              && next.lastAttempt == Some(now) && next.failures == 0
              && next.status == (if sub.status.SubExpired? then SubActive else sub.status)
              && next.plan == sub.plan && next.user == sub.user && next.autoRenew == sub.autoRenew
            else d == db.(subs := db.subs[s := sub.(lastAttempt := Some(now), failures := sub.failures + 1)])
  {
    var sub := db.subs[s];
    assert db.ledger + [] == db.ledger;
    if Affordable(db, s) && db.plans[sub.plan].price > 0 {
      LedgerSnoc(db.ledger, RenewalRows(db, s, base)[0]);
    }
  }

  /** The loop of the sweep, `n` turns in. */
  function AttemptAll(db: Db, due: seq<Id>, n: nat, now: int, base: Id): Db
    requires n <= |due| && Known(db.subs, due)
    ensures AttemptAll(db, due, n, now, base).subs.Keys == db.subs.Keys
  {
    if n == 0 then db else
      var d := AttemptAll(db, due, n - 1, now, base);
      Attempted(d, due[n - 1], now, base + 2 * (n - 1))
  }

  function ExpiredRow(sub: Subscription, now: int): Subscription {
    if sub.status.SubActive? && sub.expiresAt <= now then sub.(status := SubExpired) else sub
  }

  /** ExpireDueSubscriptions. */
  function ExpireDue(db: Db, now: int): Db {
    db.(subs := map s | s in db.subs :: ExpiredRow(db.subs[s], now))
  }

  function Swept(db: Db, due: seq<Id>, now: int, base: Id): Db
    requires Known(db.subs, due)
  {
    ExpireDue(AttemptAll(db, due, |due|, now, base), now)
  }

  // ---------- what a sweep does to one subscription ----------

  predicate Absent(due: seq<Id>, m: nat, n: nat, s: Id) {
    forall i :: m <= i < n && i < |due| ==> due[i] != s
  }

  /** A turn leaves alone every row but its own. */
  lemma TurnLeaves(db: Db, due: seq<Id>, n: nat, now: int, base: Id, s: Id)
    requires n < |due| && Known(db.subs, due) && s in db.subs && due[n] != s
    ensures AttemptAll(db, due, n + 1, now, base).subs[s] == AttemptAll(db, due, n, now, base).subs[s]
  {}

  lemma {:induction false} Constant<T>(rows: seq<T>, m: nat, n: nat)
    requires m <= n < |rows| && forall i :: m <= i < n ==> rows[i] == rows[i + 1]
    ensures rows[n] == rows[m]
    decreases n
  {
    if m < n {
      Constant(rows, m, n - 1);
    }
  }

  /** What row `s` is after each number of turns up to `n`. */
  ghost function RowHistory(db: Db, due: seq<Id>, n: nat, now: int, base: Id, s: Id): (rows: seq<Subscription>)
    requires n <= |due| && Known(db.subs, due) && s in db.subs
    ensures |rows| == n + 1 && forall i :: 0 <= i <= n ==> rows[i] == AttemptAll(db, due, i, now, base).subs[s]
  {
    seq(n + 1, i requires 0 <= i <= n => AttemptAll(db, due, i, now, base).subs[s])
  }

  /** The turns from `m` to `n` leave alone a row they do not name. */
  lemma Untouched(db: Db, due: seq<Id>, m: nat, n: nat, now: int, base: Id, s: Id)
    requires m <= n <= |due| && Known(db.subs, due) && s in db.subs && Absent(due, m, n, s)
    ensures AttemptAll(db, due, n, now, base).subs[s] == AttemptAll(db, due, m, now, base).subs[s]
  {
    var rows := RowHistory(db, due, n, now, base, s);
    forall i | m <= i < n ensures rows[i] == rows[i + 1] {
      TurnLeaves(db, due, i, now, base, s);
    }
    Constant(rows, m, n);
  }

  lemma {:induction false} PlansStay(db: Db, due: seq<Id>, n: nat, now: int, base: Id)
    requires n <= |due| && Known(db.subs, due)
    ensures AttemptAll(db, due, n, now, base).plans == db.plans
    decreases n
  {
    if n > 0 {
      PlansStay(db, due, n - 1, now, base);
    }
  }

  /** After `n` turns, row `s` is what its try on the tables `before` made of it. */
  predicate Tried(db: Db, before: Db, after: Db, s: Id, now: int) {
    s in db.subs && s in after.subs && (Affordable(before, s) ==> db.subs[s].plan in db.plans)
    && after.subs[s] == Outcome(db, db.subs[s], Affordable(before, s), now)
  }

  lemma TriedAtTurn(db: Db, due: seq<Id>, k: nat, now: int, base: Id)
    requires k < |due| && Distinct(due) && Known(db.subs, due)
    ensures Tried(db, AttemptAll(db, due, k, now, base), AttemptAll(db, due, k + 1, now, base), due[k], now)
  {
    Untouched(db, due, 0, k, now, base, due[k]);
    PlansStay(db, due, k, now, base);
  }

  /** Each listed subscription is tried once, in its turn, against the wallet as the earlier turns left it. */
  lemma TriedOnce(db: Db, due: seq<Id>, k: nat, now: int, base: Id)
    requires k < |due| && Distinct(due) && Known(db.subs, due)
    ensures Tried(db, AttemptAll(db, due, k, now, base), AttemptAll(db, due, |due|, now, base), due[k], now)
  {
    TriedAtTurn(db, due, k, now, base);
    Untouched(db, due, k + 1, |due|, now, base, due[k]);
  }

  /** What one sweep may do to one subscription: a due one is tried, and extended or only marked; any other is left
      alone; and whatever is then active and over is expired. */
  ghost predicate SweptRow(db: Db, w: Window, now: int, sub: Subscription, sub': Subscription) {
    if DueRow(sub, w, now) then
      || (sub.plan in db.plans && sub' == ExpiredRow(Outcome(db, sub, true, now), now))
      || sub' == ExpiredRow(Outcome(db, sub, false, now), now)
    else sub' == ExpiredRow(sub, now)
  }

  lemma SweepRow(db: Db, due: seq<Id>, w: Window, now: int, base: Id, s: Id)
    requires Listing(db.subs, due, w, now) && s in db.subs
    ensures s in Swept(db, due, now, base).subs && SweptRow(db, w, now, db.subs[s], Swept(db, due, now, base).subs[s])
  {
    if s in due {
      var k :| 0 <= k < |due| && due[k] == s;
      TriedOnce(db, due, k, now, base);
    } else {
      Untouched(db, due, 0, |due|, now, base, s);
    }
  }

  /** A turn charges nothing to any subscription but its own. */
  lemma TurnSpares(db: Db, due: seq<Id>, n: nat, now: int, base: Id, s: Id)
    requires n < |due| && Known(db.subs, due) && due[n] != s
    ensures Amounts(AttemptAll(db, due, n + 1, now, base).ledger, SubscriptionRef(s)) ==
            Amounts(AttemptAll(db, due, n, now, base).ledger, SubscriptionRef(s))
  {
    var d := AttemptAll(db, due, n, now, base);
    var rows := RenewalRows(d, due[n], base + 2 * n);
    if rows == [] {
      assert d.ledger + rows == d.ledger;
    } else {
      LedgerSnoc(d.ledger, rows[0]);
    }
  }

  /** What has been charged to subscription `s` after each number of turns up to `n`. */
  ghost function ChargeHistory(db: Db, due: seq<Id>, n: nat, now: int, base: Id, s: Id): (rows: seq<seq<int>>)
    requires n <= |due| && Known(db.subs, due)
    ensures |rows| == n + 1
    ensures forall i :: 0 <= i <= n ==> rows[i] == Amounts(AttemptAll(db, due, i, now, base).ledger, SubscriptionRef(s))
  {
    seq(n + 1, i requires 0 <= i <= n => Amounts(AttemptAll(db, due, i, now, base).ledger, SubscriptionRef(s)))
  }

  /** A sweep leaves alone what it does not list, but for expiring it when it is over: no charge, no marker, no
      extension. */
  lemma SweepSpares(db: Db, due: seq<Id>, now: int, base: Id, s: Id)
    requires Known(db.subs, due) && s in db.subs && s !in due
    ensures var after, sub := Swept(db, due, now, base), db.subs[s];
            && s in after.subs
            && after.subs[s] ==
               (if sub.status.SubActive? && sub.expiresAt <= now then sub.(status := SubExpired) else sub)
            && Amounts(after.ledger, SubscriptionRef(s)) == Amounts(db.ledger, SubscriptionRef(s))
  {
    Untouched(db, due, 0, |due|, now, base, s);
    var rows := ChargeHistory(db, due, |due|, now, base, s);
    forall i | 0 <= i < |due| ensures rows[i] == rows[i + 1] {
      TurnSpares(db, due, i, now, base, s);
    }
    Constant(rows, 0, |due|);
  }

  /** After a sweep nothing is both active and over. */
  lemma NothingOverdue(db: Db, due: seq<Id>, w: Window, now: int, base: Id, s: Id)
    requires Listing(db.subs, due, w, now) && s in Swept(db, due, now, base).subs
    ensures var sub := Swept(db, due, now, base).subs[s]; !(sub.status.SubActive? && sub.expiresAt <= now)
  {}

  /** A renewed subscription is active when the sweep ends exactly when the extension reaches beyond now. */
  lemma RenewedIsActive(db: Db, due: seq<Id>, w: Window, now: int, base: Id, k: nat)
    requires Listing(db.subs, due, w, now) && k < |due| && Affordable(AttemptAll(db, due, k, now, base), due[k])
    ensures var sub := db.subs[due[k]];
            && sub.plan in db.plans
            && var sub' := Swept(db, due, now, base).subs[due[k]];
               && sub'.expiresAt == sub.expiresAt + db.plans[sub.plan].periodDays * MICROS_PER_DAY
               && (sub'.status.SubActive? <==> sub.expiresAt + db.plans[sub.plan].periodDays * MICROS_PER_DAY > now)
  {
    assert due[k] in due && Due(db.subs, due[k], w, now);
    TriedOnce(db, due, k, now, base);
  }

  predicate ReachesBeyond(e: int, w: Window, now: int, days: nat) {
    e > now - Hours(w.grace) ==> e + days * MICROS_PER_DAY > now
  }

  /** Every renewal the window can pick up reaches beyond now exactly when a period is no shorter than the grace. */
  lemma PeriodCoversGrace(w: Window, days: nat)
    ensures (forall e, now :: ReachesBeyond(e, w, now, days)) <==> 24 * days >= w.grace
  {
    if 24 * days >= w.grace {
      forall e, now ensures ReachesBeyond(e, w, now, days) {}
    } else {
      assert !ReachesBeyond(1 - Hours(w.grace), w, 0, days);
    }
  }

  // ---------- the sweep as a program ----------

  datatype TurnResult = Renewed | Insufficient | PlanMissing

  function TurnOf(db: Db, s: Id): TurnResult
    requires s in db.subs
  {
    if Affordable(db, s) then Renewed else if db.subs[s].plan in db.plans then Insufficient else PlanMissing
  }

  datatype Tally = Tally(renewed: nat, insufficientFunds: nat, failed: nat)

  function Counted(t: Tally, r: TurnResult): Tally {
    match r
    case Renewed => t.(renewed := t.renewed + 1)
    case Insufficient => t.(insufficientFunds := t.insufficientFunds + 1)
    case PlanMissing => t.(failed := t.failed + 1)
  }

  /** How turn `k` ended. */
  function EndAt(db: Db, due: seq<Id>, k: nat, now: int, base: Id): TurnResult
    requires k < |due| && Known(db.subs, due)
  {
    TurnOf(AttemptAll(db, due, k, now, base), due[k])
  }

  /** The counters after `n` turns: every turn counts once, under what came of it. */
  function TallyOf(db: Db, due: seq<Id>, n: nat, now: int, base: Id): (t: Tally)
    requires n <= |due| && Known(db.subs, due)
    ensures t.renewed + t.insufficientFunds + t.failed == n
  {
    if n == 0 then Tally(0, 0, 0) else
      Counted(TallyOf(db, due, n - 1, now, base), EndAt(db, due, n - 1, now, base))
  }

  /** How each of the first `n` turns ended. */
  ghost function Ends(db: Db, due: seq<Id>, n: nat, now: int, base: Id): (ends: seq<TurnResult>)
    requires n <= |due| && Known(db.subs, due)
    ensures |ends| == n
    ensures forall k :: 0 <= k < n ==> ends[k] == EndAt(db, due, k, now, base)
  {
    seq(n, k requires 0 <= k < n => EndAt(db, due, k, now, base))
  }

  function Places(ends: seq<TurnResult>, r: TurnResult): set<int> {
    set k | 0 <= k < |ends| && ends[k] == r
  }

  lemma NextPlace(ends: seq<TurnResult>, end: TurnResult, r: TurnResult)
    ensures |Places(ends + [end], r)| == |Places(ends, r)| + (if end == r then 1 else 0)
  {
    assert |ends| !in Places(ends, r);
    if end == r {
      assert Places(ends + [end], r) == Places(ends, r) + {|ends|};
    } else {
      assert Places(ends + [end], r) == Places(ends, r);
    }
  }

  predicate Counts(t: Tally, ends: seq<TurnResult>) {
    && t.renewed == |Places(ends, Renewed)| && t.insufficientFunds == |Places(ends, Insufficient)|
    && t.failed == |Places(ends, PlanMissing)|
  }

  lemma CountsNext(t: Tally, ends: seq<TurnResult>, end: TurnResult)
    requires Counts(t, ends)
    ensures Counts(Counted(t, end), ends + [end])
  {
    NextPlace(ends, end, Renewed);
    NextPlace(ends, end, Insufficient);
    NextPlace(ends, end, PlanMissing);
  }

  lemma EndsNext(db: Db, due: seq<Id>, n: nat, now: int, base: Id)
    requires n < |due| && Known(db.subs, due)
    ensures Ends(db, due, n + 1, now, base) ==
            Ends(db, due, n, now, base) + [EndAt(db, due, n, now, base)]
  {}

  /** After `n` turns each counter is the number of turns that ended its way. */
  ghost predicate TallyCounts(db: Db, due: seq<Id>, n: nat, now: int, base: Id) {
    n <= |due| && Known(db.subs, due)
    && Counts(TallyOf(db, due, n, now, base), Ends(db, due, n, now, base))
  }

  lemma TallyNext(db: Db, due: seq<Id>, n: nat, now: int, base: Id)
    requires n < |due| && TallyCounts(db, due, n, now, base)
    ensures TallyCounts(db, due, n + 1, now, base)
  {
    var end := EndAt(db, due, n, now, base);
    EndsNext(db, due, n, now, base);
    CountsNext(TallyOf(db, due, n, now, base), Ends(db, due, n, now, base), end);
  }

  lemma NoTurns(db: Db, due: seq<Id>, now: int, base: Id)
    requires Known(db.subs, due)
    ensures TallyCounts(db, due, 0, now, base)
  {
    assert Ends(db, due, 0, now, base) == [];
  }

  lemma TallyIsCount(db: Db, due: seq<Id>, n: nat, now: int, base: Id)
    requires n <= |due| && Known(db.subs, due)
    ensures TallyCounts(db, due, n, now, base)
  {
    NoTurns(db, due, now, base);
    for k := 0 to n
      invariant TallyCounts(db, due, k, now, base)
    {
      TallyNext(db, due, k, now, base);
    }
  }

  /** How a turn ends is what came of its transaction. */
  lemma TurnTells(db: Db, s: Id, base: Id)
    requires s in db.subs
    ensures TurnOf(db, s).Renewed? <==> RenewOne(db, s, base).Ok?
    ensures TurnOf(db, s).Insufficient? <==> RenewOne(db, s, base) == Err(InsufficientFunds)
    ensures TurnOf(db, s).PlanMissing? <==> db.subs[s].plan !in db.plans
  {
    RenewedWhenAffordable(db, s, base);
  }

  predicate OverdueRow(sub: Subscription, now: int) {
    sub.status.SubActive? && sub.expiresAt <= now
  }

  function Overdue(subs: map<Id, Subscription>, now: int): set<Id> {
    set s | s in subs && OverdueRow(subs[s], now)
  }

  datatype ReconcileResult = ReconcileResult(tally: Tally, expired: nat)

  ghost function Expiries(subs: map<Id, Subscription>): map<Id, int> {
    map s | s in subs :: subs[s].expiresAt
  }

  /** Part of the list: `due` is in order, `rest` is what is still to come, and together they are all that is due. */
  ghost predicate Listed(subs: map<Id, Subscription>, due: seq<Id>, rest: set<Id>, w: Window, now: int) {
    && Distinct(due) && ByExpiry(subs, due)
    && (forall s :: s in rest ==> s in subs && s !in due)
    && (forall i, s :: 0 <= i < |due| && s in rest ==> subs[due[i]].expiresAt <= subs[s].expiresAt)
    && (forall s :: s in due || s in rest <==> Due(subs, s, w, now))
  }

  lemma ListedNext(subs: map<Id, Subscription>, due: seq<Id>, rest: set<Id>, w: Window, now: int, s: Id)
    requires Listed(subs, due, rest, w, now) && s in rest
    requires forall t :: t in rest ==> subs[s].expiresAt <= subs[t].expiresAt
    ensures Listed(subs, due + [s], rest - {s}, w, now)
  {
    assert forall i :: 0 <= i < |due| ==> (due + [s])[i] == due[i] && due[i] in due;
    assert (due + [s])[|due|] == s;
    forall t ensures t in due + [s] || t in rest - {s} <==> Due(subs, t, w, now) {}
  }

  /** ListSubscriptionsDueForRenewal, earliest expiry first. */
  method ListDue(service: Service, w: Window, now: int) returns (due: seq<Id>)
    ensures Listing(service.db.subs, due, w, now) && ByExpiry(service.db.subs, due)
    ensures forall s :: s in due <==>
              && s in service.db.subs
              && var sub := service.db.subs[s];
              && sub.autoRenew && (sub.status.SubActive? || sub.status.SubExpired?)
              && now - w.grace * 3_600_000_000 < sub.expiresAt <= now + w.lookahead * 3_600_000_000
              && (sub.lastAttempt.Some? ==> sub.lastAttempt.value < now - w.retryAfter * 3_600_000_000)
    ensures forall i, j :: 0 <= i < j < |due| ==>
              && due[i] != due[j] && due[i] in service.db.subs && due[j] in service.db.subs
              && service.db.subs[due[i]].expiresAt <= service.db.subs[due[j]].expiresAt
  {
    var subs := service.db.subs;
    var rest := set s | s in subs && DueRow(subs[s], w, now);
    due := [];
    while rest != {}
      invariant Listed(subs, due, rest, w, now)
    {
      ghost var m := LeastExists(rest, Expiries(subs));
      var s :| s in rest && forall t :: t in rest ==> subs[s].expiresAt <= subs[t].expiresAt;
      ListedNext(subs, due, rest, w, now, s);
      due := due + [s];
      rest := rest - {s};
    }
  }

  lemma MarkKeeps(db: Db, s: Id, now: int, succeeded: bool, n: nat)
    requires DbOk(db) && IdsBelow(db, n) && s in db.subs
    ensures DbOk(OpEffect(db, MarkAttempt(s, now, succeeded), n))
    ensures IdsBelow(OpEffect(db, MarkAttempt(s, now, succeeded), n), n)
  {
    assert Unused(db, n);
    OpKeeps(db, MarkAttempt(s, now, succeeded), n);
    forall i | i >= n ensures Unused(OpEffect(db, MarkAttempt(s, now, succeeded), n), i) {
      assert Unused(db, i);
    }
  }

  lemma ExpireBooks(db: Db, now: int)
    requires Books(db)
    ensures Books(ExpireDue(db, now))
  {
    var db' := ExpireDue(db, now);
    forall u ensures Balanced(db', u) {
      assert Balanced(db, u);
      assert Values(db'.subs, SubPart(u)) == Values(db.subs, SubPart(u));
    }
  }

  lemma ExpireKeeps(db: Db, now: int, n: nat)
    requires DbOk(db) && IdsBelow(db, n)
    ensures DbOk(ExpireDue(db, now)) && IdsBelow(ExpireDue(db, now), n)
  {
    var db' := ExpireDue(db, now);
    assert db'.ledger == db.ledger + [];
    RowsKept(db, db', []);
    forall s ensures SubAt(db'.ledger, db'.subs, s) {
      assert SubAt(db.ledger, db.subs, s);
    }
    ExpireBooks(db, now);
    forall i | i >= n ensures Unused(db', i) {
      assert Unused(db, i);
    }
  }

  /** renewOne, in one transaction. */
  method TryRenew(service: Service, s: Id) returns (r: Result<Id, TxError>)
    requires service.Valid() && s in service.db.subs
    modifies service
    ensures service.Valid() && service.nextId <= old(service.nextId) + 2
    ensures match RenewOne(old(service.db), s, old(service.nextId))
            case Ok(d) => service.db == d && r == Ok(s)
            case Err(e) => service.db == old(service.db) && r == Err(e)
  {
    var current := service.db.subs[s];
    if current.plan !in service.db.plans {
      return Err(NotFound);
    }
    var plan := service.db.plans[current.plan];
    r := service.SubscribeTx(ExtendJob(s, plan.price, plan.periodDays, true));
  }

  /** One turn of the loop in ReconcileSubscriptions. */
  method Turn(service: Service, s: Id, now: int) returns (r: TurnResult)
    requires service.Valid() && s in service.db.subs
    modifies service
    ensures service.Valid() && service.nextId == old(service.nextId) + 2
    ensures service.db == Attempted(old(service.db), s, now, old(service.nextId))
    ensures r == TurnOf(old(service.db), s)
  {
    RenewedWhenAffordable(service.db, s, service.nextId);
    TurnIsTransaction(service.db, s, now, service.nextId);
    var next := service.nextId + 2;
    var renewed := TryRenew(service, s);
    MarkKeeps(service.db, s, now, renewed.Ok?, next);
    var sub := service.db.subs[s];
    service.db := service.db.(subs := service.db.subs[s := Marked(sub, now, renewed.Ok?)]);
    service.nextId := next;
    match renewed
    case Ok(_) => r := Renewed;
    case Err(e) => r := if e == InsufficientFunds then Insufficient else PlanMissing;
  }

  /** The tables and the counters after `n` turns. */
  predicate AfterTurns(db0: Db, due: seq<Id>, n: nat, now: int, base: Id, d: Db, tally: Tally) {
    n <= |due| && Known(db0.subs, due)
    && d == AttemptAll(db0, due, n, now, base) && tally == TallyOf(db0, due, n, now, base)
  }

  lemma NextTurn(db0: Db, due: seq<Id>, n: nat, now: int, base: Id, d: Db, tally: Tally)
    requires AfterTurns(db0, due, n, now, base, d, tally) && n < |due|
    ensures due[n] in d.subs
    ensures AfterTurns(db0, due, n + 1, now, base,
                       Attempted(d, due[n], now, base + 2 * n), Counted(tally, TurnOf(d, due[n])))
  {}

  method CountedTurn(service: Service, due: seq<Id>, k: nat, now: int, tally: Tally, ghost db0: Db, ghost base: Id)
      returns (tally': Tally)
    requires service.Valid() && service.nextId == base + 2 * k && k < |due|
    requires AfterTurns(db0, due, k, now, base, service.db, tally)
    modifies service
    ensures service.Valid() && service.nextId == base + 2 * (k + 1)
    ensures AfterTurns(db0, due, k + 1, now, base, service.db, tally')
  {
    NextTurn(db0, due, k, now, base, service.db, tally);
    var turn := Turn(service, due[k], now);
    tally' := Counted(tally, turn);
  }

  /** The loop of ReconcileSubscriptions. */
  method Turns(service: Service, due: seq<Id>, now: int) returns (tally: Tally)
    requires service.Valid() && Known(service.db.subs, due)
    modifies service
    ensures service.Valid() && service.db == AttemptAll(old(service.db), due, |due|, now, old(service.nextId))
    ensures tally == TallyOf(old(service.db), due, |due|, now, old(service.nextId))
  {
    ghost var db0, base := service.db, service.nextId;
    tally := Tally(0, 0, 0);
    for k := 0 to |due|
      invariant service.Valid() && service.nextId == base + 2 * k
      invariant AfterTurns(db0, due, k, now, base, service.db, tally)
    {
      tally := CountedTurn(service, due, k, now, tally, db0, base);
    }
  }

  method ExpireOverdue(service: Service, now: int) returns (expired: nat)
    requires service.Valid()
    modifies service
    ensures service.Valid() && service.db == ExpireDue(old(service.db), now)
    ensures expired == |Overdue(old(service.db).subs, now)|
    ensures var was, subs := old(service.db).subs, service.db.subs;
            && (forall s :: s in Overdue(was, now) <==>
                              s in was && was[s].status.SubActive? && was[s].expiresAt <= now)
            && (forall s :: s in subs <==> s in was)
            && (forall s :: s in was && s in Overdue(was, now) ==>
                              s in subs && subs[s] == was[s].(status := SubExpired))
            && (forall s :: s in was && s !in Overdue(was, now) ==> s in subs && subs[s] == was[s])
  {
    ExpireKeeps(service.db, now, service.nextId);
    var subs := service.db.subs;
    expired := |Overdue(subs, now)|;
    service.db := service.db.(subs := map s | s in subs :: ExpiredRow(subs[s], now));
  }

  /** ReconcileSubscriptions: every due subscription is tried once, in order of expiry, and marked whatever came of
      it; then what is over is expired. Every due subscription is counted under exactly one heading. */
  method Reconcile(service: Service, w: Window, now: int) returns (result: ReconcileResult, due: seq<Id>)
    requires service.Valid()
    modifies service
    ensures service.Valid()
    ensures Listing(old(service.db).subs, due, w, now) && ByExpiry(old(service.db).subs, due)
    ensures service.db == Swept(old(service.db), due, now, old(service.nextId))
    ensures forall s :: s in old(service.db).subs
                        && (!old(service.db).subs[s].autoRenew || old(service.db).subs[s].status.SubCanceled?) ==>
              var sub := old(service.db).subs[s];
              && s !in due && s in service.db.subs
              && service.db.subs[s] ==
                 (if sub.status.SubActive? && sub.expiresAt <= now then sub.(status := SubExpired) else sub)
              && Amounts(service.db.ledger, SubscriptionRef(s)) == Amounts(old(service.db).ledger, SubscriptionRef(s))
    ensures result.tally == TallyOf(old(service.db), due, |due|, now, old(service.nextId))
    ensures result.tally.renewed + result.tally.insufficientFunds + result.tally.failed == |due|
    ensures result.expired == |Overdue(AttemptAll(old(service.db), due, |due|, now, old(service.nextId)).subs, now)|
  {
    due := ListDue(service, w, now);
    var tally := Turns(service, due, now);
    var expired := ExpireOverdue(service, now);
    result := ReconcileResult(tally, expired);
    ghost var db0, base := old(service.db), old(service.nextId);
    forall s | s in db0.subs && s !in due
      ensures s in service.db.subs
      ensures var sub := db0.subs[s];
              service.db.subs[s] ==
              (if sub.status.SubActive? && sub.expiresAt <= now then sub.(status := SubExpired) else sub)
      ensures Amounts(service.db.ledger, SubscriptionRef(s)) == Amounts(db0.ledger, SubscriptionRef(s))
    {
      SweepSpares(db0, due, now, base, s);
    }
  }
}
