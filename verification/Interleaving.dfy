/**
  Commerce transactions running at the same time, in any interleaving, under PostgreSQL's Read Committed:
  a statement sees the rows committed so far plus its own transaction's writes; a row that was updated, a
  wallet that was locked and a unique key that was written stay locked until the transaction ends.

  A transaction keeps its writes in a private workspace. Committing lays the workspace over the committed
  tables. One step of the machine is one statement of one transaction.
 */
module Interleaving {
  import opened Results
  import opened CommerceModel
  import opened CommerceTx

  type TxId = nat

  datatype Lock =
    | WalletLock(user: User)
    | PaymentRow(payment: Id)
    | OrderRow(order: Id)
    | RefundRow(refund: Id)
    | SubRow(sub: Id)
    | EntKey(owner: User, edition: Option<Id>, origin: Origin)
    | OrderKey(buyer: User, key: string)

  /** How far a transaction has come. */
  datatype Stage =
    | Ready
    | Opened                      // the document row, if the job has one, is inserted
    | WalletLocked
    | BalanceRead(balance: int)
    | Debited
    | Lines(n: nat)               // n order lines written and granted
    | PaymentLocked
    | Resolved
    | Credited
    | Revoked
    | Done

  datatype Work = Work(ledger: seq<LedgerRow>, payments: map<Id, Payment>, orders: map<Id, Order>,
                       redemptions: seq<Redemption>, ents: map<Id, Entitlement>, subs: map<Id, Subscription>,
                       refunds: map<Id, Refund>)

  const NO_WORK := Work([], map[], map[], [], map[], map[], map[])

  datatype Tx = Tx(job: Job, base: Id, stage: Stage, work: Work, locks: set<Lock>)

  /** A purchase that has passed evaluateCoupon at an instant, with the discount it was promised on its subtotal, and
      has not yet committed or been given up. */
  datatype Evaluation = Evaluation(coupon: Id, user: User, subtotal: int, discount: int, at: int)

  datatype State = State(db: Db, txs: map<TxId, Tx>, evals: map<Id, Evaluation>, nextId: nat)

  /** What a statement of the transaction sees. */
  function View(db: Db, w: Work): Db {
    db.(ledger := db.ledger + w.ledger, payments := db.payments + w.payments, orders := db.orders + w.orders,
        redemptions := db.redemptions + w.redemptions, ents := db.ents + w.ents, subs := db.subs + w.subs,
        refunds := db.refunds + w.refunds)
  }

  // ---------- one statement ----------

  datatype Outcome = Blocked | Failed(error: TxError) | Next(tx: Tx)

  /** Takes a lock, or waits while another transaction holds it. */
  function Locking(tx: Tx, l: Lock, busy: set<Lock>, next: Outcome): Outcome {
    if l in busy then Blocked
    else match next
      case Next(tx') => Next(tx'.(locks := tx.locks + {l}))
      case _ => next
  }

  function KeyOf(e: Entitlement): Lock {
    EntKey(e.user, e.edition, e.origin)
  }

  function SourceKeys(ents: map<Id, Entitlement>, order: Id): set<Lock> {
    set i | i in RevokeOverlay(ents, order) :: KeyOf(ents[i])
  }

  function ExecReady(db: Db, tx: Tx, busy: set<Lock>): Outcome
    requires JobOk(db, tx.job)
  {
    var w := tx.work;
    match tx.job
    case DebitJob(_, _) => Next(tx.(stage := Opened))
    case ExtendJob(_, _, _, _) => Next(tx.(stage := Opened))
    case CreateSubJob(_, _, _, _, _, _) =>
      Next(tx.(stage := Opened, work := w.(subs := w.subs[tx.base := NewSub(tx.job)])))
    case PurchaseJob(user, _, _, _, key, _) =>
      var orders := w.orders[tx.base := NewOrder(tx.job, OrderPending, [])];
      var created := Next(tx.(stage := Opened, work := w.(orders := orders)));
      if key == "" then created
      else if OrderKey(user, key) !in busy && KeyTaken(View(db, w).orders, user, key) then Failed(DuplicateKey)
      else Locking(tx, OrderKey(user, key), busy, created)
    case SettleJob(p) =>
      var settled := View(db, w).payments[p].status.PaymentSucceeded?;
      Locking(tx, PaymentRow(p), busy, Next(tx.(stage := if settled then Done else PaymentLocked)))
    case ApproveJob(f) =>
      var ref := View(db, w).refunds[f];
      if RefundRow(f) in busy then Blocked
      else if !ref.status.RefundRequested? then Failed(RefundAlreadyResolved)
      else Locking(tx, RefundRow(f), busy,
                   Next(tx.(stage := Resolved, work := w.(refunds := w.refunds[f := ref.(status := RefundApproved)]))))
  }

  function ExecDebited(db: Db, tx: Tx, busy: set<Lock>): Outcome
    requires JobOk(db, tx.job)
  {
    match tx.job
    case ExtendJob(s, price, days, reactivate) =>
      var subs := tx.work.subs[s := Extended(View(db, tx.work).subs[s], price, days, reactivate)];
      Locking(tx, SubRow(s), busy, Next(tx.(stage := Done, work := tx.work.(subs := subs))))
    case PurchaseJob(_, _, _, _, _, _) => Next(tx.(stage := Lines(0)))
    case _ => Next(tx.(stage := Done))
  }

  /** The workspace once the next order line is written and its entitlement granted. */
  function LineWork(db: Db, job: Job, base: Id, w: Work, n: nat): Work
    requires job.PurchaseJob? && n < |job.lines| && base in w.orders
  {
    w.(orders := w.orders[base := w.orders[base].(items := w.orders[base].items + [job.lines[n]])],
       ents := w.ents + GrantOverlay(View(db, w).ents, base + 2 + n, LineGrant(job.user, job.lines[n], base)))
  }

  /** The workspace once the coupon is redeemed and the order marked paid. */
  function PaidWork(tx: Tx): Work
    requires tx.job.PurchaseJob? && tx.base in tx.work.orders
  {
    var w, order := tx.work, tx.work.orders[tx.base];
    w.(orders := w.orders[tx.base := order.(status := OrderPaid)],
       redemptions := w.redemptions + NewRedemptions(tx.job, tx.base))
  }

  function ExecLine(db: Db, tx: Tx, busy: set<Lock>): Outcome
    requires tx.job.PurchaseJob? && tx.stage.Lines?
  {
    if tx.base !in tx.work.orders then Blocked
    else if tx.stage.n < |tx.job.lines| then
      Locking(tx, KeyOf(LineGrant(tx.job.user, tx.job.lines[tx.stage.n], tx.base)), busy,
              Next(tx.(stage := Lines(tx.stage.n + 1), work := LineWork(db, tx.job, tx.base, tx.work, tx.stage.n))))
    else Next(tx.(stage := Done, work := PaidWork(tx)))
  }

  function ExecCredited(db: Db, tx: Tx, busy: set<Lock>): Outcome
    requires JobOk(db, tx.job)
  {
    var w := tx.work;
    match tx.job
    case SettleJob(p) =>
      var pay := View(db, w).payments[p];
      if pay.status.PaymentPending? then
        Next(tx.(stage := Done,
                 work := w.(payments := w.payments[p := pay.(status := PaymentSucceeded, entry := Some(tx.base + 1))])))
      else Failed(PaymentAlreadySettled)
    case ApproveJob(f) =>
      var ents, order := View(db, w).ents, View(db, w).refunds[f].order;
      if SourceKeys(ents, order) * busy != {} then Blocked
      else Next(tx.(stage := Revoked, locks := tx.locks + SourceKeys(ents, order),
                    work := w.(ents := w.ents + RevokeOverlay(ents, order))))
    case _ => Blocked
  }

  /** The next statement of a transaction; `busy` are the locks the other transactions hold. */
  function Exec(db: Db, tx: Tx, busy: set<Lock>): Outcome
    requires JobOk(db, tx.job)
  {
    var w := tx.work;
    match tx.stage
    case Ready => ExecReady(db, tx, busy)
    case Opened =>
      if ChargeOf(tx.job) == 0 then Next(tx.(stage := Debited))
      else Locking(tx, WalletLock(Payer(db, tx.job)), busy, Next(tx.(stage := WalletLocked)))
    case WalletLocked => Next(tx.(stage := BalanceRead(Balance(View(db, w).ledger, Payer(db, tx.job)))))
    case BalanceRead(b) =>
      if b < ChargeOf(tx.job) then Failed(InsufficientFunds)
      else Next(tx.(stage := Debited, work := w.(ledger := w.ledger + [ChargeRow(db, tx.job, tx.base)])))
    case Debited => ExecDebited(db, tx, busy)
    case Lines(_) => if tx.job.PurchaseJob? then ExecLine(db, tx, busy) else Blocked
    case PaymentLocked =>
      if tx.job.SettleJob? then
        var pay := View(db, w).payments[tx.job.payment];
        var credit := LedgerRow(tx.base + 1, pay.user, Credit, pay.amount, TopUp(tx.job.payment));
        Next(tx.(stage := Credited, work := w.(ledger := w.ledger + [credit])))
      else Blocked
    case Resolved =>
      if tx.job.ApproveJob? then
        var ref := View(db, w).refunds[tx.job.refund];
        var credit := LedgerRow(tx.base + 1, ref.user, Credit, ref.amount, RefundRef(tx.job.refund));
        Next(tx.(stage := Credited, work := w.(ledger := w.ledger + (if ref.amount > 0 then [credit] else []))))
      else Blocked
    case Credited => ExecCredited(db, tx, busy)
    case Revoked =>
      if tx.job.ApproveJob? then
        var order := View(db, w).refunds[tx.job.refund].order;
        Locking(tx, OrderRow(order), busy,
                Next(tx.(stage := Done, work := w.(orders := w.orders + RefundedOverlay(View(db, w).orders, order)))))
      else Blocked
    case Done => Blocked
  }

  // ---------- the machine ----------

  datatype Step =
    | Auto(op: Op)
    | Evaluate(coupon: Id, user: User, subtotal: int, now: int)
    | GiveUp(attempt: Id)
    | Begin(t: TxId, job: Job)
    | Run(t: TxId)
    | Commit(t: TxId)
    | Abort(t: TxId)

  function Held(txs: map<TxId, Tx>): set<Lock> {
    set t, l | t in txs && l in txs[t].locks :: l
  }

  function OpLocks(op: Op): set<Lock> {
    match op
    case FailPayment(p) => {PaymentRow(p)}
    case RejectRefund(f) => {RefundRow(f)}
    case CancelSub(s, _) => {SubRow(s)}
    case ExpireSub(s, _) => {SubRow(s)}
    case MarkAttempt(s, _, _) => {SubRow(s)}
    case AddHours(s, _) => {SubRow(s)}
    case _ => {}
  }

  /** evaluateCoupon's redemption limits; a limit of zero or less is no limit. */
  predicate CouponOpen(db: Db, c: Id, u: User) {
    && c in db.coupons
    && (db.coupons[c].maxRedemptions > 0 ==> CountCoupon(db.redemptions, c) < db.coupons[c].maxRedemptions)
    && (db.coupons[c].perUserLimit > 0 ==> CountCouponUser(db.redemptions, c, u) < db.coupons[c].perUserLimit)
  }

  /** GetUsableCouponByCode's window. */
  predicate InWindow(c: Coupon, now: int) {
    c.active && c.startsAt <= now && (c.expiresAt.None? || c.expiresAt.value > now)
  }

  /** Everything evaluateCoupon asks of a coupon. */
  predicate CouponUsable(db: Db, c: Id, user: User, subtotal: int, now: int) {
    && c in db.coupons && InWindow(db.coupons[c], now)
    && subtotal >= db.coupons[c].minSubtotal
    && CouponOpen(db, c, user)
    && Discount(db.coupons[c], subtotal) > 0
  }

  /** The evaluation a transaction spends. */
  function Attempt(job: Job): set<Id> {
    if job.PurchaseJob? && job.coupon.Some? then {job.attempt} else {}
  }

  /** A purchase with a coupon is backed by an evaluation: of that coupon, for its buyer, on its subtotal, and its
      discount is the one evaluated. */
  predicate AttemptHeld(evals: map<Id, Evaluation>, job: Job) {
    job.PurchaseJob? && job.coupon.Some? ==>
      && job.attempt in evals
      && var e := evals[job.attempt];
      && e.coupon == job.coupon.value && e.user == job.user
      && e.subtotal == SumPrices(job.lines) && e.discount == job.discount
  }

  predicate AttemptFree(s: State, job: Job) {
    && AttemptHeld(s.evals, job)
    && forall t :: t in s.txs ==> Attempt(job) !! Attempt(s.txs[t].job)
  }

  predicate FromPlan(plans: map<Id, Plan>, price: int, days: nat) {
    exists p :: p in plans && plans[p].price == price && plans[p].periodDays == days
  }

  /** Subscribe and renewOne charge and grant what some plan says. */
  predicate JobQuoted(plans: map<Id, Plan>, job: Job) {
    match job
    case CreateSubJob(_, _, price, days, _, _) => FromPlan(plans, price, days)
    case ExtendJob(_, price, days, _) => FromPlan(plans, price, days)
    case _ => true
  }

  function Ended(s: State, t: TxId): State
    requires t in s.txs
  {
    s.(txs := s.txs - {t}, evals := s.evals - Attempt(s.txs[t].job))
  }

  /** One step; a step that is not possible in `s` changes nothing. */
  function Apply(s: State, step: Step): State {
    match step
    case Auto(op) =>
      if OpEnabled(s.db, op) && OpLocks(op) * Held(s.txs) == {} then
        s.(db := OpEffect(s.db, op, s.nextId), nextId := s.nextId + 2)
      else s
    case Evaluate(c, u, subtotal, now) =>
      if CouponUsable(s.db, c, u, subtotal, now) then
        var evaluation := Evaluation(c, u, subtotal, Discount(s.db.coupons[c], subtotal), now);
        s.(evals := s.evals[s.nextId := evaluation], nextId := s.nextId + 1)
      else s
    case GiveUp(a) =>
      if forall t :: t in s.txs ==> a !in Attempt(s.txs[t].job) then s.(evals := s.evals - {a}) else s
    case Begin(t, job) =>
      if t !in s.txs && JobOk(s.db, job) && JobQuoted(s.db.plans, job) && AttemptFree(s, job) then
        s.(txs := s.txs[t := Tx(job, s.nextId, Ready, NO_WORK, {})], nextId := s.nextId + IdsNeeded(job))
      else s
    case Run(t) =>
      if t in s.txs && JobOk(s.db, s.txs[t].job) then
        match Exec(s.db, s.txs[t], Held(s.txs - {t}))
        case Blocked => s
        case Failed(_) => Ended(s, t)
        case Next(tx) => s.(txs := s.txs[t := tx])
      else s
    case Commit(t) =>
      if t in s.txs && s.txs[t].stage.Done? then Ended(s, t).(db := View(s.db, s.txs[t].work)) else s
    case Abort(t) => if t in s.txs then Ended(s, t) else s
  }

  /** A whole run, in the order the steps are listed. */
  function Play(s: State, steps: seq<Step>): State
    decreases |steps|
  {
    if steps == [] then s else Play(Apply(s, steps[0]), steps[1..])
  }

  // ---------- what is true of a transaction in progress ----------

  predicate HasCharged(stage: Stage) {
    stage.Debited? || stage.Lines? || stage.Done?
  }

  function LinesDone(job: Job, stage: Stage): nat
    requires job.PurchaseJob?
  {
    match stage
    case Lines(n) => n
    case Done => |job.lines|
    case _ => 0
  }

  predicate StageOk(job: Job, stage: Stage) {
    match job
    case SettleJob(_) => stage.Ready? || stage.PaymentLocked? || stage.Credited? || stage.Done?
    case ApproveJob(_) => stage.Ready? || stage.Resolved? || stage.Credited? || stage.Revoked? || stage.Done?
    case PurchaseJob(_, lines, _, _, _, _) =>
      stage.Ready? || stage.Opened? || stage.WalletLocked? || stage.BalanceRead? || stage.Debited? || stage.Done?
      || (stage.Lines? && stage.n <= |lines|)
    case _ =>
      stage.Ready? || stage.Opened? || stage.WalletLocked? || stage.BalanceRead? || stage.Debited? || stage.Done?
  }

  function LedgerAt(db: Db, job: Job, base: Id, stage: Stage): seq<LedgerRow>
    requires JobOk(db, job)
  {
    if HasCharged(stage) then ChargeRows(db, job, base) else []
  }

  function SettleWork(db: Db, p: Id, base: Id, stage: Stage): Work
    requires p in db.payments
  {
    var pay := db.payments[p];
    if stage.Credited? || (stage.Done? && !pay.status.PaymentSucceeded?) then
      NO_WORK.(ledger := [LedgerRow(base + 1, pay.user, Credit, pay.amount, TopUp(p))],
               payments := if !stage.Done? then map[]
                           else map[p := pay.(status := PaymentSucceeded, entry := Some(base + 1))])
    else NO_WORK
  }

  function ApproveWork(db: Db, f: Id, base: Id, stage: Stage): Work
    requires f in db.refunds
  {
    if stage.Ready? then NO_WORK else
      var ref := db.refunds[f];
      NO_WORK.(refunds := map[f := ref.(status := RefundApproved)],
               ledger := if !stage.Resolved? && ref.amount > 0
                         then [LedgerRow(base + 1, ref.user, Credit, ref.amount, RefundRef(f))] else [],
               ents := if stage.Revoked? || stage.Done? then RevokeOverlay(db.ents, ref.order) else map[],
               orders := if stage.Done? then RefundedOverlay(db.orders, ref.order) else map[])
  }

  function PurchaseWork(db: Db, job: Job, base: Id, stage: Stage): Work
    requires job.PurchaseJob? && JobOk(db, job) && StageOk(job, stage)
  {
    var n := LinesDone(job, stage);
    NO_WORK.(ledger := LedgerAt(db, job, base, stage),
             orders := if stage.Ready? then map[]
                       else map[base := NewOrder(job, if stage.Done? then OrderPaid else OrderPending, job.lines[..n])],
             ents := GrantOverlays(db.ents, job.user, job.lines, base, n),
             redemptions := if stage.Done? then NewRedemptions(job, base) else [])
  }

  /** The workspace the executed part of a job would have built had it run just now over `db`. */
  function WorkAt(db: Db, job: Job, base: Id, stage: Stage): Work
    requires JobOk(db, job) && StageOk(job, stage)
  {
    match job
    case DebitJob(_, _) => NO_WORK.(ledger := LedgerAt(db, job, base, stage))
    case CreateSubJob(_, _, _, _, _, _) =>
      NO_WORK.(ledger := LedgerAt(db, job, base, stage),
               subs := if stage.Ready? then map[] else map[base := NewSub(job)])
    case ExtendJob(s, price, days, reactivate) =>
      NO_WORK.(ledger := LedgerAt(db, job, base, stage),
               subs := if stage.Done? then map[s := Extended(db.subs[s], price, days, reactivate)] else map[])
    case PurchaseJob(_, _, _, _, _, _) => PurchaseWork(db, job, base, stage)
    case SettleJob(p) => SettleWork(db, p, base, stage)
    case ApproveJob(f) => ApproveWork(db, f, base, stage)
  }

  predicate HoldsWallet(stage: Stage) {
    stage.WalletLocked? || stage.BalanceRead? || HasCharged(stage)
  }

  predicate LineKeyHeld(buyer: User, line: Line, order: Id, locks: set<Lock>) {
    KeyOf(LineGrant(buyer, line, order)) in locks
  }

  /** The entitlement keys of the first `n` lines stay locked once granted. */
  predicate LineKeysHeld(buyer: User, lines: seq<Line>, order: Id, n: nat, locks: set<Lock>)
    requires n <= |lines|
  {
    forall i :: 0 <= i < n ==> LineKeyHeld(buyer, lines[i], order, locks)
  }

  /** The locks a transaction must hold by now. */
  predicate LocksOk(db: Db, tx: Tx)
    requires JobOk(db, tx.job) && StageOk(tx.job, tx.stage)
  {
    && (ChargeOf(tx.job) > 0 && HoldsWallet(tx.stage) ==> WalletLock(Payer(db, tx.job)) in tx.locks)
    && match tx.job
       case PurchaseJob(user, lines, _, _, key, _) =>
         && (!tx.stage.Ready? && key != "" ==> OrderKey(user, key) in tx.locks)
         && LineKeysHeld(user, lines, tx.base, LinesDone(tx.job, tx.stage), tx.locks)
       case ExtendJob(s, _, _, _) => tx.stage.Done? ==> SubRow(s) in tx.locks
       case SettleJob(p) => !tx.stage.Ready? ==> PaymentRow(p) in tx.locks
       case ApproveJob(f) =>
         && (!tx.stage.Ready? ==> RefundRow(f) in tx.locks)
         && (tx.stage.Revoked? || tx.stage.Done? ==> SourceKeys(db.ents, db.refunds[f].order) <= tx.locks)
         && (tx.stage.Done? ==> OrderRow(db.refunds[f].order) in tx.locks)
       case _ => true
  }

  /** The tests a transaction has passed still hold of the committed tables. */
  predicate ChecksOk(db: Db, tx: Tx)
    requires JobOk(db, tx.job) && StageOk(tx.job, tx.stage)
  {
    && (tx.stage.WalletLocked? || tx.stage.BalanceRead? ==> ChargeOf(tx.job) > 0)
    && (tx.stage.BalanceRead? ==> tx.stage.balance <= Balance(db.ledger, Payer(db, tx.job)))
    && (HasCharged(tx.stage) && ChargeOf(tx.job) > 0 ==> ChargeOf(tx.job) <= Balance(db.ledger, Payer(db, tx.job)))
    && match tx.job
       case PurchaseJob(user, _, _, _, key, _) => !tx.stage.Ready? ==> !KeyTaken(db.orders, user, key)
       case SettleJob(p) => tx.stage.Done? ==> !db.payments[p].status.PaymentFailed?
       case ApproveJob(f) => !tx.stage.Ready? ==> db.refunds[f].status.RefundRequested?
       case _ => true
  }

  predicate TxOk(db: Db, tx: Tx) {
    && JobOk(db, tx.job)
    && StageOk(tx.job, tx.stage)
    && tx.work == WorkAt(db, tx.job, tx.base, tx.stage)
    && LocksOk(db, tx)
    && ChecksOk(db, tx)
  }
}
