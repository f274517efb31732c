/**
  What each commerce transaction does to the committed tables when it runs alone, and the proof that
  every one of them keeps `DbOk`. Module Interleaving shows that a transaction that commits under any
  interleaving does exactly this to the tables it commits over.
 */
module CommerceTx {
  import opened Results
  import opened CommerceModel

  datatype TxError =
    | NotFound | InsufficientFunds | AlreadyOwned | CouponNotFound | CouponNotUsable | PaymentAlreadySettled
    | RefundAlreadyResolved | RefundNotEligible | EmptyPurchase | AmountInvalid | DuplicateKey | VerificationFailed
    | ConstraintViolation

  /** A transaction and the values it was started with. Identifiers are drawn from the block that starts
      at `base`: the document, then the ledger row, then one entitlement for each line. */
  datatype Job =
    | DebitJob(user: User, amount: int)
    | SettleJob(payment: Id)
    | PurchaseJob(user: User, lines: seq<Line>, discount: int, coupon: Option<Id>, key: string, attempt: Id)
    | CreateSubJob(user: User, plan: Id, price: int, days: nat, expiresAt: int, autoRenew: bool)
    | ExtendJob(sub: Id, price: int, days: nat, reactivate: bool)
    | ApproveJob(refund: Id)

  function IdsNeeded(job: Job): nat {
    if job.PurchaseJob? then 2 + |job.lines| else 2
  }

  /** What the caller has already established when it opens the transaction. */
  predicate JobOk(db: Db, job: Job) {
    match job
    case DebitJob(_, amount) => amount > 0
    case SettleJob(p) => p in db.payments
    case PurchaseJob(_, lines, discount, coupon, _, _) =>
      && lines != [] && (forall i :: 0 <= i < |lines| ==> lines[i].price >= 0)
      && 0 <= discount <= SumPrices(lines)
      && (coupon.Some? <==> discount > 0)
    case CreateSubJob(_, _, price, _, _, _) => price >= 0
    case ExtendJob(s, price, _, _) => s in db.subs && price >= 0
    case ApproveJob(f) => f in db.refunds
  }

  function ChargeOf(job: Job): int {
    match job
    case DebitJob(_, amount) => amount
    case PurchaseJob(_, lines, discount, _, _, _) => SumPrices(lines) - discount
    case CreateSubJob(_, _, price, _, _, _) => price
    case ExtendJob(_, price, _, _) => price
    case _ => 0
  }

  function Payer(db: Db, job: Job): User
    requires JobOk(db, job)
  {
    match job
    case DebitJob(u, _) => u
    case PurchaseJob(u, _, _, _, _, _) => u
    case CreateSubJob(u, _, _, _, _, _) => u
    case ExtendJob(s, _, _, _) => db.subs[s].user
    case SettleJob(p) => db.payments[p].user
    case ApproveJob(f) => db.refunds[f].user
  }

  function ChargeSource(job: Job, base: Id): Source {
    match job
    case PurchaseJob(_, _, _, _, _, _) => OrderRef(base)
    case CreateSubJob(_, _, _, _, _, _) => SubscriptionRef(base)
    case ExtendJob(s, _, _, _) => SubscriptionRef(s)
    case _ => Direct
  }

  function ChargeRow(db: Db, job: Job, base: Id): LedgerRow
    requires JobOk(db, job)
  {
    LedgerRow(base + 1, Payer(db, job), Debit, ChargeOf(job), ChargeSource(job, base))
  }

  // ---------- entitlements ----------

  function LiveIds(ents: map<Id, Entitlement>, e: Entitlement): set<Id> {
    set i | i in ents && Live(ents[i]) && SameKey(ents[i], e)
  }

  /** The rows an upsert writes: a live row with the same key gets the new expiry and keeps its source,
      otherwise the new row is inserted. */
  function GrantOverlay(ents: map<Id, Entitlement>, id: Id, e: Entitlement): map<Id, Entitlement> {
    var live := LiveIds(ents, e);
    if e.edition.None? || live == {} then map[id := e]
    else map i | i in live :: ents[i].(expires := e.expires)
  }

  function LineGrant(buyer: User, line: Line, order: Id): Entitlement {
    if line.recipient.Some? && line.recipient.value != buyer then
      Entitlement(line.recipient.value, line.book, Some(line.edition), Gift, FromOrder(order), None, false)
    else
      Entitlement(buyer, line.book, Some(line.edition), Purchased, FromOrder(order), None, false)
  }

  /** The rows written by granting the first `n` lines one after another on top of `ents`. */
  function GrantOverlays(ents: map<Id, Entitlement>, buyer: User, lines: seq<Line>, order: Id,
                         n: nat): map<Id, Entitlement>
    requires n <= |lines|
  {
    if n == 0 then map[] else
      var before := GrantOverlays(ents, buyer, lines, order, n - 1);
      before + GrantOverlay(ents + before, order + 1 + n, LineGrant(buyer, lines[n - 1], order))
  }

  /** The table after granting the first `n` lines one after another. */
  function GrantAll(ents: map<Id, Entitlement>, buyer: User, lines: seq<Line>, order: Id, n: nat): map<Id, Entitlement>
    requires n <= |lines|
  {
    if n == 0 then ents else
      var view := GrantAll(ents, buyer, lines, order, n - 1);
      view + GrantOverlay(view, order + 1 + n, LineGrant(buyer, lines[n - 1], order))
  }

  function RevokeOverlay(ents: map<Id, Entitlement>, order: Id): map<Id, Entitlement> {
    map i | i in ents && Live(ents[i]) && ents[i].source == FromOrder(order) :: ents[i].(revoked := true)
  }

  /** IsUserEntitledToEdition. */
  predicate EditionCheck(ents: map<Id, Entitlement>, user: User, edition: Id, book: Id, now: int) {
    exists i :: i in ents && ents[i].user == user && Live(ents[i])
                && (ents[i].expires.None? || ents[i].expires.value > now)
                && (ents[i].edition == Some(edition) || (ents[i].edition.None? && ents[i].book == book))
  }

  // ---------- rows ----------

  function NewOrder(job: Job, status: OrderStatus, lines: seq<Line>): Order
    requires job.PurchaseJob?
  {
    Order(job.user, status, SumPrices(job.lines), job.discount, SumPrices(job.lines) - job.discount,
          job.coupon, job.key, lines)
  }

  function NewRedemptions(job: Job, order: Id): seq<Redemption>
    requires job.PurchaseJob?
  {
    if job.coupon.Some? && job.discount > 0 then
      [Redemption(job.coupon.value, job.user, order, job.discount)]
    else []
  }

  function NewSub(job: Job): Subscription
    requires job.CreateSubJob?
  {
    Subscription(job.user, job.plan, SubActive, job.autoRenew, job.expiresAt, 0.0, None, 0,
                 job.expiresAt, [Period(job.price, job.days)])
  }

  /** ExtendSubscription, then ReactivateSubscription when the renewal sweep asks for it. */
  function Extended(s: Subscription, price: int, days: nat, reactivate: bool): Subscription {
    s.(expiresAt := s.expiresAt + days * MICROS_PER_DAY,
       hoursConsumed := 0.0,
       periods := s.periods + [Period(price, days)],
       status := if reactivate && s.status.SubExpired? then SubActive else s.status)
  }

  predicate KeyTaken(orders: map<Id, Order>, user: User, key: string) {
    key != "" && exists o :: o in orders && orders[o].user == user && orders[o].key == key
  }

  // ---------- the transactions ----------

  /** The ledger rows of the charge: a zero charge writes none. */
  function ChargeRows(db: Db, job: Job, base: Id): seq<LedgerRow>
    requires JobOk(db, job)
  {
    if ChargeOf(job) > 0 then [ChargeRow(db, job, base)] else []
  }

  /** debitLocked. */
  function Charge(db: Db, job: Job, base: Id): Result<Db, TxError>
    requires JobOk(db, job)
  {
    if ChargeOf(job) > 0 && Balance(db.ledger, Payer(db, job)) < ChargeOf(job) then Err(InsufficientFunds)
    else Ok(db.(ledger := db.ledger + ChargeRows(db, job, base)))
  }

  function Settle(db: Db, p: Id, base: Id): Result<Db, TxError>
    requires p in db.payments
  {
    var pay := db.payments[p];
    match pay.status
    case PaymentSucceeded => Ok(db)
    case PaymentFailed => Err(PaymentAlreadySettled)
    case PaymentPending =>
      Ok(db.(ledger := db.ledger + [LedgerRow(base + 1, pay.user, Credit, pay.amount, TopUp(p))],
             payments := db.payments[p := pay.(status := PaymentSucceeded, entry := Some(base + 1))]))
  }

  function RefundedOverlay(orders: map<Id, Order>, o: Id): map<Id, Order> {
    if o in orders then map[o := orders[o].(status := OrderRefunded)] else map[]
  }

  function Approve(db: Db, f: Id, base: Id): Result<Db, TxError>
    requires f in db.refunds
  {
    var ref := db.refunds[f];
    if !ref.status.RefundRequested? then Err(RefundAlreadyResolved)
    else Ok(db.(ledger := db.ledger + (if ref.amount > 0
                                       then [LedgerRow(base + 1, ref.user, Credit, ref.amount, RefundRef(f))] else []),
                refunds := db.refunds[f := ref.(status := RefundApproved)],
                ents := db.ents + RevokeOverlay(db.ents, ref.order),
                orders := db.orders + RefundedOverlay(db.orders, ref.order)))
  }

  /** The whole transaction, run alone over `db`. An error leaves no trace: InTx rolls back. */
  function Atomic(db: Db, job: Job, base: Id): Result<Db, TxError>
    requires JobOk(db, job)
  {
    match job
    case DebitJob(_, _) => Charge(db, job, base)
    case SettleJob(p) => Settle(db, p, base)
    case ApproveJob(f) => Approve(db, f, base)
    case CreateSubJob(_, _, _, _, _, _) =>
      (match Charge(db, job, base)
       case Err(e) => Err(e)
       case Ok(d) => Ok(d.(subs := d.subs[base := NewSub(job)])))
    case ExtendJob(s, price, days, reactivate) =>
      (match Charge(db, job, base)
       case Err(e) => Err(e)
       case Ok(d) => Ok(d.(subs := d.subs[s := Extended(d.subs[s], price, days, reactivate)])))
    case PurchaseJob(user, lines, discount, _, key, _) =>
      if KeyTaken(db.orders, user, key) then Err(DuplicateKey) else
        match Charge(db, job, base)
        case Err(e) => Err(e)
        case Ok(d) =>
          Ok(d.(orders := d.orders[base := NewOrder(job, OrderPaid, lines)],
                ents := GrantAll(d.ents, user, lines, base, |lines|),
                redemptions := d.redemptions + NewRedemptions(job, base)))
  }

  // ---------- statements that commit on their own ----------

  datatype Op =
    | StartTopUp(user: User, amount: int)
    | FailPayment(payment: Id)
    | CreditWallet(user: User, amount: int)
    | RequestRefund(order: Id)
    | RejectRefund(refund: Id)
    | GrantOrg(user: User, book: Id, org: Id, expires: Option<int>)
    | CancelSub(sub: Id, user: User)
    | ExpireSub(sub: Id, now: int)
    | MarkAttempt(sub: Id, now: int, succeeded: bool)
    | AddHours(sub: Id, hours: real)

  const MIN_TOP_UP := 10_000
  const MAX_TOP_UP := 50_000_000

  /** The guard of the statement: its WHERE clause, the CHECK constraints and what its caller has made sure of. The
      status of an order to be refunded is read earlier and without a lock, so it may have changed by now. */
  predicate OpEnabled(db: Db, op: Op) {
    match op
    case StartTopUp(_, amount) => MIN_TOP_UP <= amount <= MAX_TOP_UP
    case FailPayment(p) => p in db.payments && db.payments[p].status.PaymentPending?
    case CreditWallet(_, amount) => amount > 0
    case RequestRefund(o) => o in db.orders && db.orders[o].total > 0
    case RejectRefund(f) => f in db.refunds && db.refunds[f].status.RefundRequested?
    case GrantOrg(_, _, _, _) => true
    case CancelSub(s, u) => s in db.subs && db.subs[s].user == u && db.subs[s].status.SubActive?
    case ExpireSub(s, now) => s in db.subs && db.subs[s].status.SubActive? && db.subs[s].expiresAt <= now
    case MarkAttempt(s, _, _) => s in db.subs
    case AddHours(s, _) => s in db.subs
  }

  function OpEffect(db: Db, op: Op, base: Id): Db
    requires OpEnabled(db, op)
  {
    match op
    case StartTopUp(u, amount) => db.(payments := db.payments[base := Payment(u, amount, PaymentPending, None)])
    case FailPayment(p) => db.(payments := db.payments[p := db.payments[p].(status := PaymentFailed)])
    case CreditWallet(u, amount) => db.(ledger := db.ledger + [LedgerRow(base + 1, u, Credit, amount, Direct)])
    case RequestRefund(o) =>
      db.(refunds := db.refunds[base := Refund(o, db.orders[o].user, db.orders[o].total, RefundRequested)])
    case RejectRefund(f) => db.(refunds := db.refunds[f := db.refunds[f].(status := RefundRejected)])
    case GrantOrg(u, book, org, expires) =>
      db.(ents := db.ents[base := Entitlement(u, book, None, Organisation, FromOrganisation(org), expires, false)])
    case CancelSub(s, _) => db.(subs := db.subs[s := db.subs[s].(status := SubCanceled, autoRenew := false)])
    case ExpireSub(s, _) => db.(subs := db.subs[s := db.subs[s].(status := SubExpired)])
    case MarkAttempt(s, now, succeeded) =>
      db.(subs := db.subs[s := db.subs[s].(lastAttempt := Some(now),
                                           failures := if succeeded then 0 else db.subs[s].failures + 1)])
    case AddHours(s, hours) => db.(subs := db.subs[s := db.subs[s].(hoursConsumed := db.subs[s].hoursConsumed + hours)])
  }

  // ---------- fresh identifiers ----------

  predicate Unused(db: Db, i: Id) {
    i !in db.payments && i !in db.orders && i !in db.subs && i !in db.ents && i !in db.refunds
  }

  ghost predicate Fresh(db: Db, base: Id, n: nat) {
    forall i :: base <= i < base + n ==> Unused(db, i)
  }

  /** A document that does not exist has no ledger rows. */
  lemma {:induction false} NoRows(db: Db, n: nat, s: Source)
    requires RowsOk(db) && n <= |db.ledger|
    requires !s.Direct?
    requires s.TopUp? ==> s.payment !in db.payments
    requires s.OrderRef? ==> s.order !in db.orders
    requires s.SubscriptionRef? ==> s.sub !in db.subs
    requires s.RefundRef? ==> s.refund !in db.refunds
    ensures Amounts(db.ledger[..n], s) == []
  {
    if n > 0 {
      assert RowAt(db, n - 1);
      assert db.ledger[..n][..n - 1] == db.ledger[..n - 1];
      NoRows(db, n - 1, s);
    }
  }

  lemma NoRowsAtAll(db: Db, s: Source)
    requires RowsOk(db) && !s.Direct?
    requires s.TopUp? ==> s.payment !in db.payments
    requires s.OrderRef? ==> s.order !in db.orders
    requires s.SubscriptionRef? ==> s.sub !in db.subs
    requires s.RefundRef? ==> s.refund !in db.refunds
    ensures Amounts(db.ledger, s) == []
  {
    assert db.ledger[..|db.ledger|] == db.ledger;
    NoRows(db, |db.ledger|, s);
  }

  lemma {:induction false} NoRedemptions(orders: map<Id, Order>, rs: seq<Redemption>, o: Id)
    requires RedemptionsOk(orders, rs) && o !in orders
    ensures CountOrder(rs, o) == 0
  {
    if rs != [] {
      var n := |rs| - 1;
      assert RedemptionAt(orders, rs, n);
      forall i: nat ensures RedemptionAt(orders, rs[..n], i) {
        assert RedemptionAt(orders, rs, i);
      }
      NoRedemptions(orders, rs[..n], o);
    }
  }

  // ---------- entitlement lemmas ----------

  lemma GrantKeepsUnique(ents: map<Id, Entitlement>, id: Id, e: Entitlement)
    requires EntsUnique(ents) && id !in ents
    ensures EntsUnique(ents + GrantOverlay(ents, id, e))
  {
    var live := LiveIds(ents, e);
    var after := ents + GrantOverlay(ents, id, e);
    assert forall i :: i in ents && Live(ents[i]) && SameKey(ents[i], e) ==> i in live;
    forall i, j | BothLive(after, i, j) ensures i == j {
      if i in ents && j in ents {
        assert BothLive(ents, i, j);
      }
    }
  }

  predicate GrantedRow(ents: map<Id, Entitlement>, e: Entitlement, i: Id, order: Id, n: nat) {
    && Live(e) && e.edition.Some?
    && (if i in ents then Live(ents[i]) && e == ents[i].(expires := None)
        else order + 2 <= i < order + 2 + n && e.source == FromOrder(order))
  }

  /** What the grants of a purchase may write: a new row of the order's own, or a live row of an edition
      made to never expire. */
  ghost predicate Granted(ents: map<Id, Entitlement>, o: map<Id, Entitlement>, order: Id, n: nat) {
    forall i :: i in o ==> GrantedRow(ents, o[i], i, order, n)
  }

  lemma GrantedStep(ents: map<Id, Entitlement>, before: map<Id, Entitlement>, e: Entitlement, order: Id, n: nat)
    requires Granted(ents, before, order, n) && e.edition.Some? && e.expires.None? && Live(e)
    requires e.source == FromOrder(order) && order + 2 + n !in ents
    ensures Granted(ents, before + GrantOverlay(ents + before, order + 2 + n, e), order, n + 1)
  {
    var view := ents + before;
    var overlay := GrantOverlay(view, order + 2 + n, e);
    var o := before + overlay;
    forall i | i in o ensures GrantedRow(ents, o[i], i, order, n + 1) {
      if i in before {
        assert GrantedRow(ents, before[i], i, order, n);
      }
      if i in overlay && LiveIds(view, e) != {} {
        assert i in view && o[i] == view[i].(expires := None);
      }
    }
  }

  lemma OverlayStep(ents: map<Id, Entitlement>, before: map<Id, Entitlement>, view: map<Id, Entitlement>, id: Id,
                    e: Entitlement)
    requires ents + before == view
    ensures ents + (before + GrantOverlay(ents + before, id, e)) == view + GrantOverlay(view, id, e)
  {}

  /** The rows written by the grants, laid over the table, are the table after the grants. */
  lemma {:induction false} OverlaysAreGrants(ents: map<Id, Entitlement>, buyer: User, lines: seq<Line>, order: Id,
                                             n: nat)
    requires n <= |lines|
    ensures ents + GrantOverlays(ents, buyer, lines, order, n) == GrantAll(ents, buyer, lines, order, n)
  {
    if n == 0 {
      assert ents + map[] == ents;
    } else {
      OverlaysAreGrants(ents, buyer, lines, order, n - 1);
      OverlayStep(ents, GrantOverlays(ents, buyer, lines, order, n - 1), GrantAll(ents, buyer, lines, order, n - 1),
                  order + 1 + n, LineGrant(buyer, lines[n - 1], order));
    }
  }

  ghost predicate FreshFor(ents: map<Id, Entitlement>, order: Id, n: nat) {
    forall i :: order + 2 <= i < order + 2 + n ==> i !in ents
  }

  lemma {:induction false} GrantOverlaysGranted(ents: map<Id, Entitlement>, buyer: User, lines: seq<Line>, order: Id,
                                                n: nat)
    requires n <= |lines| && FreshFor(ents, order, n)
    ensures Granted(ents, GrantOverlays(ents, buyer, lines, order, n), order, n)
  {
    if n > 0 {
      GrantOverlaysGranted(ents, buyer, lines, order, n - 1);
      GrantedStep(ents, GrantOverlays(ents, buyer, lines, order, n - 1), LineGrant(buyer, lines[n - 1], order), order,
                  n - 1);
    }
  }

  /** The id the next grant would insert is still free. */
  lemma NextIdFree(ents: map<Id, Entitlement>, buyer: User, lines: seq<Line>, order: Id, n: nat)
    requires n <= |lines| && FreshFor(ents, order, n + 1)
    ensures order + 2 + n !in GrantAll(ents, buyer, lines, order, n)
  {
    GrantOverlaysGranted(ents, buyer, lines, order, n);
    OverlaysAreGrants(ents, buyer, lines, order, n);
  }

  lemma {:induction false} GrantAllUnique(ents: map<Id, Entitlement>, buyer: User, lines: seq<Line>, order: Id, n: nat)
    requires n <= |lines| && FreshFor(ents, order, n) && EntsUnique(ents)
    ensures EntsUnique(GrantAll(ents, buyer, lines, order, n))
  {
    if n > 0 {
      GrantAllUnique(ents, buyer, lines, order, n - 1);
      NextIdFree(ents, buyer, lines, order, n - 1);
      GrantKeepsUnique(GrantAll(ents, buyer, lines, order, n - 1), order + 1 + n,
                       LineGrant(buyer, lines[n - 1], order));
    }
  }

  /** The user holds a live row with the key of `e` that never expires. */
  ghost predicate Holds(ents: map<Id, Entitlement>, e: Entitlement) {
    exists i :: i in ents && Live(ents[i]) && SameKey(ents[i], e) && ents[i].expires.None?
  }

  lemma GrantGives(view: map<Id, Entitlement>, id: Id, e: Entitlement)
    requires e.expires.None? && Live(e)
    ensures Holds(view + GrantOverlay(view, id, e), e)
  {
    var after := view + GrantOverlay(view, id, e);
    if e.edition.None? || LiveIds(view, e) == {} {
      assert after[id] == e;
    } else {
      var i :| i in LiveIds(view, e);
      assert after[i] == view[i].(expires := None);
    }
  }

  lemma GrantKeepsHolding(view: map<Id, Entitlement>, id: Id, e: Entitlement, held: Entitlement)
    requires e.expires.None? && id !in view && Holds(view, held)
    ensures Holds(view + GrantOverlay(view, id, e), held)
  {
    var i :| i in view && Live(view[i]) && SameKey(view[i], held) && view[i].expires.None?;
    var after := view + GrantOverlay(view, id, e);
    assert i in after && Live(after[i]) && SameKey(after[i], held) && after[i].expires.None?;
  }

  lemma LastHeld(ents: map<Id, Entitlement>, buyer: User, lines: seq<Line>, order: Id, n: nat)
    requires n < |lines|
    ensures Holds(GrantAll(ents, buyer, lines, order, n + 1), LineGrant(buyer, lines[n], order))
  {
    GrantGives(GrantAll(ents, buyer, lines, order, n), order + 2 + n, LineGrant(buyer, lines[n], order));
  }

  lemma StillHeld(ents: map<Id, Entitlement>, buyer: User, lines: seq<Line>, order: Id, n: nat, held: Entitlement)
    requires n < |lines| && FreshFor(ents, order, n + 1) && Holds(GrantAll(ents, buyer, lines, order, n), held)
    ensures Holds(GrantAll(ents, buyer, lines, order, n + 1), held)
  {
    var view, e := GrantAll(ents, buyer, lines, order, n), LineGrant(buyer, lines[n], order);
    NextIdFree(ents, buyer, lines, order, n);
    assert GrantAll(ents, buyer, lines, order, n + 1) == view + GrantOverlay(view, order + 2 + n, e);
    GrantKeepsHolding(view, order + 2 + n, e, held);
  }

  /** Every line of a purchase leaves its owner with a live row for the edition that never expires. */
  lemma {:induction false} GrantsEntitle(ents: map<Id, Entitlement>, buyer: User, lines: seq<Line>, order: Id, n: nat,
                                         k: nat)
    requires k < n <= |lines| && FreshFor(ents, order, n)
    ensures Holds(GrantAll(ents, buyer, lines, order, n), LineGrant(buyer, lines[k], order))
  {
    if k == n - 1 {
      LastHeld(ents, buyer, lines, order, k);
    } else {
      GrantsEntitle(ents, buyer, lines, order, n - 1, k);
      StillHeld(ents, buyer, lines, order, n - 1, LineGrant(buyer, lines[k], order));
    }
  }

  /** Who gets a line: the one it is sent to, or the buyer. */
  function OwnerOf(buyer: User, line: Line): User {
    if line.recipient.Some? then line.recipient.value else buyer
  }

  /** A live row of the owner of a line for its edition: a gift to somebody else, the buyer's own otherwise. */
  predicate CoversLine(e: Entitlement, buyer: User, line: Line) {
    && e.user == OwnerOf(buyer, line) && e.edition == Some(line.edition) && !e.revoked
    && e.origin == (if line.recipient.Some? && line.recipient.value != buyer then Gift else Purchased)
  }

  /** The row an order writes for a line. */
  predicate WrittenFor(e: Entitlement, buyer: User, line: Line, order: Id) {
    CoversLine(e, buyer, line) && e.book == line.book && e.source == FromOrder(order) && e.expires.None?
  }

  ghost predicate WrittenForSome(e: Entitlement, buyer: User, lines: seq<Line>, order: Id, n: nat) {
    exists k: nat :: k < n && k < |lines| && WrittenFor(e, buyer, lines[k], order)
  }

  /** What the grants may do to an old row: it covers one of the lines and no longer ends, or it stays as it is. */
  ghost predicate StaysOrCovers(e: Entitlement, e': Entitlement, buyer: User, lines: seq<Line>, n: nat) {
    || e' == e
    || (e' == e.(expires := None) && exists k: nat :: k < n && k < |lines| && CoversLine(e, buyer, lines[k]))
  }

  lemma GrantRow(view: map<Id, Entitlement>, buyer: User, line: Line, order: Id, id: Id, i: Id)
    requires id !in view
    ensures var after := view + GrantOverlay(view, id, LineGrant(buyer, line, order));
            && (i in view ==>
                  && i in after
                  && (after[i] == view[i]
                      || (CoversLine(view[i], buyer, line) && after[i] == view[i].(expires := None))))
            && (i in after && i !in view ==> WrittenFor(after[i], buyer, line, order))
  {}

  /** Row by row: the grants write one row of the order's own for some line, or make a row that covers a line already
      never end, and touch nothing else. */
  lemma {:induction false} GrantsRowByRow(ents: map<Id, Entitlement>, buyer: User, lines: seq<Line>, order: Id, n: nat,
                                          i: Id)
    requires n <= |lines| && FreshFor(ents, order, n)
    ensures var after := GrantAll(ents, buyer, lines, order, n);
            && (i in ents ==> i in after && StaysOrCovers(ents[i], after[i], buyer, lines, n))
            && (i in after && i !in ents ==> WrittenForSome(after[i], buyer, lines, order, n))
  {
    if n > 0 {
      GrantsRowByRow(ents, buyer, lines, order, n - 1, i);
      NextIdFree(ents, buyer, lines, order, n - 1);
      GrantRow(GrantAll(ents, buyer, lines, order, n - 1), buyer, lines[n - 1], order, order + 1 + n, i);
    }
  }

  lemma GrantPassesCheck(ents: map<Id, Entitlement>, buyer: User, line: Line, order: Id, now: int)
    requires Holds(ents, LineGrant(buyer, line, order))
    ensures EditionCheck(ents, OwnerOf(buyer, line), line.edition, line.book, now)
    ensures exists i :: i in ents && CoversLine(ents[i], buyer, line) && ents[i].expires.None?
  {
    var e := LineGrant(buyer, line, order);
    var i :| i in ents && Live(ents[i]) && SameKey(ents[i], e) && ents[i].expires.None?;
    assert CoversLine(ents[i], buyer, line);
  }
}
