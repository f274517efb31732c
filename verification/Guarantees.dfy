/**
  What every run of the commerce machine guarantees, starting from an empty shop, whatever the transactions
  and however their statements interleave.
 */
module Guarantees {
  import opened Results
  import opened CommerceModel
  import opened CommerceTx
  import opened CommerceInvariants
  import opened Interleaving
  import opened InterleavingProofs
  import opened Pricing
  import opened Runs

  // ---------- what no step takes back ----------

  /** Row `i` of the documents: settled payments, resolved refunds and revoked entitlements are final, orders only
      become refunded, a subscription only gains periods. */
  predicate RowFinal(db: Db, db': Db, i: Id) {
    && (i in db.payments ==>
          && i in db'.payments
          && db'.payments[i].user == db.payments[i].user && db'.payments[i].amount == db.payments[i].amount
          && (!db.payments[i].status.PaymentPending? ==> db'.payments[i] == db.payments[i]))
    && OrderGrows(db.orders, db'.orders, i)
    && (i in db.refunds ==>
          && i in db'.refunds && db'.refunds[i].(status := db.refunds[i].status) == db.refunds[i]
          && (!db.refunds[i].status.RefundRequested? ==> db'.refunds[i] == db.refunds[i]))
    && (i in db.ents ==>
          && i in db'.ents && SameKey(db'.ents[i], db.ents[i]) && db'.ents[i].source == db.ents[i].source
          && (db.ents[i].revoked ==> db'.ents[i] == db.ents[i]))
    && (i in db.subs ==>
          && i in db'.subs && db'.subs[i].user == db.subs[i].user && db'.subs[i].firstExpiry == db.subs[i].firstExpiry
          && db.subs[i].periods <= db'.subs[i].periods)
  }

  ghost predicate Progress(db: Db, db': Db) {
    && db.ledger <= db'.ledger && db.redemptions <= db'.redemptions
    && forall i :: RowFinal(db, db', i)
  }

  lemma ProgressTransitive(a: Db, b: Db, c: Db)
    requires Progress(a, b) && Progress(b, c)
    ensures Progress(a, c)
  {
    forall i ensures RowFinal(a, c, i) {
      assert RowFinal(a, b, i) && RowFinal(b, c, i);
    }
  }

  lemma OpProgress(db: Db, op: Op, base: Id)
    requires OpEnabled(db, op) && Unused(db, base)
    ensures Progress(db, OpEffect(db, op, base))
  {
    forall i ensures RowFinal(db, OpEffect(db, op, base), i) {}
  }

  lemma GrantsFinal(ents: map<Id, Entitlement>, job: Job, base: Id, i: Id)
    requires job.PurchaseJob? && FreshFor(ents, base, |job.lines|) && i in ents
    ensures var ents' := GrantAll(ents, job.user, job.lines, base, |job.lines|);
            i in ents' && SameKey(ents'[i], ents[i]) && ents'[i].source == ents[i].source
            && (ents[i].revoked ==> ents'[i] == ents[i])
  {
    var n := |job.lines|;
    GrantOverlaysGranted(ents, job.user, job.lines, base, n);
    OverlaysAreGrants(ents, job.user, job.lines, base, n);
    var o := GrantOverlays(ents, job.user, job.lines, base, n);
    if i in o {
      assert GrantedRow(ents, o[i], i, base, n);
    }
  }

  lemma PurchaseProgress(db: Db, job: Job, base: Id)
    requires job.PurchaseJob? && JobOk(db, job) && Fresh(db, base, IdsNeeded(job)) && Atomic(db, job, base).Ok?
    ensures Progress(db, Atomic(db, job, base).value)
  {
    var db' := Atomic(db, job, base).value;
    FreshForLines(db, base, job);
    forall i ensures RowFinal(db, db', i) {
      if i in db.ents {
        GrantsFinal(db.ents, job, base, i);
      }
    }
  }

  lemma PaymentFinal(db: Db, p: Id, pay: Payment, ledger: seq<LedgerRow>, i: Id)
    requires p in db.payments && (db.payments[p].status.PaymentPending? || pay == db.payments[p])
    requires pay.user == db.payments[p].user && pay.amount == db.payments[p].amount
    ensures RowFinal(db, db.(ledger := ledger, payments := db.payments[p := pay]), i)
  {}

  lemma SettleProgress(db: Db, p: Id, base: Id)
    requires p in db.payments && Settle(db, p, base).Ok?
    ensures Progress(db, Settle(db, p, base).value)
  {
    var db' := Settle(db, p, base).value;
    assert db' == db.(ledger := db'.ledger, payments := db.payments[p := db'.payments[p]]);
    forall i ensures RowFinal(db, db', i) {
      PaymentFinal(db, p, db'.payments[p], db'.ledger, i);
    }
  }

  lemma ApproveProgress(db: Db, f: Id, base: Id)
    requires f in db.refunds && Approve(db, f, base).Ok?
    ensures Progress(db, Approve(db, f, base).value)
  {
    forall i ensures RowFinal(db, Approve(db, f, base).value, i) {}
  }

  lemma ChargeProgress(db: Db, job: Job, base: Id)
    requires (job.DebitJob? || job.CreateSubJob? || job.ExtendJob?) && JobOk(db, job) && Unused(db, base)
    requires Atomic(db, job, base).Ok?
    ensures Progress(db, Atomic(db, job, base).value)
  {
    forall i ensures RowFinal(db, Atomic(db, job, base).value, i) {}
  }

  lemma AtomicProgress(db: Db, job: Job, base: Id)
    requires JobOk(db, job) && Fresh(db, base, IdsNeeded(job)) && Atomic(db, job, base).Ok?
    ensures Progress(db, Atomic(db, job, base).value)
  {
    assert Unused(db, base);
    match job
    case PurchaseJob(_, _, _, _, _, _) => PurchaseProgress(db, job, base);
    case SettleJob(p) => SettleProgress(db, p, base);
    case ApproveJob(f) => ApproveProgress(db, f, base);
    case _ => ChargeProgress(db, job, base);
  }

  lemma NoProgress(db: Db)
    ensures Progress(db, db)
  {
    forall i ensures RowFinal(db, db, i) {}
  }

  lemma StepProgress(s: State, step: Step)
    requires Inv(s)
    ensures Progress(s.db, Apply(s, step).db)
  {
    match step
    case Auto(op) =>
      assert Unused(s.db, s.nextId);
      if OpEnabled(s.db, op) && OpLocks(op) * Held(s.txs) == {} {
        OpProgress(s.db, op, s.nextId);
      } else {
        NoProgress(s.db);
      }
    case Commit(t) =>
      if t in s.txs && s.txs[t].stage.Done? {
        assert TxAt(s, t);
        CommitIsAtomic(s.db, s.txs[t]);
        AtomicProgress(s.db, s.txs[t].job, s.txs[t].base);
      } else {
        NoProgress(s.db);
      }
    case _ => NoProgress(s.db);
  }

  /** Along any run the ledger only grows, a payment settles at most once and failed is final, a refund is
      resolved at most once, and nothing revoked comes back. */
  lemma {:induction false} PlayProgress(s: State, steps: seq<Step>)
    requires Inv(s)
    ensures Progress(s.db, Play(s, steps).db)
    decreases |steps|
  {
    if steps == [] {
      NoProgress(s.db);
    } else {
      var next := Apply(s, steps[0]);
      StepProgress(s, steps[0]);
      ApplyKeeps(s, steps[0]);
      PlayProgress(next, steps[1..]);
      ProgressTransitive(s.db, next.db, Play(next, steps[1..]).db);
    }
  }

  // ---------- the guarantees ----------

  /** The tables after a run from an empty shop. */
  function Reached(coupons: map<Id, Coupon>, plans: map<Id, Plan>, steps: seq<Step>): Db {
    Play(Empty(coupons, plans), steps).db
  }

  lemma ReachedOk(coupons: map<Id, Coupon>, plans: map<Id, Plan>, steps: seq<Step>)
    ensures DbOk(Reached(coupons, plans, steps))
  {
    EmptyInv(coupons, plans);
    PlayKeeps(Empty(coupons, plans), steps);
  }

  lemma ReachedPriced(coupons: map<Id, Coupon>, plans: map<Id, Plan>, steps: seq<Step>)
    ensures TablesPriced(Reached(coupons, plans, steps))
  {
    EmptyInv(coupons, plans);
    PlayPriced(Empty(coupons, plans), steps);
  }

  /** No user is ever overdrawn. */
  lemma NeverOverdrawn(coupons: map<Id, Coupon>, plans: map<Id, Plan>, steps: seq<Step>, u: User)
    ensures Balance(Reached(coupons, plans, steps).ledger, u) >= 0
  {
    ReachedOk(coupons, plans, steps);
  }

  /** A user holds what the documents say: succeeded top-ups, approved refunds and direct credits, less direct
      debits, orders and subscription periods. */
  lemma BooksBalance(coupons: map<Id, Coupon>, plans: map<Id, Plan>, steps: seq<Step>, u: User)
    ensures var db := Reached(coupons, plans, steps);
            Balance(db.ledger, u) ==
              Total(db.payments, PaymentPart(u)) + Total(db.refunds, RefundPart(u)) + DirectNet(db.ledger, u)
              - Total(db.orders, OrderPart(u)) - Total(db.subs, SubPart(u))
  {
    ReachedOk(coupons, plans, steps);
    assert Balanced(Reached(coupons, plans, steps), u);
  }

  /** The amount of a row is among the amounts of its document. */
  lemma {:induction false} RowListed(ledger: seq<LedgerRow>, n: nat, i: nat)
    requires i < n <= |ledger|
    ensures ledger[i].amount in Amounts(ledger[..n], ledger[i].source)
    decreases n
  {
    assert ledger[..n][..n - 1] == ledger[..n - 1];
    if i < n - 1 {
      RowListed(ledger, n - 1, i);
    }
  }

  lemma {:induction false} ChargedPeriod(periods: seq<Period>, amount: int) returns (k: nat)
    requires amount in Charged(periods)
    ensures k < |periods| && periods[k].price == amount
  {
    var n := |periods| - 1;
    if periods[n].price == amount {
      k := n;
    } else {
      k := ChargedPeriod(periods[..n], amount);
    }
  }

  /** A ledger row names a document of the same user, in the direction and with the amount that document accounts for:
      a succeeded payment, an approved refund, a paid or refunded order, or one period of a subscription. */
  predicate RowJustified(db: Db, r: LedgerRow) {
    && RowMatches(db, r)
    && match r.source
       case OrderRef(o) => db.orders[o].status.OrderPaid? || db.orders[o].status.OrderRefunded?
       case SubscriptionRef(s) => exists k :: 0 <= k < |db.subs[s].periods| && db.subs[s].periods[k].price == r.amount
       case _ => true
  }

  lemma RowIsJustified(db: Db, i: nat)
    requires RowsOk(db) && OrdersOk(db.ledger, db.redemptions, db.orders) && SubsOk(db.ledger, db.subs)
    requires i < |db.ledger|
    ensures RowJustified(db, db.ledger[i])
  {
    var r := db.ledger[i];
    assert RowAt(db, i);
    match r.source
    case OrderRef(o) => assert OrderAt(db.ledger, db.redemptions, db.orders, o);
    case SubscriptionRef(s) =>
      assert SubAt(db.ledger, db.subs, s);
      assert db.ledger[..|db.ledger|] == db.ledger;
      RowListed(db.ledger, |db.ledger|, i);
      var k := ChargedPeriod(db.subs[s].periods, r.amount);
    case _ =>
  }

  lemma RowsHaveDocuments(coupons: map<Id, Coupon>, plans: map<Id, Plan>, steps: seq<Step>, i: nat)
    requires i < |Reached(coupons, plans, steps).ledger|
    ensures var db := Reached(coupons, plans, steps); RowJustified(db, db.ledger[i])
  {
    var db := Reached(coupons, plans, steps);
    ReachedOk(coupons, plans, steps);
    RowIsJustified(db, i);
  }

  /** A payment is credited exactly once when it succeeded and never otherwise, however many callbacks ran at
      once; and once it has succeeded or failed it stays so for the rest of the run. */
  lemma CreditedOnce(coupons: map<Id, Coupon>, plans: map<Id, Plan>, steps: seq<Step>, more: seq<Step>, p: Id)
    requires p in Reached(coupons, plans, steps).payments
    ensures var db, later := Reached(coupons, plans, steps), Play(Play(Empty(coupons, plans), steps), more).db;
            && Amounts(db.ledger, TopUp(p)) ==
               (if db.payments[p].status.PaymentSucceeded? then [db.payments[p].amount] else [])
            && (!db.payments[p].status.PaymentPending? ==>
                  p in later.payments && later.payments[p] == db.payments[p]
                  && Amounts(later.ledger, TopUp(p)) == Amounts(db.ledger, TopUp(p)))
  {
    var s := Play(Empty(coupons, plans), steps);
    EmptyInv(coupons, plans);
    PlayKeeps(Empty(coupons, plans), steps);
    PlayKeeps(s, more);
    PlayProgress(s, more);
    assert PaymentAt(s.db.ledger, s.db.payments, p);
    var later := Play(s, more).db;
    assert RowFinal(s.db, later, p) && PaymentAt(later.ledger, later.payments, p);
  }

  /** An order that can be seen is paid or refunded, its prices add up, its discount is what its coupon gives on its
      subtotal, and it has one debit of its total and one redemption exactly when there is something to debit or
      redeem. */
  lemma OrdersAddUp(coupons: map<Id, Coupon>, plans: map<Id, Plan>, steps: seq<Step>, o: Id)
    requires o in Reached(coupons, plans, steps).orders
    ensures var db := Reached(coupons, plans, steps);
            var order := db.orders[o];
            && (order.status.OrderPaid? || order.status.OrderRefunded?)
            && order.subtotal == SumPrices(order.items) == order.discount + order.total
            && 0 <= order.discount <= order.subtotal
            && Amounts(db.ledger, OrderRef(o)) == (if order.total > 0 then [order.total] else [])
            && CountOrder(db.redemptions, o) == (if order.discount > 0 then 1 else 0)
            && OrderPriced(db.coupons, order)
  {
    ReachedOk(coupons, plans, steps);
    ReachedPriced(coupons, plans, steps);
    assert OrderAtPrice(Reached(coupons, plans, steps), o);
    var db := Reached(coupons, plans, steps);
    assert OrderAt(db.ledger, db.redemptions, db.orders, o);
  }

  /** A payment marked failed at any moment is never credited afterwards, whatever runs and verifies later. */
  lemma RefusedNeverCredited(coupons: map<Id, Coupon>, plans: map<Id, Plan>, steps: seq<Step>, p: Id, more: seq<Step>)
    requires var s := Play(Empty(coupons, plans), steps);
             OpEnabled(s.db, FailPayment(p)) && OpLocks(FailPayment(p)) * Held(s.txs) == {}
    ensures var s := Play(Empty(coupons, plans), steps);
            var later := Play(Apply(s, Auto(FailPayment(p))), more).db;
            && p in s.db.payments && p in later.payments
            && later.payments[p] == s.db.payments[p].(status := PaymentFailed)
            && Amounts(later.ledger, TopUp(p)) == []
  {
    var s := Play(Empty(coupons, plans), steps);
    EmptyInv(coupons, plans);
    PlayKeeps(Empty(coupons, plans), steps);
    ApplyKeeps(s, Auto(FailPayment(p)));
    var failed := Apply(s, Auto(FailPayment(p)));
    PlayKeeps(failed, more);
    PlayProgress(failed, more);
    var later := Play(failed, more).db;
    assert RowFinal(failed.db, later, p) && PaymentAt(later.ledger, later.payments, p);
  }

  /** One key of one buyer never names two orders. */
  lemma KeysNameOneOrder(coupons: map<Id, Coupon>, plans: map<Id, Plan>, steps: seq<Step>, i: Id, j: Id)
    requires var orders := Reached(coupons, plans, steps).orders;
             && i in orders && j in orders && orders[i].key != ""
             && orders[i].key == orders[j].key && orders[i].user == orders[j].user
    ensures i == j
  {
    ReachedOk(coupons, plans, steps);
    assert SameOrderKey(Reached(coupons, plans, steps).orders, i, j);
  }

  /** A refund is credited once when approved and never otherwise, and the answer given is final. */
  lemma RefundedOnce(coupons: map<Id, Coupon>, plans: map<Id, Plan>, steps: seq<Step>, more: seq<Step>, f: Id)
    requires f in Reached(coupons, plans, steps).refunds
    ensures var db, later := Reached(coupons, plans, steps), Play(Play(Empty(coupons, plans), steps), more).db;
            && Amounts(db.ledger, RefundRef(f)) ==
               (if db.refunds[f].status.RefundApproved? then [db.refunds[f].amount] else [])
            && (!db.refunds[f].status.RefundRequested? ==>
                  f in later.refunds && later.refunds[f] == db.refunds[f]
                  && Amounts(later.ledger, RefundRef(f)) == Amounts(db.ledger, RefundRef(f)))
  {
    var s := Play(Empty(coupons, plans), steps);
    EmptyInv(coupons, plans);
    PlayKeeps(Empty(coupons, plans), steps);
    PlayKeeps(s, more);
    PlayProgress(s, more);
    assert RefundAt(s.db.ledger, s.db.orders, s.db.refunds, f);
    var later := Play(s, more).db;
    assert RowFinal(s.db, later, f) && RefundAt(later.ledger, later.orders, later.refunds, f);
  }

  /** Once a refund is approved, no live entitlement names its order, then or at any later time. */
  lemma RefundEndsAccess(coupons: map<Id, Coupon>, plans: map<Id, Plan>, steps: seq<Step>, f: Id, e: Id)
    requires var db := Reached(coupons, plans, steps);
             && f in db.refunds && db.refunds[f].status.RefundApproved?
             && e in db.ents && db.ents[e].source == FromOrder(db.refunds[f].order)
    ensures !Live(Reached(coupons, plans, steps).ents[e])
  {
    ReachedOk(coupons, plans, steps);
    var db := Reached(coupons, plans, steps);
    assert RefundAt(db.ledger, db.orders, db.refunds, f) && EntAt(db.orders, db.ents, e);
  }

  /** There is never more than one live entitlement for a user, an edition and an origin. */
  lemma OneLiveEntitlement(coupons: map<Id, Coupon>, plans: map<Id, Plan>, steps: seq<Step>, i: Id, j: Id)
    requires var ents := Reached(coupons, plans, steps).ents;
             && i in ents && j in ents && Live(ents[i]) && Live(ents[j])
             && ents[i].edition.Some? && SameKey(ents[i], ents[j])
    ensures i == j
  {
    ReachedOk(coupons, plans, steps);
    assert BothLive(Reached(coupons, plans, steps).ents, i, j);
  }

  /** The entitlements once a purchase commits: one grant for each of its lines. */
  lemma CommittedGrants(s: State, t: TxId)
    requires Inv(s) && t in s.txs && s.txs[t].stage.Done? && s.txs[t].job.PurchaseJob?
    ensures var tx, lines := s.txs[t], s.txs[t].job.lines;
            && FreshFor(s.db.ents, tx.base, |lines|)
            && Apply(s, Commit(t)).db.ents == GrantAll(s.db.ents, tx.job.user, lines, tx.base, |lines|)
  {
    assert TxAt(s, t);
    CommitIsAtomic(s.db, s.txs[t]);
    FreshForLines(s.db, s.txs[t].base, s.txs[t].job);
  }

  /** The moment a purchase commits, the owner of every line passes the edition check, now and at any later time
      until something is revoked. */
  lemma PurchaseGivesAccess(s: State, t: TxId, k: nat, now: int)
    requires Inv(s) && t in s.txs && s.txs[t].stage.Done? && s.txs[t].job.PurchaseJob? && k < |s.txs[t].job.lines|
    ensures var job, line, ents := s.txs[t].job, s.txs[t].job.lines[k], Apply(s, Commit(t)).db.ents;
            && EditionCheck(ents, OwnerOf(job.user, line), line.edition, line.book, now)
            && exists i :: i in ents && CoversLine(ents[i], job.user, line) && ents[i].expires.None?
  {
    var tx := s.txs[t];
    CommittedGrants(s, t);
    GrantsEntitle(s.db.ents, tx.job.user, tx.job.lines, tx.base, |tx.job.lines|, k);
    GrantPassesCheck(Apply(s, Commit(t)).db.ents, tx.job.user, tx.job.lines[k], tx.base, now);
  }

  /** A subscription's expiry is its first expiry plus the days of the periods granted since, its ledger rows are the
      prices of exactly the priced periods, in order, and every period is what some plan charges and grants. */
  lemma PaidIsGranted(coupons: map<Id, Coupon>, plans: map<Id, Plan>, steps: seq<Step>, s: Id)
    requires s in Reached(coupons, plans, steps).subs
    ensures var db := Reached(coupons, plans, steps);
            var sub := db.subs[s];
            && sub.periods != []
            && sub.expiresAt == sub.firstExpiry + (SumDays(sub.periods) - sub.periods[0].days) * MICROS_PER_DAY
            && Amounts(db.ledger, SubscriptionRef(s)) == Charged(sub.periods)
            && PeriodsFromPlans(db.plans, sub.periods)
            && forall i :: 0 <= i < |sub.periods| ==>
                 exists p :: p in db.plans && db.plans[p].price == sub.periods[i].price
                             && db.plans[p].periodDays == sub.periods[i].days
  {
    ReachedOk(coupons, plans, steps);
    ReachedPriced(coupons, plans, steps);
    var db := Reached(coupons, plans, steps);
    assert SubAtPrice(db, s);
    assert SubAt(db.ledger, db.subs, s);
  }

  /** The committed tables of a run are those of its transactions performed whole, one at a time, in commit order. */
  lemma RunsAreSerial(coupons: map<Id, Coupon>, plans: map<Id, Plan>, steps: seq<Step>)
    ensures Serial(Empty(coupons, plans).db, History(Empty(coupons, plans), steps)) ==
              Some(Reached(coupons, plans, steps))
  {
    EmptyInv(coupons, plans);
    PlayIsSerial(Empty(coupons, plans), steps);
  }
}
