/** Every transaction and every single statement keeps the invariants of the committed tables. */
module CommerceInvariants {
  import opened Results
  import opened CommerceModel
  import opened CommerceTx

  // ---------- what an appended row leaves alone ----------

  /** Only rows that name `src` were added. */
  ghost predicate OnlyFor(ledger: seq<LedgerRow>, ledger': seq<LedgerRow>, src: Source) {
    forall s: Source :: s != src ==> Amounts(ledger', s) == Amounts(ledger, s)
  }

  lemma AppendOnlyFor(ledger: seq<LedgerRow>, r: LedgerRow)
    ensures OnlyFor(ledger, ledger + [r], r.source)
    ensures Amounts(ledger + [r], r.source) == Amounts(ledger, r.source) + [r.amount]
  {
    LedgerSnoc(ledger, r);
  }

  lemma CreditSolvent(ledger: seq<LedgerRow>, r: LedgerRow)
    requires Solvent(ledger) && r.entry.Credit? && r.amount > 0
    ensures Solvent(ledger + [r])
  {
    LedgerSnoc(ledger, r);
  }

  lemma DebitSolvent(ledger: seq<LedgerRow>, r: LedgerRow)
    requires Solvent(ledger) && r.entry.Debit? && r.amount <= Balance(ledger, r.user)
    ensures Solvent(ledger + [r])
  {
    LedgerSnoc(ledger, r);
  }

  lemma PaymentsKept(ledger: seq<LedgerRow>, ledger': seq<LedgerRow>, payments: map<Id, Payment>, src: Source)
    requires PaymentsOk(ledger, payments) && OnlyFor(ledger, ledger', src) && !src.TopUp?
    ensures PaymentsOk(ledger', payments)
  {
    forall p ensures PaymentAt(ledger', payments, p) {
      assert PaymentAt(ledger, payments, p);
    }
  }

  lemma SubsKept(ledger: seq<LedgerRow>, ledger': seq<LedgerRow>, subs: map<Id, Subscription>, src: Source)
    requires SubsOk(ledger, subs) && OnlyFor(ledger, ledger', src) && !src.SubscriptionRef?
    ensures SubsOk(ledger', subs)
  {
    forall s ensures SubAt(ledger', subs, s) {
      assert SubAt(ledger, subs, s);
    }
  }

  lemma OrdersKept(ledger: seq<LedgerRow>, ledger': seq<LedgerRow>, rs: seq<Redemption>, orders: map<Id, Order>,
                   src: Source)
    requires OrdersOk(ledger, rs, orders) && OnlyFor(ledger, ledger', src) && !src.OrderRef?
    ensures OrdersOk(ledger', rs, orders)
  {
    forall o ensures OrderAt(ledger', rs, orders, o) {
      assert OrderAt(ledger, rs, orders, o);
    }
  }

  predicate OrderGrows(orders: map<Id, Order>, orders': map<Id, Order>, o: Id) {
    o in orders ==>
      && o in orders'
      && orders'[o].(status := orders[o].status) == orders[o]
      && (orders[o].status.OrderRefunded? ==> orders'[o].status.OrderRefunded?)
  }

  /** Orders are added, or change status to refunded; nothing else about them changes. */
  ghost predicate OrdersGrow(orders: map<Id, Order>, orders': map<Id, Order>) {
    forall o :: OrderGrows(orders, orders', o)
  }

  lemma RefundsKept(ledger: seq<LedgerRow>, ledger': seq<LedgerRow>, orders: map<Id, Order>, orders': map<Id, Order>,
                    refunds: map<Id, Refund>, src: Source)
    requires RefundsOk(ledger, orders, refunds) && OnlyFor(ledger, ledger', src) && !src.RefundRef?
    requires OrdersGrow(orders, orders')
    ensures RefundsOk(ledger', orders', refunds)
  {
    forall f ensures RefundAt(ledger', orders', refunds, f) {
      assert RefundAt(ledger, orders, refunds, f);
      if f in refunds {
        assert OrderGrows(orders, orders', refunds[f].order);
      }
    }
  }

  /** A payment, a subscription or a refund keeps what its ledger rows say about it. */
  predicate DocumentKept(db: Db, db': Db, i: Id) {
    && (i in db.payments && db.payments[i].status.PaymentSucceeded? ==>
          i in db'.payments && db'.payments[i] == db.payments[i])
    && (i in db.subs ==> i in db'.subs && db'.subs[i].user == db.subs[i].user)
    && (i in db.refunds ==>
          && i in db'.refunds && db'.refunds[i].(status := db.refunds[i].status) == db.refunds[i]
          && (db.refunds[i].status.RefundApproved? ==> db'.refunds[i].status.RefundApproved?))
  }

  /** Rows that matched keep matching when no document they name loses its user, amount or settled status. */
  ghost predicate KeepsDocuments(db: Db, db': Db) {
    OrdersGrow(db.orders, db'.orders) && forall i :: DocumentKept(db, db', i)
  }

  lemma RowStillMatches(db: Db, db': Db, r: LedgerRow)
    requires RowMatches(db, r) && KeepsDocuments(db, db')
    ensures RowMatches(db', r)
  {
    match r.source
    case TopUp(p) => assert DocumentKept(db, db', p);
    case OrderRef(o) => assert OrderGrows(db.orders, db'.orders, o);
    case SubscriptionRef(s) => assert DocumentKept(db, db', s);
    case RefundRef(f) => assert DocumentKept(db, db', f);
    case Direct =>
  }

  lemma RowsKept(db: Db, db': Db, added: seq<LedgerRow>)
    requires RowsOk(db) && KeepsDocuments(db, db') && db'.ledger == db.ledger + added
    requires forall i :: 0 <= i < |added| ==> RowMatches(db', added[i])
    ensures RowsOk(db')
  {
    forall i: nat ensures RowAt(db', i) {
      if i < |db.ledger| {
        assert RowAt(db, i);
        RowStillMatches(db, db', db.ledger[i]);
      }
    }
  }

  // ---------- one row replaced ----------

  lemma PaymentsUpdated(ledger: seq<LedgerRow>, ledger': seq<LedgerRow>, payments: map<Id, Payment>, p: Id,
                        pay: Payment)
    requires PaymentsOk(ledger, payments) && OnlyFor(ledger, ledger', TopUp(p)) && PaymentOk(ledger', p, pay)
    ensures PaymentsOk(ledger', payments[p := pay])
  {
    var payments' := payments[p := pay];
    forall x ensures PaymentAt(ledger', payments', x) {
      assert PaymentAt(ledger, payments, x);
    }
  }

  lemma SubsUpdated(ledger: seq<LedgerRow>, ledger': seq<LedgerRow>, subs: map<Id, Subscription>, s: Id,
                    sub: Subscription)
    requires SubsOk(ledger, subs) && OnlyFor(ledger, ledger', SubscriptionRef(s)) && SubOk(ledger', s, sub)
    ensures SubsOk(ledger', subs[s := sub])
  {
    var subs' := subs[s := sub];
    forall x ensures SubAt(ledger', subs', x) {
      assert SubAt(ledger, subs, x);
    }
  }

  lemma RefundsUpdated(ledger: seq<LedgerRow>, ledger': seq<LedgerRow>, orders: map<Id, Order>, orders': map<Id, Order>,
                       refunds: map<Id, Refund>, f: Id, ref: Refund)
    requires RefundsOk(ledger, orders, refunds) && OnlyFor(ledger, ledger', RefundRef(f)) && OrdersGrow(orders, orders')
    requires RefundOk(ledger', orders', f, ref)
    ensures RefundsOk(ledger', orders', refunds[f := ref])
  {
    var refunds' := refunds[f := ref];
    forall x ensures RefundAt(ledger', orders', refunds', x) {
      assert RefundAt(ledger, orders, refunds, x);
      if x in refunds {
        assert OrderGrows(orders, orders', refunds[x].order);
      }
    }
  }

  lemma OrdersUpdated(ledger: seq<LedgerRow>, ledger': seq<LedgerRow>, rs: seq<Redemption>, rs': seq<Redemption>,
                      orders: map<Id, Order>, o: Id, order: Order)
    requires OrdersOk(ledger, rs, orders) && OnlyFor(ledger, ledger', OrderRef(o))
    requires forall x :: x != o ==> CountOrder(rs', x) == CountOrder(rs, x)
    requires OrderOk(ledger', rs', o, order)
    ensures OrdersOk(ledger', rs', orders[o := order])
  {
    var orders' := orders[o := order];
    forall x ensures OrderAt(ledger', rs', orders', x) {
      assert OrderAt(ledger, rs, orders, x);
    }
  }

  // ---------- debits ----------

  lemma DirectRowBalanced(db: Db, r: LedgerRow, u: User)
    requires Balanced(db, u) && r.source.Direct?
    ensures Balanced(db.(ledger := db.ledger + [r]), u)
  {
    var db' := db.(ledger := db.ledger + [r]);
    var delta := if r.user == u then Signed(r) else 0;
    LedgerSnoc(db.ledger, r);
    assert Balance(db'.ledger, u) == Balance(db.ledger, u) + delta;
    assert DirectNet(db'.ledger, u) == DirectNet(db.ledger, u) + delta;
    assert Documents(db', u) == Documents(db, u) + delta;
  }

  lemma DirectRowBooks(db: Db, r: LedgerRow)
    requires Books(db) && r.source.Direct?
    ensures Books(db.(ledger := db.ledger + [r]))
  {
    var db' := db.(ledger := db.ledger + [r]);
    forall u ensures Balanced(db', u) {
      assert Balanced(db, u);
      DirectRowBalanced(db, r, u);
    }
  }

  /** Appending a row that names no document: a direct debit within the balance, or a credit. */
  lemma DirectRowKeeps(db: Db, r: LedgerRow)
    requires DbOk(db) && r.source.Direct? && r.amount > 0
    requires r.entry.Debit? ==> r.amount <= Balance(db.ledger, r.user)
    ensures DbOk(db.(ledger := db.ledger + [r]))
  {
    var db' := db.(ledger := db.ledger + [r]);
    AppendOnlyFor(db.ledger, r);
    if r.entry.Debit? { DebitSolvent(db.ledger, r); } else { CreditSolvent(db.ledger, r); }
    PaymentsKept(db.ledger, db'.ledger, db.payments, Direct);
    SubsKept(db.ledger, db'.ledger, db.subs, Direct);
    OrdersKept(db.ledger, db'.ledger, db.redemptions, db.orders, Direct);
    RefundsKept(db.ledger, db'.ledger, db.orders, db'.orders, db.refunds, Direct);
    RowsKept(db, db', [r]);
    DirectRowBooks(db, r);
  }

  /** What a charge adds to the rows of its document, and to nothing else. */
  lemma ChargeRowsAmounts(db: Db, job: Job, base: Id)
    requires JobOk(db, job)
    ensures var ledger' := db.ledger + ChargeRows(db, job, base);
            && OnlyFor(db.ledger, ledger', ChargeSource(job, base))
            && Amounts(ledger', ChargeSource(job, base)) ==
               Amounts(db.ledger, ChargeSource(job, base)) + (if ChargeOf(job) > 0 then [ChargeOf(job)] else [])
  {
    if ChargeOf(job) > 0 {
      AppendOnlyFor(db.ledger, ChargeRow(db, job, base));
    } else {
      assert db.ledger + [] == db.ledger;
    }
  }

  lemma ChargeSolvent(db: Db, job: Job, base: Id)
    requires Solvent(db.ledger) && JobOk(db, job) && Charge(db, job, base).Ok?
    ensures Solvent(db.ledger + ChargeRows(db, job, base))
  {
    if ChargeOf(job) > 0 {
      DebitSolvent(db.ledger, ChargeRow(db, job, base));
    } else {
      assert db.ledger + [] == db.ledger;
    }
  }

  // ---------- settlement ----------

  lemma NoRowsUnlessSettled(db: Db, p: Id)
    requires RowsOk(db) && PaymentsOk(db.ledger, db.payments)
    requires p in db.payments ==> !db.payments[p].status.PaymentSucceeded?
    ensures Amounts(db.ledger, TopUp(p)) == []
  {
    if p in db.payments {
      assert PaymentAt(db.ledger, db.payments, p);
    } else {
      NoRowsAtAll(db, TopUp(p));
    }
  }

  /** The rows a payment write adds: its credit when it has just succeeded, none otherwise. */
  predicate PaymentAdds(p: Id, pay: Payment, added: seq<LedgerRow>) {
    if pay.status.PaymentSucceeded? then
      && |added| == 1 && added[0] == LedgerRow(added[0].id, pay.user, Credit, pay.amount, TopUp(p))
      && pay.entry == Some(added[0].id)
    else added == []
  }

  lemma PaymentLedger(db: Db, db': Db, p: Id, pay: Payment, added: seq<LedgerRow>)
    requires RowsOk(db) && PaymentsOk(db.ledger, db.payments) && Solvent(db.ledger) && pay.amount > 0
    requires PaymentAdds(p, pay, added)
    requires p in db.payments ==> db.payments[p].status.PaymentPending?
    requires db' == db.(payments := db.payments[p := pay], ledger := db.ledger + added)
    ensures OnlyFor(db.ledger, db'.ledger, TopUp(p)) && Solvent(db'.ledger) && PaymentOk(db'.ledger, p, pay)
  {
    NoRowsUnlessSettled(db, p);
    if added == [] {
      assert db'.ledger == db.ledger;
    } else {
      assert added == [added[0]];
      AppendOnlyFor(db.ledger, added[0]);
      CreditSolvent(db.ledger, added[0]);
    }
  }

  lemma PaymentBooks(db: Db, db': Db, p: Id, pay: Payment, added: seq<LedgerRow>)
    requires Books(db) && (p in db.payments ==> db.payments[p].status.PaymentPending?) && PaymentAdds(p, pay, added)
    requires db' == db.(payments := db.payments[p := pay], ledger := db.ledger + added)
    ensures Books(db')
  {
    if added == [] {
      assert db'.ledger == db.ledger;
    } else {
      assert added == [added[0]];
      LedgerSnoc(db.ledger, added[0]);
    }
    forall u ensures Balanced(db', u) {
      assert Balanced(db, u);
      TotalUpdate(db.payments, p, pay, PaymentPart(u));
    }
  }

  /** Replacing one payment, and appending the credit that belongs to it when it has just succeeded. */
  lemma PaymentWritten(db: Db, db': Db, p: Id, pay: Payment, added: seq<LedgerRow>)
    requires DbOk(db) && pay.amount > 0 && PaymentAdds(p, pay, added)
    requires p in db.payments ==> db.payments[p].status.PaymentPending?
    requires db' == db.(payments := db.payments[p := pay], ledger := db.ledger + added)
    ensures DbOk(db')
  {
    PaymentLedger(db, db', p, pay, added);
    assert RowsOk(db') by { RowsKept(db, db', added); }
    SubsKept(db.ledger, db'.ledger, db.subs, TopUp(p));
    OrdersKept(db.ledger, db'.ledger, db.redemptions, db.orders, TopUp(p));
    RefundsKept(db.ledger, db'.ledger, db.orders, db'.orders, db.refunds, TopUp(p));
    PaymentBooks(db, db', p, pay, added);
    PaymentsUpdated(db.ledger, db'.ledger, db.payments, p, pay);
  }

  // ---------- subscriptions ----------

  lemma ChargedSnoc(periods: seq<Period>, p: Period)
    ensures Charged(periods + [p]) == Charged(periods) + (if p.price > 0 then [p.price] else [])
    ensures SumDays(periods + [p]) == SumDays(periods) + p.days
    ensures SumPeriodPrices(periods + [p]) == SumPeriodPrices(periods) + p.price
  {
    assert (periods + [p])[..|periods|] == periods;
  }

  /** An extension moves the expiry by the length of its period. */
  lemma ExtendedExpiry(s: Subscription, price: int, days: nat)
    requires s.periods != []
    ensures var periods := s.periods + [Period(price, days)];
            SumDays(periods) - periods[0].days == SumDays(s.periods) - s.periods[0].days + days
  {
    ChargedSnoc(s.periods, Period(price, days));
    assert (s.periods + [Period(price, days)])[0] == s.periods[0];
  }

  lemma ExtendedOk(ledger: seq<LedgerRow>, ledger': seq<LedgerRow>, id: Id, s: Subscription, price: int, days: nat,
                   reactivate: bool)
    requires SubOk(ledger, id, s) && price >= 0
    requires Amounts(ledger', SubscriptionRef(id)) ==
             Amounts(ledger, SubscriptionRef(id)) + (if price > 0 then [price] else [])
    ensures SubOk(ledger', id, Extended(s, price, days, reactivate))
  {
    ChargedSnoc(s.periods, Period(price, days));
    ExtendedExpiry(s, price, days);
  }

  lemma NewSubOk(ledger: seq<LedgerRow>, job: Job, id: Id)
    requires job.CreateSubJob? && job.price >= 0
    requires Amounts(ledger, SubscriptionRef(id)) == (if job.price > 0 then [job.price] else [])
    ensures SubOk(ledger, id, NewSub(job))
    ensures SumPeriodPrices(NewSub(job).periods) == job.price
  {
    var p := Period(job.price, job.days);
    ChargedSnoc([], p);
    assert [] + [p] == [p];
  }

  /** The rows a subscription write adds: one debit of the price of the granted period, if it has one. */
  predicate SubAdds(s: Id, sub: Subscription, price: int, added: seq<LedgerRow>) {
    if price > 0 then
      |added| == 1 && added[0] == LedgerRow(added[0].id, sub.user, Debit, price, SubscriptionRef(s))
    else added == []
  }

  lemma SubLedger(db: Db, db': Db, s: Id, sub: Subscription, price: int, added: seq<LedgerRow>)
    requires Solvent(db.ledger) && SubAdds(s, sub, price, added)
    requires price > 0 ==> price <= Balance(db.ledger, sub.user)
    requires db'.ledger == db.ledger + added
    ensures OnlyFor(db.ledger, db'.ledger, SubscriptionRef(s)) && Solvent(db'.ledger)
  {
    if added == [] {
      assert db'.ledger == db.ledger;
    } else {
      assert added == [added[0]];
      AppendOnlyFor(db.ledger, added[0]);
      DebitSolvent(db.ledger, added[0]);
    }
  }

  lemma SubBooks(db: Db, db': Db, s: Id, sub: Subscription, price: int, added: seq<LedgerRow>)
    requires Books(db) && price >= 0 && SubAdds(s, sub, price, added)
    requires db' == db.(subs := db.subs[s := sub], ledger := db.ledger + added)
    requires s in db.subs ==> db.subs[s].user == sub.user
    requires SumPeriodPrices(sub.periods) == (if s in db.subs then SumPeriodPrices(db.subs[s].periods) else 0) + price
    ensures Books(db')
  {
    if added == [] {
      assert db'.ledger == db.ledger;
    } else {
      assert added == [added[0]];
      LedgerSnoc(db.ledger, added[0]);
    }
    forall u ensures Balanced(db', u) {
      assert Balanced(db, u);
      TotalUpdate(db.subs, s, sub, SubPart(u));
    }
  }

  /** Writing one subscription row together with the charge for the period it was granted. */
  lemma SubWritten(db: Db, db': Db, s: Id, sub: Subscription, price: int, added: seq<LedgerRow>)
    requires DbOk(db) && price >= 0 && SubAdds(s, sub, price, added)
    requires price > 0 ==> price <= Balance(db.ledger, sub.user)
    requires db' == db.(subs := db.subs[s := sub], ledger := db.ledger + added)
    requires SubOk(db'.ledger, s, sub)
    requires s in db.subs ==> db.subs[s].user == sub.user
    requires SumPeriodPrices(sub.periods) == (if s in db.subs then SumPeriodPrices(db.subs[s].periods) else 0) + price
    ensures DbOk(db')
  {
    var src := SubscriptionRef(s);
    SubLedger(db, db', s, sub, price, added);
    assert RowsOk(db') by { RowsKept(db, db', added); }
    PaymentsKept(db.ledger, db'.ledger, db.payments, src);
    OrdersKept(db.ledger, db'.ledger, db.redemptions, db.orders, src);
    RefundsKept(db.ledger, db'.ledger, db.orders, db'.orders, db.refunds, src);
    SubBooks(db, db', s, sub, price, added);
    SubsUpdated(db.ledger, db'.ledger, db.subs, s, sub);
  }

  lemma CreateSubKeeps(db: Db, job: Job, base: Id)
    requires DbOk(db) && job.CreateSubJob? && JobOk(db, job) && Unused(db, base) && Atomic(db, job, base).Ok?
    ensures DbOk(Atomic(db, job, base).value)
  {
    var db' := Atomic(db, job, base).value;
    NoRowsAtAll(db, SubscriptionRef(base));
    ChargeRowsAmounts(db, job, base);
    NewSubOk(db'.ledger, job, base);
    SubWritten(db, db', base, NewSub(job), job.price, ChargeRows(db, job, base));
  }

  lemma ExtendKeeps(db: Db, job: Job, base: Id)
    requires DbOk(db) && job.ExtendJob? && JobOk(db, job) && Atomic(db, job, base).Ok?
    ensures DbOk(Atomic(db, job, base).value)
  {
    var db' := Atomic(db, job, base).value;
    var s := db.subs[job.sub];
    assert SubAt(db.ledger, db.subs, job.sub);
    ChargeRowsAmounts(db, job, base);
    ExtendedOk(db.ledger, db'.ledger, job.sub, s, job.price, job.days, job.reactivate);
    ChargedSnoc(s.periods, Period(job.price, job.days));
    SubWritten(db, db', job.sub, Extended(s, job.price, job.days, job.reactivate), job.price,
               ChargeRows(db, job, base));
  }

  // ---------- refunds ----------

  ghost function RefundedOrders(orders: map<Id, Order>, o: Id): map<Id, Order>
    requires o in orders
  {
    orders[o := orders[o].(status := OrderRefunded)]
  }

  lemma ApproveBooks(db: Db, f: Id, r: LedgerRow, db': Db)
    requires Books(db) && f in db.refunds && db.refunds[f].status.RefundRequested? && db.refunds[f].order in db.orders
    requires !db.orders[db.refunds[f].order].status.OrderPending?
    requires r.user == db.refunds[f].user && r.entry.Credit? && r.amount == db.refunds[f].amount
    requires r.source == RefundRef(f)
    requires db' == db.(ledger := db.ledger + [r], refunds := db.refunds[f := db.refunds[f].(status := RefundApproved)],
                        orders := RefundedOrders(db.orders, db.refunds[f].order), ents := db'.ents)
    ensures Books(db')
  {
    LedgerSnoc(db.ledger, r);
    var o := db.refunds[f].order;
    forall u ensures Balanced(db', u) {
      assert Balanced(db, u);
      TotalUpdate(db.refunds, f, db'.refunds[f], RefundPart(u));
      TotalUpdate(db.orders, o, db'.orders[o], OrderPart(u));
    }
  }

  lemma RevokedEntsOk(orders: map<Id, Order>, ents: map<Id, Entitlement>, o: Id)
    requires EntsOk(orders, ents) && EntsUnique(ents) && o in orders
    ensures var ents' := ents + RevokeOverlay(ents, o);
            var orders' := RefundedOrders(orders, o);
            EntsOk(orders', ents') && EntsUnique(ents')
  {
    var ents' := ents + RevokeOverlay(ents, o);
    var orders' := RefundedOrders(orders, o);
    forall e ensures EntAt(orders', ents', e) {
      assert EntAt(orders, ents, e);
    }
    forall i, j | BothLive(ents', i, j) ensures i == j {
      assert BothLive(ents, i, j);
    }
  }

  lemma OrderRefundedOk(ledger: seq<LedgerRow>, rs: seq<Redemption>, orders: map<Id, Order>, o: Id)
    requires OrdersOk(ledger, rs, orders) && RedemptionsOk(orders, rs) && KeysUnique(orders) && o in orders
    ensures var orders' := RefundedOrders(orders, o);
            && OrdersOk(ledger, rs, orders') && RedemptionsOk(orders', rs)
            && KeysUnique(orders') && OrdersGrow(orders, orders')
  {
    var orders' := RefundedOrders(orders, o);
    forall x ensures OrderAt(ledger, rs, orders', x) {
      assert OrderAt(ledger, rs, orders, x);
    }
    forall i: nat ensures RedemptionAt(orders', rs, i) {
      assert RedemptionAt(orders, rs, i);
    }
    forall i, j | SameOrderKey(orders', i, j) ensures i == j {
      assert SameOrderKey(orders, i, j);
    }
  }

  lemma ApproveLedger(db: Db, f: Id, r: LedgerRow, db': Db)
    requires RowsOk(db) && Solvent(db.ledger) && f in db.refunds && db.refunds[f].status.RefundRequested?
    requires RefundOk(db.ledger, db.orders, f, db.refunds[f])
    requires r == LedgerRow(r.id, db.refunds[f].user, Credit, db.refunds[f].amount, RefundRef(f))
    requires db' == db.(ledger := db.ledger + [r], refunds := db.refunds[f := db.refunds[f].(status := RefundApproved)],
                        orders := RefundedOrders(db.orders, db.refunds[f].order), ents := db'.ents)
    ensures Solvent(db'.ledger) && OnlyFor(db.ledger, db'.ledger, RefundRef(f))
    ensures RefundOk(db'.ledger, db'.orders, f, db'.refunds[f])
    ensures RowsOk(db')
  {
    AppendOnlyFor(db.ledger, r);
    CreditSolvent(db.ledger, r);
    RowsKept(db, db', [r]);
  }

  /** What an approval writes, table by table. */
  lemma ApproveShape(db: Db, f: Id, base: Id)
    requires f in db.refunds && Approve(db, f, base).Ok? && db.refunds[f].order in db.orders && db.refunds[f].amount > 0
    ensures var ref := db.refunds[f];
            Approve(db, f, base).value ==
            db.(ledger := db.ledger + [LedgerRow(base + 1, ref.user, Credit, ref.amount, RefundRef(f))],
                refunds := db.refunds[f := ref.(status := RefundApproved)],
                orders := RefundedOrders(db.orders, ref.order), ents := db.ents + RevokeOverlay(db.ents, ref.order))
  {
    var ref := db.refunds[f];
    assert Approve(db, f, base).value.orders == RefundedOrders(db.orders, ref.order);
  }

  lemma ApprovedOk(db: Db, f: Id, r: LedgerRow, db': Db)
    requires DbOk(db) && f in db.refunds && db.refunds[f].status.RefundRequested?
    requires RefundOk(db.ledger, db.orders, f, db.refunds[f]) && !db.orders[db.refunds[f].order].status.OrderPending?
    requires r == LedgerRow(r.id, db.refunds[f].user, Credit, db.refunds[f].amount, RefundRef(f))
    requires db' == db.(ledger := db.ledger + [r], refunds := db.refunds[f := db.refunds[f].(status := RefundApproved)],
                        orders := RefundedOrders(db.orders, db.refunds[f].order),
                        ents := db.ents + RevokeOverlay(db.ents, db.refunds[f].order))
    ensures DbOk(db')
  {
    var src := RefundRef(f);
    var o := db.refunds[f].order;
    ApproveLedger(db, f, r, db');
    OrdersKept(db.ledger, db'.ledger, db.redemptions, db.orders, src);
    OrderRefundedOk(db'.ledger, db.redemptions, db.orders, o);
    RevokedEntsOk(db.orders, db.ents, o);
    PaymentsKept(db.ledger, db'.ledger, db.payments, src);
    SubsKept(db.ledger, db'.ledger, db.subs, src);
    ApproveBooks(db, f, r, db');
    RefundsUpdated(db.ledger, db'.ledger, db.orders, db'.orders, db.refunds, f, db'.refunds[f]);
  }

  lemma ApproveKeeps(db: Db, f: Id, base: Id)
    requires DbOk(db) && f in db.refunds && Approve(db, f, base).Ok?
    ensures DbOk(Approve(db, f, base).value)
  {
    var ref := db.refunds[f];
    assert RefundAt(db.ledger, db.orders, db.refunds, f);
    assert OrderAt(db.ledger, db.redemptions, db.orders, ref.order);
    ApproveShape(db, f, base);
    ApprovedOk(db, f, LedgerRow(base + 1, ref.user, Credit, ref.amount, RefundRef(f)), Approve(db, f, base).value);
  }

  lemma RefundWrittenBooks(db: Db, db': Db, f: Id, ref: Refund)
    requires Books(db) && db' == db.(refunds := db.refunds[f := ref]) && !ref.status.RefundApproved?
    requires f in db.refunds ==> !db.refunds[f].status.RefundApproved?
    ensures Books(db')
  {
    forall u ensures Balanced(db', u) {
      assert Balanced(db, u);
      TotalUpdate(db.refunds, f, ref, RefundPart(u));
    }
  }

  /** A refund row inserted or rejected: no ledger row belongs to it. */
  lemma RefundWritten(db: Db, db': Db, f: Id, ref: Refund)
    requires DbOk(db) && db' == db.(refunds := db.refunds[f := ref]) && !ref.status.RefundApproved?
    requires f in db.refunds ==>
               db.refunds[f].status.RefundRequested? && ref == db.refunds[f].(status := RefundRejected)
    requires f !in db.refunds ==>
               && ref.amount > 0 && ref.order in db.orders
               && ref.user == db.orders[ref.order].user && ref.amount == db.orders[ref.order].total
    ensures DbOk(db')
  {
    assert RefundOk(db.ledger, db.orders, f, ref) by {
      if f in db.refunds {
        assert RefundAt(db.ledger, db.orders, db.refunds, f);
      } else {
        NoRowsAtAll(db, RefundRef(f));
      }
    }
    assert RowsOk(db') by {
      assert db'.ledger == db.ledger + [];
      RowsKept(db, db', []);
    }
    RefundWrittenBooks(db, db', f, ref);
    RefundsUpdated(db.ledger, db'.ledger, db.orders, db'.orders, db.refunds, f, ref);
  }

  // ---------- purchase ----------

  lemma NewOrderOk(ledger: seq<LedgerRow>, rs: seq<Redemption>, job: Job, base: Id)
    requires job.PurchaseJob? && job.lines != [] && (forall i :: 0 <= i < |job.lines| ==> job.lines[i].price >= 0)
    requires 0 <= job.discount <= SumPrices(job.lines)
    requires Amounts(ledger, OrderRef(base)) == (if ChargeOf(job) > 0 then [ChargeOf(job)] else [])
    requires CountOrder(rs, base) == (if job.discount > 0 then 1 else 0)
    ensures OrderOk(ledger, rs, base, NewOrder(job, OrderPaid, job.lines))
  {}

  lemma RedemptionsAppended(orders: map<Id, Order>, rs: seq<Redemption>, job: Job, base: Id)
    requires job.PurchaseJob? && (job.coupon.Some? <==> job.discount > 0)
    requires RedemptionsOk(orders, rs) && base !in orders
    ensures var rs', orders' := rs + NewRedemptions(job, base), orders[base := NewOrder(job, OrderPaid, job.lines)];
            && RedemptionsOk(orders', rs')
            && CountOrder(rs', base) == (if job.discount > 0 then 1 else 0)
            && (forall x :: x != base ==> CountOrder(rs', x) == CountOrder(rs, x))
  {
    var rs', orders' := rs + NewRedemptions(job, base), orders[base := NewOrder(job, OrderPaid, job.lines)];
    NoRedemptions(orders, rs, base);
    if job.discount > 0 {
      RedemptionSnoc(rs, Redemption(job.coupon.value, job.user, base, job.discount));
    } else {
      assert rs' == rs;
    }
    forall i: nat ensures RedemptionAt(orders', rs', i) {
      assert RedemptionAt(orders, rs, i);
    }
  }

  lemma KeysKept(orders: map<Id, Order>, o: Id, order: Order)
    requires KeysUnique(orders) && o !in orders && !KeyTaken(orders, order.user, order.key)
    ensures KeysUnique(orders[o := order])
  {
    var orders' := orders[o := order];
    forall i, j | SameOrderKey(orders', i, j) ensures i == j {
      if i != o && j != o {
        assert SameOrderKey(orders, i, j);
      }
    }
  }

  lemma PurchaseLedger(db: Db, job: Job, base: Id)
    requires RowsOk(db) && job.PurchaseJob? && JobOk(db, job) && base !in db.orders
    ensures var ledger' := db.ledger + ChargeRows(db, job, base);
            Amounts(ledger', OrderRef(base)) == (if ChargeOf(job) > 0 then [ChargeOf(job)] else [])
  {
    NoRowsAtAll(db, OrderRef(base));
    ChargeRowsAmounts(db, job, base);
  }

  lemma PurchaseRows(db: Db, job: Job, base: Id, db': Db)
    requires RowsOk(db) && job.PurchaseJob? && JobOk(db, job) && base !in db.orders
    requires db'.orders == db.orders[base := NewOrder(job, OrderPaid, job.lines)]
    requires db'.ledger == db.ledger + ChargeRows(db, job, base)
    requires db'.payments == db.payments && db'.refunds == db.refunds && db'.subs == db.subs
    ensures RowsOk(db') && OrdersGrow(db.orders, db'.orders)
  {
    RowsKept(db, db', ChargeRows(db, job, base));
  }

  lemma PurchaseBooks(db: Db, db': Db, o: Id, order: Order, added: seq<LedgerRow>)
    requires Books(db) && o !in db.orders && db'.orders == db.orders[o := order] && order.status.OrderPaid?
    requires db'.ledger == db.ledger + added
    requires db'.payments == db.payments && db'.refunds == db.refunds && db'.subs == db.subs
    requires if order.total > 0
             then |added| == 1 && added[0] == LedgerRow(added[0].id, order.user, Debit, order.total, OrderRef(o))
             else order.total == 0 && added == []
    ensures Books(db')
  {
    if added == [] {
      assert db'.ledger == db.ledger;
    } else {
      assert added == [added[0]];
      LedgerSnoc(db.ledger, added[0]);
    }
    forall u ensures Balanced(db', u) {
      assert Balanced(db, u);
      TotalUpdate(db.orders, o, order, OrderPart(u));
    }
  }

  lemma NewGrantsOk(orders: map<Id, Order>, ents: map<Id, Entitlement>, o: map<Id, Entitlement>, base: Id, order: Order,
                    n: nat)
    requires EntsOk(orders, ents) && Granted(ents, o, base, n) && base !in orders && !order.status.OrderRefunded?
    ensures EntsOk(orders[base := order], ents + o)
  {
    var orders', ents' := orders[base := order], ents + o;
    forall e ensures EntAt(orders', ents', e) {
      if e in o {
        assert GrantedRow(ents, o[e], e, base, n);
      }
      assert EntAt(orders, ents, e);
    }
  }

  lemma PurchaseEnts(orders: map<Id, Order>, ents: map<Id, Entitlement>, job: Job, base: Id)
    requires job.PurchaseJob? && EntsOk(orders, ents) && EntsUnique(ents) && base !in orders
    requires FreshFor(ents, base, |job.lines|)
    ensures var ents' := GrantAll(ents, job.user, job.lines, base, |job.lines|);
            EntsUnique(ents') && EntsOk(orders[base := NewOrder(job, OrderPaid, job.lines)], ents')
  {
    var n := |job.lines|;
    GrantAllUnique(ents, job.user, job.lines, base, n);
    GrantOverlaysGranted(ents, job.user, job.lines, base, n);
    OverlaysAreGrants(ents, job.user, job.lines, base, n);
    NewGrantsOk(orders, ents, GrantOverlays(ents, job.user, job.lines, base, n), base,
                NewOrder(job, OrderPaid, job.lines), n);
  }

  lemma FreshForLines(db: Db, base: Id, job: Job)
    requires job.PurchaseJob? && Fresh(db, base, IdsNeeded(job))
    ensures FreshFor(db.ents, base, |job.lines|) && Unused(db, base)
  {
    assert Unused(db, base);
    forall i | base + 2 <= i < base + 2 + |job.lines| ensures i !in db.ents {
      assert Unused(db, i);
    }
  }

  lemma PurchasedOk(db: Db, job: Job, base: Id, db': Db)
    requires DbOk(db) && job.PurchaseJob? && JobOk(db, job) && Unused(db, base) && FreshFor(db.ents, base, |job.lines|)
    requires Solvent(db'.ledger) && !KeyTaken(db.orders, job.user, job.key)
    requires db' == db.(ledger := db.ledger + ChargeRows(db, job, base),
                        orders := db.orders[base := NewOrder(job, OrderPaid, job.lines)],
                        ents := GrantAll(db.ents, job.user, job.lines, base, |job.lines|),
                        redemptions := db.redemptions + NewRedemptions(job, base))
    ensures DbOk(db')
  {
    var src := OrderRef(base);
    var order := NewOrder(job, OrderPaid, job.lines);
    ChargeRowsAmounts(db, job, base);
    PurchaseLedger(db, job, base);
    PurchaseRows(db, job, base, db');
    PaymentsKept(db.ledger, db'.ledger, db.payments, src);
    SubsKept(db.ledger, db'.ledger, db.subs, src);
    RefundsKept(db.ledger, db'.ledger, db.orders, db'.orders, db.refunds, src);
    RedemptionsAppended(db.orders, db.redemptions, job, base);
    NewOrderOk(db'.ledger, db'.redemptions, job, base);
    OrdersUpdated(db.ledger, db'.ledger, db.redemptions, db'.redemptions, db.orders, base, order);
    KeysKept(db.orders, base, order);
    PurchaseEnts(db.orders, db.ents, job, base);
    PurchaseBooks(db, db', base, order, ChargeRows(db, job, base));
  }

  lemma PurchaseKeeps(db: Db, job: Job, base: Id)
    requires DbOk(db) && job.PurchaseJob? && JobOk(db, job) && Fresh(db, base, IdsNeeded(job))
    requires Atomic(db, job, base).Ok?
    ensures DbOk(Atomic(db, job, base).value)
  {
    FreshForLines(db, base, job);
    ChargeSolvent(db, job, base);
    PurchasedOk(db, job, base, Atomic(db, job, base).value);
  }

  // ---------- all of them ----------

  /** Every transaction that succeeds leaves the tables consistent: nobody is overdrawn, each document has
      exactly its ledger rows, the books balance, orders add up, entitlements stay unique. */
  lemma AtomicKeeps(db: Db, job: Job, base: Id)
    requires DbOk(db) && JobOk(db, job) && Fresh(db, base, IdsNeeded(job)) && Atomic(db, job, base).Ok?
    ensures DbOk(Atomic(db, job, base).value)
  {
    assert Unused(db, base);
    match job
    case DebitJob(_, _) => DirectRowKeeps(db, ChargeRow(db, job, base));
    case SettleJob(p) =>
      var pay := db.payments[p];
      assert PaymentAt(db.ledger, db.payments, p);
      if pay.status.PaymentPending? {
        PaymentWritten(db, Settle(db, p, base).value, p, pay.(status := PaymentSucceeded, entry := Some(base + 1)),
                       [LedgerRow(base + 1, pay.user, Credit, pay.amount, TopUp(p))]);
      }
    case PurchaseJob(_, _, _, _, _, _) => PurchaseKeeps(db, job, base);
    case CreateSubJob(_, _, _, _, _, _) => CreateSubKeeps(db, job, base);
    case ExtendJob(_, _, _, _) => ExtendKeeps(db, job, base);
    case ApproveJob(f) => ApproveKeeps(db, f, base);
  }

  /** Changing only the status, the attempt marker or the hours of a subscription. */
  lemma SubTouched(db: Db, db': Db, s: Id)
    requires DbOk(db) && s in db.subs && s in db'.subs
    requires db' == db.(subs := db.subs[s := db'.subs[s]])
    requires var a, b := db.subs[s], db'.subs[s];
             a.user == b.user && a.expiresAt == b.expiresAt && a.firstExpiry == b.firstExpiry && a.periods == b.periods
    ensures DbOk(db')
  {
    assert db'.ledger == db.ledger + [];
    assert SubAt(db.ledger, db.subs, s);
    SubWritten(db, db', s, db'.subs[s], 0, []);
  }

  lemma OrgBooks(db: Db, db': Db)
    requires Books(db) && db' == db.(ents := db'.ents)
    ensures Books(db')
  {
    forall u ensures Balanced(db', u) {
      assert Balanced(db, u);
    }
  }

  lemma OrgEntsKept(orders: map<Id, Order>, ents: map<Id, Entitlement>, base: Id, e: Entitlement)
    requires EntsOk(orders, ents) && EntsUnique(ents) && e.edition.None? && e.source.FromOrganisation? && base !in ents
    ensures EntsOk(orders, ents[base := e]) && EntsUnique(ents[base := e])
  {
    var ents' := ents[base := e];
    forall i, j | BothLive(ents', i, j) ensures i == j {
      assert BothLive(ents, i, j);
    }
    forall x ensures EntAt(orders, ents', x) {
      assert EntAt(orders, ents, x);
    }
  }

  lemma OrgKeeps(db: Db, db': Db, base: Id)
    requires DbOk(db) && Unused(db, base) && base in db'.ents
    requires db'.ents[base].edition.None? && db'.ents[base].source.FromOrganisation?
    requires db' == db.(ents := db.ents[base := db'.ents[base]])
    ensures DbOk(db')
  {
    assert db'.ledger == db.ledger + [];
    RowsKept(db, db', []);
    OrgEntsKept(db.orders, db.ents, base, db'.ents[base]);
    OrgBooks(db, db');
  }

  /** So does every statement that commits on its own. */
  lemma OpKeeps(db: Db, op: Op, base: Id)
    requires DbOk(db) && OpEnabled(db, op) && Unused(db, base)
    ensures DbOk(OpEffect(db, op, base))
  {
    var db' := OpEffect(db, op, base);
    assert db.ledger + [] == db.ledger;
    match op
    case StartTopUp(u, amount) => PaymentWritten(db, db', base, Payment(u, amount, PaymentPending, None), []);
    case FailPayment(p) =>
      assert PaymentAt(db.ledger, db.payments, p);
      PaymentWritten(db, db', p, db'.payments[p], []);
    case CreditWallet(u, amount) => DirectRowKeeps(db, LedgerRow(base + 1, u, Credit, amount, Direct));
    case RequestRefund(o) => RefundWritten(db, db', base, db'.refunds[base]);
    case RejectRefund(f) => RefundWritten(db, db', f, db'.refunds[f]);
    case GrantOrg(_, _, _, _) => OrgKeeps(db, db', base);
    case CancelSub(s, _) => SubTouched(db, db', s);
    case ExpireSub(s, _) => SubTouched(db, db', s);
    case MarkAttempt(s, _, _) => SubTouched(db, db', s);
    case AddHours(s, _) => SubTouched(db, db', s);
  }
}
