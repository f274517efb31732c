/**
  A transaction's own statements: each keeps the transaction in order, and the commit does to the committed
  tables exactly what the whole transaction would have done had it run alone over them at that instant.
 */
module InterleavingProofs {
  import opened Results
  import opened CommerceModel
  import opened CommerceTx
  import opened Interleaving

  // ---------- one statement of the transaction itself ----------

  /** `tx'` is `tx` one statement later: same job, its locks and some that nobody else holds. */
  predicate Continues(tx: Tx, tx': Tx, busy: set<Lock>) {
    tx'.job == tx.job && tx'.base == tx.base && tx.locks <= tx'.locks && (tx'.locks - tx.locks) * busy == {}
  }

  /** What is shown of every statement: the transaction stays in order. */
  predicate KeepsTx(db: Db, tx: Tx, busy: set<Lock>)
    requires JobOk(db, tx.job)
  {
    var o := Exec(db, tx, busy);
    o.Next? ==> TxOk(db, o.tx) && Continues(tx, o.tx, busy)
  }

  lemma ReadyPlain(db: Db, tx: Tx, busy: set<Lock>)
    requires TxOk(db, tx) && tx.stage.Ready? && (tx.job.DebitJob? || tx.job.CreateSubJob? || tx.job.ExtendJob?)
    ensures KeepsTx(db, tx, busy)
  {}

  lemma NoRow<V>(rows: map<Id, V>)
    ensures rows + map[] == rows
  {}

  /** A workspace shows the committed rows of every table it has not touched. */
  lemma ViewKeeps(db: Db, w: Work)
    ensures w.ledger == [] ==> View(db, w).ledger == db.ledger
    ensures w.payments == map[] ==> View(db, w).payments == db.payments
    ensures w.orders == map[] ==> View(db, w).orders == db.orders
    ensures w.redemptions == [] ==> View(db, w).redemptions == db.redemptions
    ensures w.ents == map[] ==> View(db, w).ents == db.ents
    ensures w.subs == map[] ==> View(db, w).subs == db.subs
    ensures w.refunds == map[] ==> View(db, w).refunds == db.refunds
  {
    NoRow(db.payments);
    NoRow(db.orders);
    NoRow(db.ents);
    NoRow(db.subs);
    NoRow(db.refunds);
  }

  lemma OneRow<V>(rows: map<Id, V>, i: Id, v: V)
    ensures rows + map[i := v] == rows[i := v]
  {}

  /** The workspace once the pending order row is written. */
  lemma OrderOpened(db: Db, tx: Tx)
    requires TxOk(db, tx) && tx.stage.Ready? && tx.job.PurchaseJob?
    ensures tx.work.(orders := tx.work.orders[tx.base := NewOrder(tx.job, OrderPending, [])]) ==
              WorkAt(db, tx.job, tx.base, Opened)
  {
    assert tx.job.lines[..0] == [];
  }

  lemma ReadyPurchase(db: Db, tx: Tx, busy: set<Lock>)
    requires TxOk(db, tx) && tx.stage.Ready? && tx.job.PurchaseJob?
    ensures KeepsTx(db, tx, busy)
  {
    OrderOpened(db, tx);
    assert View(db, tx.work).orders == db.orders;
    var work := WorkAt(db, tx.job, tx.base, Opened);
    var o := ExecReady(db, tx, busy);
    if o.Next? {
      assert o.tx.work == work && o.tx.stage == Opened && o.tx.job == tx.job;
      assert !KeyTaken(db.orders, tx.job.user, tx.job.key);
      assert LocksOk(db, o.tx);
    }
  }

  lemma ReadySettle(db: Db, tx: Tx, busy: set<Lock>)
    requires TxOk(db, tx) && tx.stage.Ready? && tx.job.SettleJob?
    ensures KeepsTx(db, tx, busy)
  {}

  lemma ReadyApprove(db: Db, tx: Tx, busy: set<Lock>)
    requires TxOk(db, tx) && tx.stage.Ready? && tx.job.ApproveJob?
    ensures KeepsTx(db, tx, busy)
  {}

  lemma OpenedKeeps(db: Db, tx: Tx, busy: set<Lock>)
    requires TxOk(db, tx) && tx.stage.Opened?
    ensures KeepsTx(db, tx, busy)
  {}

  lemma WalletLockedKeeps(db: Db, tx: Tx, busy: set<Lock>)
    requires TxOk(db, tx) && tx.stage.WalletLocked?
    ensures KeepsTx(db, tx, busy)
  {
    assert db.ledger + [] == db.ledger;
  }

  lemma BalanceReadKeeps(db: Db, tx: Tx, busy: set<Lock>)
    requires TxOk(db, tx) && tx.stage.BalanceRead?
    ensures KeepsTx(db, tx, busy)
  {}

  lemma DebitedPlain(db: Db, tx: Tx, busy: set<Lock>)
    requires TxOk(db, tx) && tx.stage.Debited? && (tx.job.DebitJob? || tx.job.CreateSubJob?)
    ensures KeepsTx(db, tx, busy)
  {}

  lemma DebitedExtend(db: Db, tx: Tx, busy: set<Lock>)
    requires TxOk(db, tx) && tx.stage.Debited? && tx.job.ExtendJob?
    ensures KeepsTx(db, tx, busy)
  {}

  lemma DebitedPurchase(db: Db, tx: Tx, busy: set<Lock>)
    requires TxOk(db, tx) && tx.stage.Debited? && tx.job.PurchaseJob?
    ensures KeepsTx(db, tx, busy)
  {}

  lemma LineOrders(db: Db, job: Job, base: Id, w: Work, n: nat)
    requires job.PurchaseJob? && JobOk(db, job) && n < |job.lines| && w == PurchaseWork(db, job, base, Lines(n))
    ensures base in w.orders
    ensures var order, next := w.orders[base], PurchaseWork(db, job, base, Lines(n + 1));
            && w.orders[base := order.(items := order.items + [job.lines[n]])] == next.orders
            && next == w.(orders := next.orders, ents := next.ents)
  {
    assert job.lines[..n] + [job.lines[n]] == job.lines[..n + 1];
  }

  lemma LineRows(db: Db, job: Job, base: Id, w: Work, n: nat)
    requires job.PurchaseJob? && JobOk(db, job) && n < |job.lines| && w == PurchaseWork(db, job, base, Lines(n))
    ensures w.ents + GrantOverlay(View(db, w).ents, base + 2 + n, LineGrant(job.user, job.lines[n], base))
            == PurchaseWork(db, job, base, Lines(n + 1)).ents
  {}

  /** The workspace once one more line is written and granted. */
  lemma LineWritten(db: Db, job: Job, base: Id, w: Work, n: nat)
    requires job.PurchaseJob? && JobOk(db, job) && n < |job.lines| && w == PurchaseWork(db, job, base, Lines(n))
    ensures base in w.orders
    ensures LineWork(db, job, base, w, n) == PurchaseWork(db, job, base, Lines(n + 1))
  {
    LineOrders(db, job, base, w, n);
    LineRows(db, job, base, w, n);
  }

  lemma LineLocked(db: Db, tx: Tx)
    requires TxOk(db, tx) && tx.stage.Lines? && tx.stage.n < |tx.job.lines|
    ensures LineKeysHeld(tx.job.user, tx.job.lines, tx.base, tx.stage.n + 1,
                         tx.locks + {KeyOf(LineGrant(tx.job.user, tx.job.lines[tx.stage.n], tx.base))})
  {
    var n, user, lines := tx.stage.n, tx.job.user, tx.job.lines;
    var locks := tx.locks + {KeyOf(LineGrant(user, lines[n], tx.base))};
    assert LineKeysHeld(user, lines, tx.base, n, tx.locks);
    forall i | 0 <= i < n + 1 ensures LineKeyHeld(user, lines[i], tx.base, locks) {
      if i < n {
        assert LineKeyHeld(user, lines[i], tx.base, tx.locks);
      }
    }
  }

  /** The transaction once one more line is written. */
  function NextLine(db: Db, tx: Tx): Tx
    requires tx.job.PurchaseJob? && JobOk(db, tx.job) && tx.stage.Lines? && tx.stage.n < |tx.job.lines|
  {
    var n := tx.stage.n;
    tx.(stage := Lines(n + 1), work := PurchaseWork(db, tx.job, tx.base, Lines(n + 1)),
        locks := tx.locks + {KeyOf(LineGrant(tx.job.user, tx.job.lines[n], tx.base))})
  }

  lemma NextLineOk(db: Db, tx: Tx)
    requires TxOk(db, tx) && tx.stage.Lines? && tx.stage.n < |tx.job.lines|
    ensures TxOk(db, NextLine(db, tx))
  {
    LineLocked(db, tx);
  }

  /** What the statements of one line make of the transaction. */
  lemma LineExec(db: Db, tx: Tx, busy: set<Lock>)
    requires tx.job.PurchaseJob? && JobOk(db, tx.job) && tx.stage.Lines? && tx.stage.n < |tx.job.lines|
    requires tx.base in tx.work.orders
    ensures var o, n := Exec(db, tx, busy), tx.stage.n;
            var key := KeyOf(LineGrant(tx.job.user, tx.job.lines[n], tx.base));
            o.Next? ==>
              && key !in busy
              && o.tx == tx.(stage := Lines(n + 1), work := LineWork(db, tx.job, tx.base, tx.work, n),
                             locks := tx.locks + {key})
  {}

  lemma LineSteps(db: Db, tx: Tx, busy: set<Lock>)
    requires TxOk(db, tx) && tx.stage.Lines? && tx.stage.n < |tx.job.lines|
    ensures var o := Exec(db, tx, busy);
            o.Next? ==>
              && o.tx == NextLine(db, tx)
              && KeyOf(LineGrant(tx.job.user, tx.job.lines[tx.stage.n], tx.base)) !in busy
  {
    LineWritten(db, tx.job, tx.base, tx.work, tx.stage.n);
    LineExec(db, tx, busy);
  }

  lemma LineKeeps(db: Db, tx: Tx, busy: set<Lock>)
    requires TxOk(db, tx) && tx.stage.Lines? && tx.stage.n < |tx.job.lines|
    ensures KeepsTx(db, tx, busy)
  {
    LineSteps(db, tx, busy);
    NextLineOk(db, tx);
  }

  lemma LastLineKeeps(db: Db, tx: Tx, busy: set<Lock>)
    requires TxOk(db, tx) && tx.stage.Lines? && tx.stage.n == |tx.job.lines|
    ensures KeepsTx(db, tx, busy)
  {}

  lemma PaymentLockedKeeps(db: Db, tx: Tx, busy: set<Lock>)
    requires TxOk(db, tx) && tx.stage.PaymentLocked?
    ensures KeepsTx(db, tx, busy)
  {}

  lemma CreditedSettle(db: Db, tx: Tx, busy: set<Lock>)
    requires TxOk(db, tx) && tx.stage.Credited? && tx.job.SettleJob?
    ensures KeepsTx(db, tx, busy)
  {}

  lemma CreditedApprove(db: Db, tx: Tx, busy: set<Lock>)
    requires TxOk(db, tx) && tx.stage.Credited? && tx.job.ApproveJob?
    ensures KeepsTx(db, tx, busy)
  {
    ViewKeeps(db, tx.work);
  }

  lemma ResolvedKeeps(db: Db, tx: Tx, busy: set<Lock>)
    requires TxOk(db, tx) && tx.stage.Resolved?
    ensures KeepsTx(db, tx, busy)
  {}

  /** The workspace once the order is marked refunded. */
  lemma OrderMarked(db: Db, tx: Tx)
    requires TxOk(db, tx) && tx.stage.Revoked?
    ensures var w, order := tx.work, db.refunds[tx.job.refund].order;
            && View(db, w).refunds[tx.job.refund].order == order && View(db, w).orders == db.orders
            && w.(orders := w.orders + RefundedOverlay(db.orders, order)) ==
               ApproveWork(db, tx.job.refund, tx.base, Done)
  {
    ViewKeeps(db, tx.work);
  }

  lemma RevokedKeeps(db: Db, tx: Tx, busy: set<Lock>)
    requires TxOk(db, tx) && tx.stage.Revoked?
    ensures KeepsTx(db, tx, busy)
  {
    OrderMarked(db, tx);
  }

  /** A statement never spoils the transaction that runs it. */
  lemma RunKeeps(db: Db, tx: Tx, busy: set<Lock>)
    requires TxOk(db, tx)
    ensures KeepsTx(db, tx, busy)
  {
    match tx.stage
    case Ready =>
      if tx.job.PurchaseJob? { ReadyPurchase(db, tx, busy); }
      else if tx.job.SettleJob? { ReadySettle(db, tx, busy); }
      else if tx.job.ApproveJob? { ReadyApprove(db, tx, busy); }
      else { ReadyPlain(db, tx, busy); }
    case Opened => OpenedKeeps(db, tx, busy);
    case WalletLocked => WalletLockedKeeps(db, tx, busy);
    case BalanceRead(_) => BalanceReadKeeps(db, tx, busy);
    case Debited =>
      if tx.job.PurchaseJob? { DebitedPurchase(db, tx, busy); }
      else if tx.job.ExtendJob? { DebitedExtend(db, tx, busy); }
      else { DebitedPlain(db, tx, busy); }
    case Lines(n) => if n < |tx.job.lines| { LineKeeps(db, tx, busy); } else { LastLineKeeps(db, tx, busy); }
    case PaymentLocked => PaymentLockedKeeps(db, tx, busy);
    case Credited => if tx.job.SettleJob? { CreditedSettle(db, tx, busy); } else { CreditedApprove(db, tx, busy); }
    case Resolved => ResolvedKeeps(db, tx, busy);
    case Revoked => RevokedKeeps(db, tx, busy);
    case Done =>
  }

  // ---------- a commit is atomic ----------

  /** The rows a finished purchase granted, laid over the table, are the table after its grants. */
  lemma PurchaseEntsView(db: Db, tx: Tx)
    requires TxOk(db, tx) && tx.stage.Done? && tx.job.PurchaseJob?
    ensures View(db, tx.work).ents == GrantAll(db.ents, tx.job.user, tx.job.lines, tx.base, |tx.job.lines|)
  {
    OverlaysAreGrants(db.ents, tx.job.user, tx.job.lines, tx.base, |tx.job.lines|);
  }

  lemma PurchaseRowsView(db: Db, tx: Tx)
    requires TxOk(db, tx) && tx.stage.Done? && tx.job.PurchaseJob?
    ensures var after := View(db, tx.work);
            after == db.(ledger := db.ledger + ChargeRows(db, tx.job, tx.base),
                         orders := db.orders[tx.base := NewOrder(tx.job, OrderPaid, tx.job.lines)],
                         ents := after.ents,
                         redemptions := db.redemptions + NewRedemptions(tx.job, tx.base))
  {
    var lines, after := tx.job.lines, View(db, tx.work);
    assert lines[..|lines|] == lines;
    OneRow(db.orders, tx.base, NewOrder(tx.job, OrderPaid, lines));
    ViewKeeps(db, tx.work);
  }

  lemma PurchaseCommits(db: Db, tx: Tx)
    requires TxOk(db, tx) && tx.stage.Done? && tx.job.PurchaseJob?
    ensures Atomic(db, tx.job, tx.base) == Ok(View(db, tx.work))
  {
    PurchaseEntsView(db, tx);
    PurchaseRowsView(db, tx);
    assert !KeyTaken(db.orders, tx.job.user, tx.job.key);
    assert Charge(db, tx.job, tx.base) == Ok(db.(ledger := db.ledger + ChargeRows(db, tx.job, tx.base)));
  }

  lemma ApproveCommits(db: Db, tx: Tx)
    requires TxOk(db, tx) && tx.stage.Done? && tx.job.ApproveJob?
    ensures Atomic(db, tx.job, tx.base) == Ok(View(db, tx.work))
  {
    var f := tx.job.refund;
    OneRow(db.refunds, f, db.refunds[f].(status := RefundApproved));
    ViewKeeps(db, tx.work);
  }

  lemma ExtendCommits(db: Db, tx: Tx)
    requires TxOk(db, tx) && tx.stage.Done? && tx.job.ExtendJob?
    ensures Atomic(db, tx.job, tx.base) == Ok(View(db, tx.work))
  {
    var s := tx.job.sub;
    OneRow(db.subs, s, Extended(db.subs[s], tx.job.price, tx.job.days, tx.job.reactivate));
    ViewKeeps(db, tx.work);
  }

  lemma CreateSubCommits(db: Db, tx: Tx)
    requires TxOk(db, tx) && tx.stage.Done? && tx.job.CreateSubJob?
    ensures Atomic(db, tx.job, tx.base) == Ok(View(db, tx.work))
  {
    OneRow(db.subs, tx.base, NewSub(tx.job));
    ViewKeeps(db, tx.work);
  }

  lemma SettleCommits(db: Db, tx: Tx)
    requires TxOk(db, tx) && tx.stage.Done? && tx.job.SettleJob?
    ensures Atomic(db, tx.job, tx.base) == Ok(View(db, tx.work))
  {
    var p := tx.job.payment;
    OneRow(db.payments, p, db.payments[p].(status := PaymentSucceeded, entry := Some(tx.base + 1)));
    ViewKeeps(db, tx.work);
  }

  lemma DebitCommits(db: Db, tx: Tx)
    requires TxOk(db, tx) && tx.stage.Done? && tx.job.DebitJob?
    ensures Atomic(db, tx.job, tx.base) == Ok(View(db, tx.work))
  {
    ViewKeeps(db, tx.work);
  }

  /** The heart of the matter: whatever ran in between, a transaction that reaches its commit does to the
      committed tables what the whole transaction would do if it ran alone over them at that moment. In
      particular its balance check, its unique-key checks and its conditional updates all hold there. */
  lemma CommitIsAtomic(db: Db, tx: Tx)
    requires TxOk(db, tx) && tx.stage.Done?
    ensures Atomic(db, tx.job, tx.base) == Ok(View(db, tx.work))
  {
    match tx.job
    case PurchaseJob(_, _, _, _, _, _) => PurchaseCommits(db, tx);
    case ApproveJob(_) => ApproveCommits(db, tx);
    case SettleJob(_) => SettleCommits(db, tx);
    case DebitJob(_, _) => DebitCommits(db, tx);
    case ExtendJob(_, _, _, _) => ExtendCommits(db, tx);
    case CreateSubJob(_, _, _, _, _, _) => CreateSubCommits(db, tx);
  }
}
