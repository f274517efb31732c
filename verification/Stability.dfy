/**
  What the other transactions may do to the committed tables while a transaction holds its locks, and why
  that never spoils the work it has done so far.
 */
module Stability {
  import opened Results
  import opened CommerceModel
  import opened CommerceTx
  import opened CommerceInvariants
  import opened Interleaving

  // ---------- what others may do to the tables while I hold my locks ----------

  /** Row `i` of every table, seen by a transaction that holds `locks`. */
  predicate RowStable(db: Db, db': Db, locks: set<Lock>, i: Id) {
    && (i in db.payments ==>
          && i in db'.payments && db'.payments[i].user == db.payments[i].user
          && (PaymentRow(i) in locks ==> db'.payments[i] == db.payments[i]))
    && (i in db.orders ==>
          && i in db'.orders && db'.orders[i].(status := db.orders[i].status) == db.orders[i]
          && (OrderRow(i) in locks ==> db'.orders[i] == db.orders[i]))
    && (i in db.subs ==>
          && i in db'.subs && db'.subs[i].user == db.subs[i].user
          && (SubRow(i) in locks ==> db'.subs[i] == db.subs[i]))
    && (i in db.refunds ==>
          && i in db'.refunds && (RefundRow(i) in locks ==> db'.refunds[i] == db.refunds[i]))
    && (i in db.ents ==>
          && i in db'.ents && SameKey(db'.ents[i], db.ents[i]) && db'.ents[i].source == db.ents[i].source
          && (db.ents[i].revoked ==> db'.ents[i].revoked)
          && (KeyOf(db.ents[i]) in locks ==> db'.ents[i] == db.ents[i]))
    && (i !in db.ents && i in db'.ents && db'.ents[i].edition.Some? ==>
          && KeyOf(db'.ents[i]) !in locks
          && (db'.ents[i].source.FromOrder? ==> db'.ents[i].source.order !in db.orders))
    && (i !in db.ents && i in db'.ents && db'.ents[i].edition.None? ==> !db'.ents[i].source.FromOrder?)
    && (i !in db.orders && i in db'.orders && db'.orders[i].key != "" ==>
          OrderKey(db'.orders[i].user, db'.orders[i].key) !in locks)
  }

  predicate WalletStable(db: Db, db': Db, locks: set<Lock>, u: User) {
    WalletLock(u) in locks ==> Balance(db.ledger, u) <= Balance(db'.ledger, u)
  }

  /** The rely of a transaction that holds `locks`: locked rows do not change, locked unique keys are not
      taken, and the balance of a locked wallet does not fall, because only credits take no lock. */
  ghost predicate Evolves(db: Db, db': Db, locks: set<Lock>) {
    && (forall i :: RowStable(db, db', locks, i))
    && (forall u :: WalletStable(db, db', locks, u))
  }

  /** A grant replayed over tables that evolved under its lock writes the same rows. */
  lemma GrantReplays(ents: map<Id, Entitlement>, ents': map<Id, Entitlement>, before: map<Id, Entitlement>, id: Id,
                     e: Entitlement)
    requires e.edition.Some?
    requires forall i :: i in ents && SameKey(ents[i], e) ==> i in ents' && ents'[i] == ents[i]
    requires forall i :: i in ents' && SameKey(ents'[i], e) ==> i in ents && SameKey(ents[i], e)
    ensures GrantOverlay(ents' + before, id, e) == GrantOverlay(ents + before, id, e)
  {
    var view, view' := ents + before, ents' + before;
    forall i ensures i in LiveIds(view, e) <==> i in LiveIds(view', e) {
      if i in before {
      } else if i in ents && SameKey(ents[i], e) {
      }
    }
    assert LiveIds(view, e) == LiveIds(view', e);
    forall i | i in LiveIds(view, e) ensures view'[i] == view[i] {
      if i !in before {
        assert i in ents && SameKey(ents[i], e);
      }
    }
  }

  lemma KeyRowsStable(db: Db, db': Db, locks: set<Lock>, e: Entitlement)
    requires Evolves(db, db', locks) && e.edition.Some? && KeyOf(e) in locks
    ensures forall i :: i in db.ents && SameKey(db.ents[i], e) ==> i in db'.ents && db'.ents[i] == db.ents[i]
    ensures forall i :: i in db'.ents && SameKey(db'.ents[i], e) ==> i in db.ents && SameKey(db.ents[i], e)
  {
    forall i ensures (i in db.ents && SameKey(db.ents[i], e) ==> i in db'.ents && db'.ents[i] == db.ents[i])
                     && (i in db'.ents && SameKey(db'.ents[i], e) ==> i in db.ents && SameKey(db.ents[i], e))
    {
      assert RowStable(db, db', locks, i);
      if i in db.ents && SameKey(db.ents[i], e) {
        assert KeyOf(db.ents[i]) == KeyOf(e);
      }
      if i in db'.ents && SameKey(db'.ents[i], e) {
        assert KeyOf(db'.ents[i]) == KeyOf(e);
      }
    }
  }

  /** Both tables make the upsert of `e` write the same rows. */
  predicate SameGrant(ents: map<Id, Entitlement>, ents': map<Id, Entitlement>, before: map<Id, Entitlement>, id: Id,
                      e: Entitlement)
  {
    GrantOverlay(ents' + before, id, e) == GrantOverlay(ents + before, id, e)
  }

  predicate SameGrants(ents: map<Id, Entitlement>, ents': map<Id, Entitlement>, buyer: User, lines: seq<Line>,
                       order: Id, n: nat)
    requires n <= |lines|
  {
    GrantOverlays(ents', buyer, lines, order, n) == GrantOverlays(ents, buyer, lines, order, n)
  }

  lemma SameGrantsStep(ents: map<Id, Entitlement>, ents': map<Id, Entitlement>, buyer: User, lines: seq<Line>,
                       order: Id, n: nat)
    requires 0 < n <= |lines| && SameGrants(ents, ents', buyer, lines, order, n - 1)
    requires SameGrant(ents, ents', GrantOverlays(ents, buyer, lines, order, n - 1), order + 1 + n,
                       LineGrant(buyer, lines[n - 1], order))
    ensures SameGrants(ents, ents', buyer, lines, order, n)
  {}

  lemma LineReplays(db: Db, db': Db, locks: set<Lock>, before: map<Id, Entitlement>, id: Id, e: Entitlement)
    requires Evolves(db, db', locks) && e.edition.Some? && KeyOf(e) in locks
    ensures SameGrant(db.ents, db'.ents, before, id, e)
  {
    KeyRowsStable(db, db', locks, e);
    GrantReplays(db.ents, db'.ents, before, id, e);
  }

  lemma {:induction false} GrantsReplay(db: Db, db': Db, locks: set<Lock>, buyer: User, lines: seq<Line>, order: Id,
                                        n: nat)
    requires Evolves(db, db', locks) && n <= |lines| && LineKeysHeld(buyer, lines, order, n, locks)
    ensures SameGrants(db.ents, db'.ents, buyer, lines, order, n)
    decreases n
  {
    if n > 0 {
      GrantsReplay(db, db', locks, buyer, lines, order, n - 1);
      assert LineKeyHeld(buyer, lines[n - 1], order, locks);
      LineReplays(db, db', locks, GrantOverlays(db.ents, buyer, lines, order, n - 1), order + 1 + n,
                  LineGrant(buyer, lines[n - 1], order));
      SameGrantsStep(db.ents, db'.ents, buyer, lines, order, n);
    }
  }

  lemma RevokeReplays(db: Db, db': Db, locks: set<Lock>, order: Id)
    requires Evolves(db, db', locks) && order in db.orders && SourceKeys(db.ents, order) <= locks
    ensures RevokeOverlay(db'.ents, order) == RevokeOverlay(db.ents, order)
    ensures SourceKeys(db'.ents, order) == SourceKeys(db.ents, order)
  {
    var o, o' := RevokeOverlay(db.ents, order), RevokeOverlay(db'.ents, order);
    forall i ensures i in o <==> i in o'
             ensures i in o ==> db'.ents[i] == db.ents[i]
    {
      assert RowStable(db, db', locks, i);
      if i in o {
        assert KeyOf(db.ents[i]) in SourceKeys(db.ents, order);
      }
    }
    assert o == o';
  }

  // ---------- a transaction survives what the others commit ----------

  lemma JobStable(db: Db, db': Db, locks: set<Lock>, job: Job)
    requires JobOk(db, job) && Evolves(db, db', locks)
    ensures JobOk(db', job)
    ensures !job.ApproveJob? ==> Payer(db', job) == Payer(db, job)
    ensures !job.ApproveJob? && WalletLock(Payer(db, job)) in locks ==>
              Balance(db.ledger, Payer(db, job)) <= Balance(db'.ledger, Payer(db', job))
  {
    match job {
      case SettleJob(p) => assert RowStable(db, db', locks, p);
      case ExtendJob(s, _, _, _) => assert RowStable(db, db', locks, s);
      case ApproveJob(f) => assert RowStable(db, db', locks, f);
      case _ =>
    }
    if !job.ApproveJob? {
      assert WalletStable(db, db', locks, Payer(db, job));
    }
  }

  lemma KeyStaysFree(db: Db, db': Db, locks: set<Lock>, user: User, key: string)
    requires Evolves(db, db', locks) && OrderKey(user, key) in locks && !KeyTaken(db.orders, user, key)
    ensures !KeyTaken(db'.orders, user, key)
  {
    forall o | o in db'.orders && db'.orders[o].user == user ensures db'.orders[o].key != key || key == "" {
      assert RowStable(db, db', locks, o);
    }
  }

  lemma PlainStable(db: Db, db': Db, tx: Tx)
    requires TxOk(db, tx) && Evolves(db, db', tx.locks) && (tx.job.DebitJob? || tx.job.CreateSubJob?)
    ensures TxOk(db', tx)
  {
    JobStable(db, db', tx.locks, tx.job);
  }

  lemma ExtendStable(db: Db, db': Db, tx: Tx)
    requires TxOk(db, tx) && Evolves(db, db', tx.locks) && tx.job.ExtendJob?
    ensures TxOk(db', tx)
  {
    JobStable(db, db', tx.locks, tx.job);
    assert RowStable(db, db', tx.locks, tx.job.sub);
  }

  lemma SettleStable(db: Db, db': Db, tx: Tx)
    requires TxOk(db, tx) && Evolves(db, db', tx.locks) && tx.job.SettleJob?
    ensures TxOk(db', tx)
  {
    JobStable(db, db', tx.locks, tx.job);
    assert RowStable(db, db', tx.locks, tx.job.payment);
  }

  lemma PurchaseWorkStable(db: Db, db': Db, tx: Tx)
    requires TxOk(db, tx) && Evolves(db, db', tx.locks) && tx.job.PurchaseJob?
    ensures JobOk(db', tx.job) && tx.work == PurchaseWork(db', tx.job, tx.base, tx.stage)
  {
    JobStable(db, db', tx.locks, tx.job);
    GrantsReplay(db, db', tx.locks, tx.job.user, tx.job.lines, tx.base, LinesDone(tx.job, tx.stage));
  }

  lemma PurchaseStable(db: Db, db': Db, tx: Tx)
    requires TxOk(db, tx) && Evolves(db, db', tx.locks) && tx.job.PurchaseJob?
    ensures TxOk(db', tx)
  {
    PurchaseWorkStable(db, db', tx);
    JobStable(db, db', tx.locks, tx.job);
    if !tx.stage.Ready? && tx.job.key != "" {
      KeyStaysFree(db, db', tx.locks, tx.job.user, tx.job.key);
    }
  }

  lemma ApproveStable(db: Db, db': Db, tx: Tx)
    requires TxOk(db, tx) && Evolves(db, db', tx.locks) && tx.job.ApproveJob?
    requires db.refunds[tx.job.refund].order in db.orders
    ensures TxOk(db', tx)
  {
    JobStable(db, db', tx.locks, tx.job);
    assert RowStable(db, db', tx.locks, tx.job.refund);
    if !tx.stage.Ready? {
      var order := db.refunds[tx.job.refund].order;
      assert RowStable(db, db', tx.locks, order);
      if tx.stage.Revoked? || tx.stage.Done? {
        RevokeReplays(db, db', tx.locks, order);
      }
    }
  }

  /** Whatever the others commit, a transaction's workspace is still the one it would have built over the
      new tables, and the tests it passed still hold there. */
  lemma TxStable(db: Db, db': Db, tx: Tx)
    requires TxOk(db, tx) && Evolves(db, db', tx.locks) && RefundsOk(db.ledger, db.orders, db.refunds)
    ensures TxOk(db', tx)
  {
    match tx.job
    case DebitJob(_, _) => PlainStable(db, db', tx);
    case CreateSubJob(_, _, _, _, _, _) => PlainStable(db, db', tx);
    case ExtendJob(_, _, _, _) => ExtendStable(db, db', tx);
    case SettleJob(_) => SettleStable(db, db', tx);
    case PurchaseJob(_, _, _, _, _, _) => PurchaseStable(db, db', tx);
    case ApproveJob(f) =>
      assert RefundAt(db.ledger, db.orders, db.refunds, f);
      ApproveStable(db, db', tx);
  }

  // ---------- what a commit does to the others ----------

  lemma CreditsEvolve(db: Db, db': Db, locks: set<Lock>, r: LedgerRow)
    requires db'.ledger == db.ledger + [r] && r.entry.Credit? && r.amount > 0
    ensures forall u :: WalletStable(db, db', locks, u)
  {
    LedgerSnoc(db.ledger, r);
  }

  /** A charge lowers one balance only, the one its transaction has locked. */
  lemma ChargesEvolve(db: Db, db': Db, locks: set<Lock>, job: Job, base: Id)
    requires JobOk(db, job) && db'.ledger == db.ledger + ChargeRows(db, job, base)
    requires ChargeOf(job) > 0 ==> WalletLock(Payer(db, job)) !in locks
    ensures forall u :: WalletStable(db, db', locks, u)
  {
    if ChargeOf(job) > 0 {
      LedgerSnoc(db.ledger, ChargeRow(db, job, base));
    } else {
      assert db'.ledger == db.ledger;
    }
  }

  lemma SameLedgerEvolves(db: Db, db': Db, locks: set<Lock>)
    requires db'.ledger == db.ledger
    ensures forall u :: WalletStable(db, db', locks, u)
  {}

  lemma DebitEvolves(db: Db, tx: Tx, db': Db, locks: set<Lock>)
    requires TxOk(db, tx) && tx.stage.Done? && tx.job.DebitJob? && Atomic(db, tx.job, tx.base) == Ok(db')
    requires tx.locks !! locks
    ensures Evolves(db, db', locks)
  {
    ChargesEvolve(db, db', locks, tx.job, tx.base);
    forall i ensures RowStable(db, db', locks, i) {}
  }

  lemma SubEvolves(db: Db, tx: Tx, db': Db, locks: set<Lock>)
    requires TxOk(db, tx) && tx.stage.Done? && (tx.job.ExtendJob? || tx.job.CreateSubJob?) && tx.locks !! locks
    requires Atomic(db, tx.job, tx.base) == Ok(db') && Unused(db, tx.base)
    ensures Evolves(db, db', locks)
  {
    ChargesEvolve(db, db', locks, tx.job, tx.base);
    forall i ensures RowStable(db, db', locks, i) {}
  }

  /** Changing one payment that nobody has locked. */
  lemma PaymentRowStable(db: Db, p: Id, pay: Payment, ledger: seq<LedgerRow>, locks: set<Lock>, i: Id)
    requires p in db.payments && pay.user == db.payments[p].user && PaymentRow(p) !in locks
    ensures RowStable(db, db.(ledger := ledger, payments := db.payments[p := pay]), locks, i)
  {}

  lemma SettleEvolves(db: Db, tx: Tx, db': Db, locks: set<Lock>)
    requires TxOk(db, tx) && tx.stage.Done? && tx.job.SettleJob? && Atomic(db, tx.job, tx.base) == Ok(db')
    requires tx.locks !! locks
    requires db.payments[tx.job.payment].amount > 0
    ensures Evolves(db, db', locks)
  {
    var p := tx.job.payment;
    if db.payments[p].status.PaymentPending? {
      CreditsEvolve(db, db', locks,
                    LedgerRow(tx.base + 1, db.payments[p].user, Credit, db.payments[p].amount, TopUp(p)));
    } else {
      SameLedgerEvolves(db, db', locks);
      assert db'.payments == db.payments[p := db'.payments[p]];
    }
    assert PaymentRow(p) in tx.locks;
    forall i ensures RowStable(db, db', locks, i) {
      PaymentRowStable(db, p, db'.payments[p], db'.ledger, locks, i);
    }
  }

  lemma ApproveEvolves(db: Db, tx: Tx, db': Db, locks: set<Lock>)
    requires TxOk(db, tx) && tx.stage.Done? && tx.job.ApproveJob? && Atomic(db, tx.job, tx.base) == Ok(db')
    requires tx.locks !! locks
    requires db.refunds[tx.job.refund].amount > 0
    ensures Evolves(db, db', locks)
  {
    var f := tx.job.refund;
    var ref := db.refunds[f];
    CreditsEvolve(db, db', locks, LedgerRow(tx.base + 1, ref.user, Credit, ref.amount, RefundRef(f)));
    var revoked := RevokeOverlay(db.ents, ref.order);
    forall i ensures RowStable(db, db', locks, i) {
      if i in revoked {
        assert KeyOf(db.ents[i]) in SourceKeys(db.ents, ref.order);
      }
    }
  }

  /** Every row the grants of the first `n` lines write has the key of one of those lines. */
  ghost predicate KeysFrom(o: map<Id, Entitlement>, locks: set<Lock>) {
    forall i :: i in o ==> KeyOf(o[i]) in locks
  }

  lemma KeysFromStep(ents: map<Id, Entitlement>, before: map<Id, Entitlement>, id: Id, e: Entitlement, locks: set<Lock>)
    requires KeysFrom(before, locks) && KeyOf(e) in locks
    ensures KeysFrom(before + GrantOverlay(ents + before, id, e), locks)
  {
    var view := ents + before;
    var overlay := GrantOverlay(view, id, e);
    var o := before + overlay;
    forall i | i in o ensures KeyOf(o[i]) in locks {
      if i in overlay && overlay != map[id := e] {
        assert i in LiveIds(view, e) && KeyOf(o[i]) == KeyOf(e);
      }
    }
  }

  lemma {:induction false} GrantKeysHeld(ents: map<Id, Entitlement>, buyer: User, lines: seq<Line>, order: Id, n: nat,
                                         locks: set<Lock>)
    requires n <= |lines| && LineKeysHeld(buyer, lines, order, n, locks)
    ensures KeysFrom(GrantOverlays(ents, buyer, lines, order, n), locks)
    decreases n
  {
    if n > 0 {
      GrantKeysHeld(ents, buyer, lines, order, n - 1, locks);
      assert LineKeyHeld(buyer, lines[n - 1], order, locks);
      KeysFromStep(ents, GrantOverlays(ents, buyer, lines, order, n - 1), order + 1 + n,
                   LineGrant(buyer, lines[n - 1], order), locks);
    }
  }

  /** What the entitlement rows of a purchase look like to the others. */
  predicate EntStable(db: Db, ents': map<Id, Entitlement>, locks: set<Lock>, i: Id) {
    && (i in db.ents ==>
          && i in ents' && SameKey(ents'[i], db.ents[i]) && ents'[i].source == db.ents[i].source
          && (db.ents[i].revoked ==> ents'[i].revoked)
          && (KeyOf(db.ents[i]) in locks ==> ents'[i] == db.ents[i]))
    && (i !in db.ents && i in ents' ==>
          && ents'[i].edition.Some? && KeyOf(ents'[i]) !in locks
          && (ents'[i].source.FromOrder? ==> ents'[i].source.order !in db.orders))
  }

  lemma GrantsEvolve(db: Db, o: map<Id, Entitlement>, order: Id, n: nat, held: set<Lock>, locks: set<Lock>, i: Id)
    requires Granted(db.ents, o, order, n) && KeysFrom(o, held) && held !! locks && order !in db.orders
    ensures EntStable(db, db.ents + o, locks, i)
  {
    if i in o {
      assert GrantedRow(db.ents, o[i], i, order, n);
      if i in db.ents {
        assert KeyOf(o[i]) == KeyOf(db.ents[i]);
      }
    }
  }

  lemma PurchaseEntsEvolve(db: Db, tx: Tx, locks: set<Lock>, i: Id)
    requires TxOk(db, tx) && tx.stage.Done? && tx.job.PurchaseJob? && tx.locks !! locks
    requires Fresh(db, tx.base, IdsNeeded(tx.job))
    ensures EntStable(db, GrantAll(db.ents, tx.job.user, tx.job.lines, tx.base, |tx.job.lines|), locks, i)
  {
    var n := |tx.job.lines|;
    FreshForLines(db, tx.base, tx.job);
    GrantOverlaysGranted(db.ents, tx.job.user, tx.job.lines, tx.base, n);
    GrantKeysHeld(db.ents, tx.job.user, tx.job.lines, tx.base, n, tx.locks);
    OverlaysAreGrants(db.ents, tx.job.user, tx.job.lines, tx.base, n);
    GrantsEvolve(db, GrantOverlays(db.ents, tx.job.user, tx.job.lines, tx.base, n), tx.base, n, tx.locks, locks, i);
  }

  lemma PurchaseEvolves(db: Db, tx: Tx, db': Db, locks: set<Lock>)
    requires TxOk(db, tx) && tx.stage.Done? && tx.job.PurchaseJob? && Atomic(db, tx.job, tx.base) == Ok(db')
    requires tx.locks !! locks
    requires Fresh(db, tx.base, IdsNeeded(tx.job))
    ensures Evolves(db, db', locks)
  {
    ChargesEvolve(db, db', locks, tx.job, tx.base);
    assert Unused(db, tx.base);
    forall i ensures RowStable(db, db', locks, i) {
      PurchaseEntsEvolve(db, tx, locks, i);
    }
  }

  /** A commit changes nothing that another transaction has locked. */
  lemma CommitEvolves(db: Db, tx: Tx, db': Db, locks: set<Lock>)
    requires DbOk(db) && TxOk(db, tx) && tx.stage.Done? && Atomic(db, tx.job, tx.base) == Ok(db') && tx.locks !! locks
    requires Fresh(db, tx.base, IdsNeeded(tx.job))
    ensures Evolves(db, db', locks)
  {
    assert Unused(db, tx.base);
    match tx.job
    case DebitJob(_, _) => DebitEvolves(db, tx, db', locks);
    case CreateSubJob(_, _, _, _, _, _) => SubEvolves(db, tx, db', locks);
    case ExtendJob(_, _, _, _) => SubEvolves(db, tx, db', locks);
    case SettleJob(p) =>
      assert PaymentAt(db.ledger, db.payments, p);
      SettleEvolves(db, tx, db', locks);
    case PurchaseJob(_, _, _, _, _, _) => PurchaseEvolves(db, tx, db', locks);
    case ApproveJob(f) =>
      assert RefundAt(db.ledger, db.orders, db.refunds, f);
      ApproveEvolves(db, tx, db', locks);
  }

  /** Neither does a statement that commits on its own. */
  lemma OpEvolves(db: Db, op: Op, base: Id, locks: set<Lock>)
    requires OpEnabled(db, op) && Unused(db, base) && OpLocks(op) !! locks
    ensures Evolves(db, OpEffect(db, op, base), locks)
  {
    var db' := OpEffect(db, op, base);
    if op.CreditWallet? {
      CreditsEvolve(db, db', locks, LedgerRow(base + 1, op.user, Credit, op.amount, Direct));
    } else {
      SameLedgerEvolves(db, db', locks);
    }
    forall i ensures RowStable(db, db', locks, i) {}
  }
}
