/**
  What a committed order and a granted period cost, over every interleaved run: the discount is the one the coupon
  gives on the order's subtotal, and a period is what some plan charges and grants.
 */
module Pricing {
  import opened CommerceModel
  import opened CommerceTx
  import opened Interleaving
  import opened InterleavingProofs
  import opened Runs

  // ---------- the invariant ----------

  predicate OrderPriced(coupons: map<Id, Coupon>, o: Order) {
    match o.coupon
    case None => o.discount == 0
    case Some(c) => c in coupons && o.discount == Discount(coupons[c], o.subtotal)
  }

  predicate EvaluationPriced(coupons: map<Id, Coupon>, e: Evaluation) {
    e.coupon in coupons && e.discount == Discount(coupons[e.coupon], e.subtotal)
  }

  predicate OrderAtPrice(db: Db, o: Id) {
    o in db.orders ==> OrderPriced(db.coupons, db.orders[o])
  }

  predicate EvaluationAtPrice(s: State, a: Id) {
    a in s.evals ==> EvaluationPriced(s.db.coupons, s.evals[a])
  }

  predicate JobAtPrice(s: State, t: TxId) {
    t in s.txs ==> JobQuoted(s.db.plans, s.txs[t].job)
  }

  predicate PeriodsFromPlans(plans: map<Id, Plan>, periods: seq<Period>) {
    forall i :: 0 <= i < |periods| ==> FromPlan(plans, periods[i].price, periods[i].days)
  }

  predicate SubAtPrice(db: Db, s: Id) {
    s in db.subs ==> PeriodsFromPlans(db.plans, db.subs[s].periods)
  }

  ghost predicate TablesPriced(db: Db) {
    && (forall o :: OrderAtPrice(db, o))
    && (forall s :: SubAtPrice(db, s))
  }

  ghost predicate Priced(s: State) {
    && TablesPriced(s.db)
    && (forall a :: EvaluationAtPrice(s, a))
    && (forall t :: JobAtPrice(s, t))
  }

  // ---------- the tables ----------

  lemma OpPriced(db: Db, op: Op, base: Id)
    requires TablesPriced(db) && OpEnabled(db, op)
    ensures TablesPriced(OpEffect(db, op, base))
  {
    var db' := OpEffect(db, op, base);
    forall o ensures OrderAtPrice(db', o) {
      assert OrderAtPrice(db, o);
    }
    forall s ensures SubAtPrice(db', s) {
      assert SubAtPrice(db, s);
    }
  }

  lemma PurchasePriced(db: Db, job: Job, base: Id)
    requires TablesPriced(db) && job.PurchaseJob? && JobOk(db, job) && Atomic(db, job, base).Ok?
    requires job.coupon.Some? ==>
               && job.coupon.value in db.coupons
               && job.discount == Discount(db.coupons[job.coupon.value], SumPrices(job.lines))
    ensures TablesPriced(Atomic(db, job, base).value)
  {
    var db' := Atomic(db, job, base).value;
    forall o ensures OrderAtPrice(db', o) {
      assert OrderAtPrice(db, o);
    }
    forall s ensures SubAtPrice(db', s) {
      assert SubAtPrice(db, s);
    }
  }

  lemma ExtendPriced(db: Db, job: Job, base: Id)
    requires TablesPriced(db) && (job.ExtendJob? || job.CreateSubJob?) && JobOk(db, job) && Atomic(db, job, base).Ok?
    requires JobQuoted(db.plans, job)
    ensures TablesPriced(Atomic(db, job, base).value)
  {
    var db' := Atomic(db, job, base).value;
    forall o ensures OrderAtPrice(db', o) {
      assert OrderAtPrice(db, o);
    }
    forall s ensures SubAtPrice(db', s) {
      assert SubAtPrice(db, s);
    }
  }

  lemma ApprovePriced(db: Db, f: Id, base: Id)
    requires TablesPriced(db) && f in db.refunds && Approve(db, f, base).Ok?
    ensures TablesPriced(Approve(db, f, base).value)
  {
    var db' := Approve(db, f, base).value;
    forall o ensures OrderAtPrice(db', o) {
      assert OrderAtPrice(db, o);
    }
    forall s ensures SubAtPrice(db', s) {
      assert SubAtPrice(db, s);
    }
  }

  lemma SamePriced(db: Db, db': Db)
    requires TablesPriced(db) && db'.orders == db.orders && db'.subs == db.subs
    requires db'.coupons == db.coupons && db'.plans == db.plans
    ensures TablesPriced(db')
  {
    forall o ensures OrderAtPrice(db', o) {
      assert OrderAtPrice(db, o);
    }
    forall s ensures SubAtPrice(db', s) {
      assert SubAtPrice(db, s);
    }
  }

  /** A transaction whose discount was evaluated and whose period was quoted commits nothing else. */
  lemma AtomicPriced(db: Db, job: Job, base: Id)
    requires TablesPriced(db) && JobOk(db, job) && Atomic(db, job, base).Ok? && JobQuoted(db.plans, job)
    requires job.PurchaseJob? && job.coupon.Some? ==>
               && job.coupon.value in db.coupons
               && job.discount == Discount(db.coupons[job.coupon.value], SumPrices(job.lines))
    ensures TablesPriced(Atomic(db, job, base).value)
  {
    match job
    case PurchaseJob(_, _, _, _, _, _) => PurchasePriced(db, job, base);
    case ApproveJob(f) => ApprovePriced(db, f, base);
    case ExtendJob(_, _, _, _) => ExtendPriced(db, job, base);
    case CreateSubJob(_, _, _, _, _, _) => ExtendPriced(db, job, base);
    case DebitJob(_, _) => SamePriced(db, Atomic(db, job, base).value);
    case SettleJob(_) => SamePriced(db, Atomic(db, job, base).value);
  }

  // ---------- one step ----------

  lemma PricesFixed(db: Db, op: Op, base: Id)
    requires OpEnabled(db, op)
    ensures OpEffect(db, op, base).coupons == db.coupons && OpEffect(db, op, base).plans == db.plans
  {}

  /** Only orders, subscriptions and prices matter, and the evaluations and jobs that are left. */
  lemma StatePriced(s: State, s': State)
    requires Priced(s) && TablesPriced(s'.db) && s'.db.coupons == s.db.coupons && s'.db.plans == s.db.plans
    requires forall a :: a in s'.evals ==> a in s.evals && s'.evals[a] == s.evals[a]
    requires forall t :: t in s'.txs ==> t in s.txs && s'.txs[t].job == s.txs[t].job
    ensures Priced(s')
  {
    forall a ensures EvaluationAtPrice(s', a) {
      assert EvaluationAtPrice(s, a);
    }
    forall t ensures JobAtPrice(s', t) {
      assert JobAtPrice(s, t);
    }
  }

  lemma AutoPriced(s: State, op: Op)
    requires Priced(s)
    ensures Priced(Apply(s, Auto(op)))
  {
    if OpEnabled(s.db, op) {
      OpPriced(s.db, op, s.nextId);
      PricesFixed(s.db, op, s.nextId);
    }
    StatePriced(s, Apply(s, Auto(op)));
  }

  lemma EvaluatePriced(s: State, c: Id, u: User, subtotal: int, now: int)
    requires Priced(s)
    ensures Priced(Apply(s, Evaluate(c, u, subtotal, now)))
  {
    var s' := Apply(s, Evaluate(c, u, subtotal, now));
    forall a ensures EvaluationAtPrice(s', a) {
      assert EvaluationAtPrice(s, a);
    }
    forall t ensures JobAtPrice(s', t) {
      assert JobAtPrice(s, t);
    }
  }

  lemma BeginPriced(s: State, t: TxId, job: Job)
    requires Priced(s)
    ensures Priced(Apply(s, Begin(t, job)))
  {
    var s' := Apply(s, Begin(t, job));
    forall a ensures EvaluationAtPrice(s', a) {
      assert EvaluationAtPrice(s, a);
    }
    forall u ensures JobAtPrice(s', u) {
      assert JobAtPrice(s, u);
    }
  }

  lemma RunPriced(s: State, t: TxId)
    requires Inv(s) && Priced(s)
    ensures Priced(Apply(s, Run(t)))
  {
    if t in s.txs && JobOk(s.db, s.txs[t].job) {
      assert TxAt(s, t);
      RunKeeps(s.db, s.txs[t], Held(s.txs - {t}));
    }
    StatePriced(s, Apply(s, Run(t)));
  }

  lemma CommitPriced(s: State, t: TxId)
    requires Inv(s) && Priced(s) && t in s.txs && s.txs[t].stage.Done?
    ensures Priced(Apply(s, Commit(t)))
  {
    var tx := s.txs[t];
    assert TxAt(s, t) && JobAtPrice(s, t);
    CommitIsAtomic(s.db, tx);
    if tx.job.PurchaseJob? && tx.job.coupon.Some? {
      assert EvaluationAtPrice(s, tx.job.attempt);
    }
    AtomicPriced(s.db, tx.job, tx.base);
    StatePriced(s, Apply(s, Commit(t)));
  }

  lemma StepPriced(s: State, step: Step)
    requires Inv(s) && Priced(s)
    ensures Priced(Apply(s, step))
  {
    match step
    case Auto(op) => AutoPriced(s, op);
    case Evaluate(c, u, subtotal, now) => EvaluatePriced(s, c, u, subtotal, now);
    case GiveUp(a) => StatePriced(s, Apply(s, step));
    case Begin(t, job) => BeginPriced(s, t, job);
    case Run(t) => RunPriced(s, t);
    case Commit(t) => if t in s.txs && s.txs[t].stage.Done? { CommitPriced(s, t); }
    case Abort(t) => StatePriced(s, Apply(s, step));
  }

  // ---------- whole runs ----------

  lemma {:induction false} PlayPriced(s: State, steps: seq<Step>)
    requires Inv(s) && Priced(s)
    ensures Priced(Play(s, steps))
    decreases |steps|
  {
    if steps != [] {
      StepPriced(s, steps[0]);
      ApplyKeeps(s, steps[0]);
      PlayPriced(Apply(s, steps[0]), steps[1..]);
    }
  }
}
