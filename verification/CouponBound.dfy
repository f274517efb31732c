/**
  How far a limited coupon can be overshot. The limit is checked before the purchase transaction and the
  redemption is written inside it, so purchases racing between the two can pass the limit together.
 */
module CouponBound {
  import opened FiniteSets
  import opened Results
  import opened CommerceModel
  import opened CommerceTx
  import opened Interleaving
  import opened InterleavingProofs
  import opened Runs

  /** An evaluation of the coupon by one of the users in question: anybody, or one user. */
  predicate Counts(e: Evaluation, c: Id, who: Option<User>) {
    e.coupon == c && (who.None? || e.user == who.value)
  }

  /** The purchases of the users in question that are between evaluating coupon `c` and committing. */
  function InFlight(evals: map<Id, Evaluation>, c: Id, who: Option<User>): set<Id> {
    set a | a in evals && Counts(evals[a], c, who)
  }

  /** Redemptions of the coupon: all of them, or one user's. */
  function Redeemed(rs: seq<Redemption>, c: Id, who: Option<User>): nat {
    if who.None? then CountCoupon(rs, c) else CountCouponUser(rs, c, who.value)
  }

  /** The limit that applies: MaxRedemptions over everybody, PerUserLimit for one user. */
  function Limit(c: Coupon, who: Option<User>): int {
    if who.None? then c.maxRedemptions else c.perUserLimit
  }

  /** At no point of the run are more than `k` such purchases in flight. */
  predicate AtMostInFlight(s: State, steps: seq<Step>, c: Id, who: Option<User>, k: nat)
    decreases |steps|
  {
    && |InFlight(s.evals, c, who)| <= k
    && (steps != [] ==> AtMostInFlight(Apply(s, steps[0]), steps[1..], c, who, k))
  }

  lemma RemovingEvaluations(evals: map<Id, Evaluation>, ids: set<Id>, c: Id, who: Option<User>)
    ensures |InFlight(evals - ids, c, who)| <= |InFlight(evals, c, who)|
  {
    Smaller(InFlight(evals - ids, c, who), InFlight(evals, c, who));
  }

  lemma SpendingEvaluation(evals: map<Id, Evaluation>, a: Id, c: Id, who: Option<User>)
    requires a in InFlight(evals, c, who)
    ensures |InFlight(evals - {a}, c, who)| == |InFlight(evals, c, who)| - 1
  {
    assert InFlight(evals - {a}, c, who) == InFlight(evals, c, who) - {a};
  }

  lemma MakingEvaluation(evals: map<Id, Evaluation>, a: Id, e: Evaluation, c: Id, who: Option<User>)
    requires a !in evals
    ensures |InFlight(evals[a := e], c, who)| == |InFlight(evals, c, who)| + (if Counts(e, c, who) then 1 else 0)
  {
    var before, after := InFlight(evals, c, who), InFlight(evals[a := e], c, who);
    assert a !in before;
    forall x | x != a ensures x in after <==> x in before {}
    assert a in after <==> Counts(e, c, who);
    if Counts(e, c, who) {
      assert after == before + {a};
    } else {
      assert after == before;
    }
  }

  // ---------- one step ----------

  /** Redemptions and purchases in flight together: what the invariant bounds. */
  function Exposure(s: State, c: Id, who: Option<User>): nat {
    Redeemed(s.db.redemptions, c, who) + |InFlight(s.evals, c, who)|
  }

  lemma PurchaseRedeems(s: State, t: TxId, c: Id, who: Option<User>)
    requires Inv(s) && t in s.txs && s.txs[t].stage.Done? && s.txs[t].job.PurchaseJob?
    ensures Exposure(Apply(s, Commit(t)), c, who) <= Exposure(s, c, who)
  {
    var tx := s.txs[t];
    assert TxAt(s, t);
    CommitIsAtomic(s.db, tx);
    var rs, rs' := s.db.redemptions, Apply(s, Commit(t)).db.redemptions;
    assert rs' == rs + NewRedemptions(tx.job, tx.base);
    if tx.job.coupon.Some? {
      RedemptionSnoc(rs, Redemption(tx.job.coupon.value, tx.job.user, tx.base, tx.job.discount));
      if tx.job.attempt in InFlight(s.evals, c, who) {
        SpendingEvaluation(s.evals, tx.job.attempt, c, who);
      } else {
        RemovingEvaluations(s.evals, {tx.job.attempt}, c, who);
      }
    } else {
      assert rs' == rs && s.evals - {} == s.evals;
    }
  }

  lemma CommitExposes(s: State, t: TxId, c: Id, who: Option<User>)
    requires Inv(s) && t in s.txs && s.txs[t].stage.Done?
    ensures Exposure(Apply(s, Commit(t)), c, who) <= Exposure(s, c, who)
  {
    if s.txs[t].job.PurchaseJob? {
      PurchaseRedeems(s, t, c, who);
    } else {
      assert TxAt(s, t);
      CommitIsAtomic(s.db, s.txs[t]);
      assert s.evals - {} == s.evals;
    }
  }

  /** An evaluation of the coupon, by one of the users in question, that finds its limits open. */
  predicate Opens(s: State, step: Step, c: Id, who: Option<User>) {
    && step.Evaluate? && step.coupon == c && (who.None? || step.user == who.value)
    && CouponUsable(s.db, c, step.user, step.subtotal, step.now)
  }

  lemma OpRedeemsNothing(db: Db, op: Op, base: Id)
    requires OpEnabled(db, op)
    ensures OpEffect(db, op, base).redemptions == db.redemptions && OpEffect(db, op, base).coupons == db.coupons
  {}

  lemma OpExposes(s: State, op: Op, c: Id, who: Option<User>)
    ensures Exposure(Apply(s, Auto(op)), c, who) == Exposure(s, c, who)
    ensures Apply(s, Auto(op)).db.coupons == s.db.coupons
  {
    if OpEnabled(s.db, op) {
      OpRedeemsNothing(s.db, op, s.nextId);
    }
  }

  lemma EvaluateExposes(s: State, d: Id, u: User, subtotal: int, now: int, c: Id, who: Option<User>)
    requires Inv(s)
    ensures var step := Evaluate(d, u, subtotal, now);
            Exposure(Apply(s, step), c, who) <= Exposure(s, c, who) + (if Opens(s, step, c, who) then 1 else 0)
  {
    if CouponUsable(s.db, d, u, subtotal, now) {
      var evaluation := Evaluation(d, u, subtotal, Discount(s.db.coupons[d], subtotal), now);
      MakingEvaluation(s.evals, s.nextId, evaluation, c, who);
    }
  }

  lemma EndedExposes(s: State, t: TxId, c: Id, who: Option<User>)
    requires t in s.txs
    ensures Exposure(Ended(s, t), c, who) <= Exposure(s, c, who)
  {
    RemovingEvaluations(s.evals, Attempt(s.txs[t].job), c, who);
  }

  lemma RunExposes(s: State, t: TxId, c: Id, who: Option<User>)
    ensures Exposure(Apply(s, Run(t)), c, who) <= Exposure(s, c, who)
    ensures Apply(s, Run(t)).db == s.db
  {
    if t in s.txs {
      EndedExposes(s, t, c, who);
    }
  }

  /** Only an evaluation that finds the limit open raises the exposure, and by one. */
  lemma StepExposes(s: State, step: Step, c: Id, who: Option<User>)
    requires Inv(s)
    ensures Exposure(Apply(s, step), c, who) <= Exposure(s, c, who) + (if Opens(s, step, c, who) then 1 else 0)
    ensures Apply(s, step).db.coupons == s.db.coupons
    ensures step.Evaluate? ==> Apply(s, step).db == s.db
  {
    match step
    case Auto(op) => OpExposes(s, op, c, who);
    case Evaluate(d, u, subtotal, now) => EvaluateExposes(s, d, u, subtotal, now, c, who);
    case GiveUp(a) => RemovingEvaluations(s.evals, {a}, c, who);
    case Begin(_, _) =>
    case Run(t) => RunExposes(s, t, c, who);
    case Commit(t) => if t in s.txs && s.txs[t].stage.Done? { CommitExposes(s, t, c, who); }
    case Abort(t) => if t in s.txs { EndedExposes(s, t, c, who); }
  }

  // ---------- whole runs ----------

  lemma {:induction false} BoundKept(s: State, steps: seq<Step>, c: Id, who: Option<User>, k: nat)
    requires Inv(s) && c in s.db.coupons && Limit(s.db.coupons[c], who) > 0 && AtMostInFlight(s, steps, c, who, k)
    requires Exposure(s, c, who) < Limit(s.db.coupons[c], who) + k
    ensures Redeemed(Play(s, steps).db.redemptions, c, who) < Limit(s.db.coupons[c], who) + k
    decreases |steps|
  {
    if steps != [] {
      StepExposes(s, steps[0], c, who);
      ApplyKeeps(s, steps[0]);
      BoundKept(Apply(s, steps[0]), steps[1..], c, who, k);
    }
  }

  /** When at most `k` purchases with a limited coupon are ever in flight at once, its committed redemptions never
      exceed the limit by more than `k - 1`: over everybody for MaxRedemptions, for each user for PerUserLimit. */
  lemma BoundedOvershoot(coupons: map<Id, Coupon>, plans: map<Id, Plan>, steps: seq<Step>, c: Id, who: Option<User>,
                         k: nat)
    requires c in coupons && Limit(coupons[c], who) > 0
    requires AtMostInFlight(Empty(coupons, plans), steps, c, who, k)
    ensures Redeemed(Play(Empty(coupons, plans), steps).db.redemptions, c, who) <= Limit(coupons[c], who) + k - 1
  {
    EmptyInv(coupons, plans);
    BoundKept(Empty(coupons, plans), steps, c, who, k);
  }

  /** Used by one purchase at a time, the coupon never exceeds its limit. */
  lemma SequentialUseKeepsLimit(coupons: map<Id, Coupon>, plans: map<Id, Plan>, steps: seq<Step>, c: Id,
                                who: Option<User>)
    requires c in coupons && Limit(coupons[c], who) > 0
    requires AtMostInFlight(Empty(coupons, plans), steps, c, who, 1)
    ensures Redeemed(Play(Empty(coupons, plans), steps).db.redemptions, c, who) <= Limit(coupons[c], who)
  {
    BoundedOvershoot(coupons, plans, steps, c, who, 1);
  }
}
