/**
  No redemption without an evaluation of its coupon while the coupon could be used: over every interleaved run each
  redemption, and each purchase in flight, goes back to an evaluation inside the coupon's own window.
 */
module CouponWindows {
  import opened Results
  import opened CommerceModel
  import opened CommerceTx
  import opened Interleaving
  import opened InterleavingProofs
  import opened Runs
  import opened CouponBound

  /** Step `i` evaluates the coupon for the user on the subtotal, at an instant when the coupon is active, has begun and
      has not ended. */
  predicate AskedAt(coupons: map<Id, Coupon>, seen: seq<Step>, i: nat, c: Id, user: User, subtotal: int, at: int) {
    && i < |seen| && seen[i] == Evaluate(c, user, subtotal, at)
    && c in coupons && coupons[c].active
    && coupons[c].startsAt <= at && (coupons[c].expiresAt.Some? ==> at < coupons[c].expiresAt.value)
  }

  ghost predicate Asked(coupons: map<Id, Coupon>, seen: seq<Step>, c: Id, user: User, subtotal: int, at: int) {
    exists i: nat :: AskedAt(coupons, seen, i, c, user, subtotal, at)
  }

  /** The amount that evaluation promised. */
  predicate Promised(coupons: map<Id, Coupon>, c: Id, subtotal: int, discount: int) {
    c in coupons && discount == Discount(coupons[c], subtotal)
  }

  ghost predicate EvaluationTraced(s: State, seen: seq<Step>, a: Id) {
    a in s.evals ==>
      var e := s.evals[a];
      && Asked(s.db.coupons, seen, e.coupon, e.user, e.subtotal, e.at)
      && Promised(s.db.coupons, e.coupon, e.subtotal, e.discount)
  }

  ghost predicate RedemptionTraced(db: Db, seen: seq<Step>, k: nat) {
    k < |db.redemptions| ==>
      var r := db.redemptions[k];
      exists subtotal, at :: && Asked(db.coupons, seen, r.coupon, r.user, subtotal, at)
                             && Promised(db.coupons, r.coupon, subtotal, r.discount)
  }

  /** After the steps seen so far. */
  ghost predicate Traced(s: State, seen: seq<Step>) {
    && (forall a :: EvaluationTraced(s, seen, a))
    && (forall k: nat :: RedemptionTraced(s.db, seen, k))
  }

  lemma StillAsked(coupons: map<Id, Coupon>, seen: seq<Step>, step: Step, c: Id, user: User, subtotal: int, at: int)
    requires Asked(coupons, seen, c, user, subtotal, at)
    ensures Asked(coupons, seen + [step], c, user, subtotal, at)
  {
    var i: nat :| AskedAt(coupons, seen, i, c, user, subtotal, at);
    assert AskedAt(coupons, seen + [step], i, c, user, subtotal, at);
  }

  lemma StillTraced(s: State, seen: seq<Step>, step: Step)
    requires Traced(s, seen)
    ensures Traced(s, seen + [step])
  {
    forall a ensures EvaluationTraced(s, seen + [step], a) {
      assert EvaluationTraced(s, seen, a);
      if a in s.evals {
        var e := s.evals[a];
        StillAsked(s.db.coupons, seen, step, e.coupon, e.user, e.subtotal, e.at);
      }
    }
    forall k: nat ensures RedemptionTraced(s.db, seen + [step], k) {
      assert RedemptionTraced(s.db, seen, k);
      if k < |s.db.redemptions| {
        var r := s.db.redemptions[k];
        var subtotal, at :| && Asked(s.db.coupons, seen, r.coupon, r.user, subtotal, at)
                            && Promised(s.db.coupons, r.coupon, subtotal, r.discount);
        StillAsked(s.db.coupons, seen, step, r.coupon, r.user, subtotal, at);
      }
    }
  }

  /** A step that makes no evaluation and no redemption. */
  lemma FewerTraced(s: State, s': State, seen: seq<Step>)
    requires Traced(s, seen) && s'.db.coupons == s.db.coupons && s'.db.redemptions == s.db.redemptions
    requires forall a :: a in s'.evals ==> a in s.evals && s'.evals[a] == s.evals[a]
    ensures Traced(s', seen)
  {
    forall a ensures EvaluationTraced(s', seen, a) {
      assert EvaluationTraced(s, seen, a);
    }
    forall k: nat ensures RedemptionTraced(s'.db, seen, k) {
      assert RedemptionTraced(s.db, seen, k);
    }
  }

  lemma EvaluateTraced(s: State, seen: seq<Step>, c: Id, user: User, subtotal: int, now: int)
    requires Traced(s, seen) && CouponUsable(s.db, c, user, subtotal, now)
    ensures var step := Evaluate(c, user, subtotal, now); Traced(Apply(s, step), seen + [step])
  {
    var step := Evaluate(c, user, subtotal, now);
    var s' := Apply(s, step);
    StillTraced(s, seen, step);
    assert AskedAt(s.db.coupons, seen + [step], |seen|, c, user, subtotal, now);
    forall a ensures EvaluationTraced(s', seen + [step], a) {
      assert EvaluationTraced(s, seen + [step], a);
    }
    forall k: nat ensures RedemptionTraced(s'.db, seen + [step], k) {
      assert RedemptionTraced(s.db, seen + [step], k);
    }
  }

  /** What a commit adds to the redemptions. */
  lemma CommitRedemptions(s: State, t: TxId)
    requires Inv(s) && t in s.txs && s.txs[t].stage.Done?
    ensures var job, s' := s.txs[t].job, Apply(s, Commit(t));
            && JobOk(s.db, job) && AttemptHeld(s.evals, job)
            && s'.db.coupons == s.db.coupons
            && s'.db.redemptions ==
               s.db.redemptions + (if job.PurchaseJob? then NewRedemptions(job, s.txs[t].base) else [])
  {
    assert TxAt(s, t);
    CommitIsAtomic(s.db, s.txs[t]);
  }

  lemma CommitTraced(s: State, seen: seq<Step>, t: TxId)
    requires Inv(s) && Traced(s, seen) && t in s.txs && s.txs[t].stage.Done?
    ensures Traced(Apply(s, Commit(t)), seen)
  {
    var job, s' := s.txs[t].job, Apply(s, Commit(t));
    CommitRedemptions(s, t);
    forall a ensures EvaluationTraced(s', seen, a) {
      assert EvaluationTraced(s, seen, a);
    }
    forall k: nat ensures RedemptionTraced(s'.db, seen, k) {
      if k < |s.db.redemptions| {
        assert s'.db.redemptions[k] == s.db.redemptions[k] && RedemptionTraced(s.db, seen, k);
      } else if k < |s'.db.redemptions| {
        var e := s.evals[job.attempt];
        assert EvaluationTraced(s, seen, job.attempt);
        assert s'.db.redemptions[k] == Redemption(e.coupon, e.user, s.txs[t].base, e.discount);
        assert Asked(s.db.coupons, seen, e.coupon, e.user, e.subtotal, e.at)
               && Promised(s.db.coupons, e.coupon, e.subtotal, e.discount);
      }
    }
  }

  /** Only evaluations make evaluations, and only commits redeem. */
  lemma QuietStep(s: State, step: Step)
    requires Inv(s) && !step.Evaluate? && !step.Commit?
    ensures var s' := Apply(s, step);
            && s'.db.coupons == s.db.coupons && s'.db.redemptions == s.db.redemptions
            && forall a :: a in s'.evals ==> a in s.evals && s'.evals[a] == s.evals[a]
  {
    match step
    case Auto(op) => if OpEnabled(s.db, op) { OpRedeemsNothing(s.db, op, s.nextId); }
    case _ =>
  }

  lemma StepTraced(s: State, seen: seq<Step>, step: Step)
    requires Inv(s) && Traced(s, seen)
    ensures Traced(Apply(s, step), seen + [step])
  {
    StillTraced(s, seen, step);
    match step
    case Evaluate(c, u, subtotal, now) =>
      if CouponUsable(s.db, c, u, subtotal, now) { EvaluateTraced(s, seen, c, u, subtotal, now); }
    case Commit(t) =>
      if t in s.txs && s.txs[t].stage.Done? { CommitTraced(s, seen + [step], t); }
    case _ =>
      QuietStep(s, step);
      FewerTraced(s, Apply(s, step), seen + [step]);
  }

  lemma {:induction false} PlayTraced(s: State, seen: seq<Step>, steps: seq<Step>)
    requires Inv(s) && Traced(s, seen)
    ensures Traced(Play(s, steps), seen + steps)
    decreases |steps|
  {
    if steps == [] {
      assert seen + steps == seen;
    } else {
      StepTraced(s, seen, steps[0]);
      ApplyKeeps(s, steps[0]);
      PlayTraced(Apply(s, steps[0]), seen + [steps[0]], steps[1..]);
      assert seen + [steps[0]] + steps[1..] == seen + steps;
    }
  }

  lemma {:induction false} CouponsStay(s: State, steps: seq<Step>)
    requires Inv(s)
    ensures Play(s, steps).db.coupons == s.db.coupons
    decreases |steps|
  {
    if steps != [] {
      StepExposes(s, steps[0], 0, None);
      ApplyKeeps(s, steps[0]);
      CouponsStay(Apply(s, steps[0]), steps[1..]);
    }
  }

  /** Every redemption of a run, by whomever and however late it commits, was promised by an earlier evaluation of its
      coupon for its user, made while the coupon was active and inside its window. */
  lemma RedeemedInWindow(coupons: map<Id, Coupon>, plans: map<Id, Plan>, steps: seq<Step>, k: nat)
    requires k < |Play(Empty(coupons, plans), steps).db.redemptions|
    ensures var r := Play(Empty(coupons, plans), steps).db.redemptions[k];
            exists i: nat, subtotal, at ::
              && AskedAt(coupons, steps, i, r.coupon, r.user, subtotal, at)
              && Promised(coupons, r.coupon, subtotal, r.discount)
  {
    var start := Empty(coupons, plans);
    EmptyInv(coupons, plans);
    PlayTraced(start, [], steps);
    CouponsStay(start, steps);
    assert [] + steps == steps;
    var db := Play(start, steps).db;
    assert RedemptionTraced(db, steps, k);
  }
}
