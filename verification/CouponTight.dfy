/** The overshoot bound of a limited coupon is attained, over everybody and for a single user: for every limit and
    every number of racing purchases there is a run that reaches it. */
module CouponTight {
  import opened FiniteSets
  import opened Results
  import opened CommerceModel
  import opened CommerceTx
  import opened Interleaving
  import opened InterleavingProofs
  import opened Runs
  import opened CouponBound

  const COUPON: Id := 0
  const TX: TxId := 0

  /** One rial off, at most `limit` times: over everybody, or for each user. */
  function Limited(limit: int, who: Option<User>): Coupon {
    Coupon(Fixed, 1, 0, 0, if who.None? then limit else 0, if who.None? then 0 else limit, 0, None, true)
  }

  /** A one-rial line paid entirely by the coupon. */
  function FreePurchase(user: User, attempt: Id): Job {
    PurchaseJob(user, [Line(1, 1, 1, None)], 1, Some(COUPON), "", attempt)
  }

  predicate IsFree(job: Job) {
    job.PurchaseJob? && job == FreePurchase(job.user, job.attempt)
  }

  /** No transaction is open, and everybody in flight holds the coupon and counts towards the limit. */
  ghost predicate Quiet(s: State, who: Option<User>) {
    && Inv(s) && s.txs == map[]
    && COUPON in s.db.coupons
    && s.db.coupons[COUPON] == Limited(Limit(s.db.coupons[COUPON], who), who)
    && forall a :: a in s.evals ==>
                     s.evals[a] == Evaluation(COUPON, s.evals[a].user, 1, 1, 0) && Counts(s.evals[a], COUPON, who)
  }

  /** At no point of the run are more than `k` purchases in flight. */
  predicate Few(s: State, steps: seq<Step>, k: nat)
    decreases |steps|
  {
    |s.evals.Keys| <= k && (steps != [] ==> Few(Apply(s, steps[0]), steps[1..], k))
  }

  lemma FewCons(s: State, step: Step, rest: seq<Step>, k: nat)
    ensures Few(s, [step] + rest, k) <==> |s.evals.Keys| <= k && Few(Apply(s, step), rest, k)
  {
    assert ([step] + rest)[1..] == rest;
  }

  lemma {:induction false} FewJoined(s: State, a: seq<Step>, b: seq<Step>, k: nat)
    requires Few(s, a, k) && Few(Play(s, a), b, k)
    ensures Few(s, a + b, k)
    decreases |a|
  {
    if a == [] {
      assert a + b == b;
    } else {
      var step, rest := a[0], a[1..];
      assert a == [step] + rest && a + b == [step] + (rest + b);
      FewCons(s, step, rest, k);
      PlayCons(s, step, rest);
      FewJoined(Apply(s, step), rest, b, k);
      FewCons(s, step, rest + b, k);
    }
  }

  lemma PlayAppend(s: State, a: seq<Step>, b: seq<Step>, k: nat)
    ensures Play(s, a + b) == Play(Play(s, a), b)
    ensures Few(s, a, k) && Few(Play(s, a), b, k) ==> Few(s, a + b, k)
  {
    PlayJoined(s, a, b);
    if Few(s, a, k) && Few(Play(s, a), b, k) {
      FewJoined(s, a, b, k);
    }
  }

  lemma PlayOne(s: State, step: Step, k: nat)
    requires |s.evals.Keys| <= k && |Apply(s, step).evals.Keys| <= k
    ensures Play(s, [step]) == Apply(s, step) && Few(s, [step], k)
  {
    assert [step][1..] == [];
  }

  // ---------- one purchase, run alone ----------

  function Left(stage: Stage): nat {
    match stage
    case Ready => 5
    case Opened => 4
    case Debited => 3
    case Lines(n) => if n == 0 then 2 else 1
    case _ => 0
  }

  lemma FreeCharge(job: Job)
    requires IsFree(job)
    ensures ChargeOf(job) == 0 && |job.lines| == 1
  {
    assert job.lines[..0] == [];
  }

  lemma ExecMovesOn(db: Db, tx: Tx)
    requires TxOk(db, tx) && IsFree(tx.job) && ChargeOf(tx.job) == 0 && |tx.job.lines| == 1 && !tx.stage.Done?
    ensures var o := Exec(db, tx, {}); o.Next? && o.tx.job == tx.job && Left(o.tx.stage) < Left(tx.stage)
  {
    if tx.stage.Lines? {
      assert tx.base in tx.work.orders;
    }
  }

  /** With nobody in its way the purchase moves on by one statement. */
  lemma RunsOn(s: State)
    requires Inv(s) && s.txs.Keys == {TX} && IsFree(s.txs[TX].job) && !s.txs[TX].stage.Done?
    ensures var s' := Apply(s, Run(TX));
            && Inv(s') && s'.db == s.db && s'.evals == s.evals && s'.txs.Keys == {TX}
            && s'.txs[TX].job == s.txs[TX].job && Left(s'.txs[TX].stage) < Left(s.txs[TX].stage)
  {
    var tx := s.txs[TX];
    assert TxAt(s, TX);
    FreeCharge(tx.job);
    assert s.txs - {TX} == map[];
    assert Held(s.txs - {TX}) == {};
    ExecMovesOn(s.db, tx);
    RunStepKeeps(s, TX);
  }

  lemma {:induction false} RunToEnd(s: State, k: nat) returns (steps: seq<Step>)
    requires Inv(s) && s.txs.Keys == {TX} && IsFree(s.txs[TX].job) && |s.evals.Keys| <= k
    ensures var s' := Play(s, steps);
            && Inv(s') && s'.db == s.db && s'.evals == s.evals && s'.txs.Keys == {TX}
            && s'.txs[TX].job == s.txs[TX].job && s'.txs[TX].stage.Done?
    ensures Few(s, steps, k)
    decreases Left(s.txs[TX].stage)
  {
    if s.txs[TX].stage.Done? {
      steps := [];
    } else {
      RunsOn(s);
      var rest := RunToEnd(Apply(s, Run(TX)), k);
      steps := [Run(TX)] + rest;
      assert steps[1..] == rest;
    }
  }

  /** A committed free purchase redeems the coupon once and is no longer in flight. */
  lemma CommitRedeems(s: State, who: Option<User>)
    requires Inv(s) && s.txs.Keys == {TX} && IsFree(s.txs[TX].job) && s.txs[TX].stage.Done?
    requires who.None? || s.txs[TX].job.user == who.value
    ensures var s', job := Apply(s, Commit(TX)), s.txs[TX].job;
            && Inv(s') && s'.txs == map[] && s'.evals == s.evals - {job.attempt} && s'.db.coupons == s.db.coupons
            && Redeemed(s'.db.redemptions, COUPON, who) == Redeemed(s.db.redemptions, COUPON, who) + 1
  {
    var tx := s.txs[TX];
    assert TxAt(s, TX);
    ApplyKeeps(s, Commit(TX));
    CommitIsAtomic(s.db, tx);
    assert s.txs - {TX} == map[];
    RedemptionSnoc(s.db.redemptions, Redemption(COUPON, tx.job.user, tx.base, tx.job.discount));
  }

  lemma BeginsFree(s: State, a: Id, who: Option<User>)
    requires Quiet(s, who) && a in s.evals
    ensures var s' := Apply(s, Begin(TX, FreePurchase(s.evals[a].user, a)));
            && Inv(s') && s'.db == s.db && s'.evals == s.evals
            && s'.txs.Keys == {TX} && s'.txs[TX].job == FreePurchase(s.evals[a].user, a)
  {
    var job := FreePurchase(s.evals[a].user, a);
    assert job.lines[..0] == [] && SumPrices(job.lines) == 1;
    assert JobOk(s.db, job) && AttemptFree(s, job);
    ApplyKeeps(s, Begin(TX, job));
  }

  /** A purchase in flight can be finished. */
  lemma BuyOne(s: State, a: Id, who: Option<User>, k: nat) returns (steps: seq<Step>)
    requires Quiet(s, who) && a in s.evals && |s.evals.Keys| <= k
    ensures var s' := Play(s, steps);
            && Quiet(s', who) && s'.evals == s.evals - {a} && s'.db.coupons == s.db.coupons
            && Redeemed(s'.db.redemptions, COUPON, who) == Redeemed(s.db.redemptions, COUPON, who) + 1
    ensures Few(s, steps, k)
  {
    var begin := Begin(TX, FreePurchase(s.evals[a].user, a));
    BeginsFree(s, a, who);
    PlayOne(s, begin, k);
    var begun := Apply(s, begin);
    var runs := RunToEnd(begun, k);
    var done := Play(begun, runs);
    CommitRedeems(done, who);
    Smaller(done.evals.Keys - {a}, done.evals.Keys);
    PlayOne(done, Commit(TX), k);
    PlayAppend(s, [begin], runs, k);
    PlayAppend(s, [begin] + runs, [Commit(TX)], k);
    steps := [begin] + runs + [Commit(TX)];
  }

  /** All purchases in flight finish, each with its redemption, although the limit may be passed long before. */
  lemma {:induction false} BuyAll(s: State, who: Option<User>, k: nat) returns (steps: seq<Step>)
    requires Quiet(s, who) && |s.evals.Keys| <= k
    ensures var s' := Play(s, steps);
            && Quiet(s', who) && s'.evals == map[] && s'.db.coupons == s.db.coupons
            && Redeemed(s'.db.redemptions, COUPON, who) == Redeemed(s.db.redemptions, COUPON, who) + |s.evals.Keys|
    ensures Few(s, steps, k)
    decreases |s.evals.Keys|
  {
    if s.evals == map[] {
      steps := [];
    } else {
      var a :| a in s.evals;
      var first := BuyOne(s, a, who, k);
      var next := Play(s, first);
      assert next.evals.Keys == s.evals.Keys - {a};
      var rest := BuyAll(next, who, k);
      PlayAppend(s, first, rest, k);
      steps := first + rest;
    }
  }

  /** A new customer, or the one user once more. */
  function NextUser(s: State, who: Option<User>): User {
    if who.Some? then who.value else s.nextId
  }

  function NextEvaluation(s: State, who: Option<User>): Step {
    Evaluate(COUPON, NextUser(s, who), 1, 0)
  }

  lemma NextEvaluated(s: State, who: Option<User>)
    requires Quiet(s, who) && Redeemed(s.db.redemptions, COUPON, who) < Limit(s.db.coupons[COUPON], who)
    ensures Apply(s, NextEvaluation(s, who)) ==
            s.(evals := s.evals[s.nextId := Evaluation(COUPON, NextUser(s, who), 1, 1, 0)], nextId := s.nextId + 1)
  {
    assert CouponUsable(s.db, COUPON, NextUser(s, who), 1, 0);
  }

  lemma OneMore(evals: map<Id, Evaluation>, a: Id, e: Evaluation)
    requires a !in evals
    ensures |evals[a := e].Keys| == |evals.Keys| + 1
  {
    assert evals[a := e].Keys == evals.Keys + {a};
  }

  lemma EvaluateOne(s: State, who: Option<User>)
    requires Quiet(s, who) && Redeemed(s.db.redemptions, COUPON, who) < Limit(s.db.coupons[COUPON], who)
    ensures var next := Apply(s, NextEvaluation(s, who));
            Quiet(next, who) && next.db == s.db && |next.evals.Keys| == |s.evals.Keys| + 1
  {
    NextEvaluated(s, who);
    ApplyKeeps(s, NextEvaluation(s, who));
    OneMore(s.evals, s.nextId, Evaluation(COUPON, NextUser(s, who), 1, 1, 0));
  }

  /** While the limit is open, any number of purchases can be evaluated before the first of them commits. */
  lemma {:induction false} EvaluateMany(s: State, who: Option<User>, n: nat, k: nat) returns (steps: seq<Step>)
    requires Quiet(s, who) && |s.evals.Keys| + n <= k
    requires Redeemed(s.db.redemptions, COUPON, who) < Limit(s.db.coupons[COUPON], who)
    ensures var s' := Play(s, steps); Quiet(s', who) && s'.db == s.db && |s'.evals.Keys| == |s.evals.Keys| + n
    ensures Few(s, steps, k)
    decreases n
  {
    if n == 0 {
      steps := [];
    } else {
      EvaluateOne(s, who);
      var rest := EvaluateMany(Apply(s, NextEvaluation(s, who)), who, n - 1, k);
      PlayCons(s, NextEvaluation(s, who), rest);
      FewCons(s, NextEvaluation(s, who), rest, k);
      steps := [NextEvaluation(s, who)] + rest;
    }
  }

  /** One after another, the coupon can be used as long as its limit is open. */
  lemma {:induction false} UseInTurn(s: State, who: Option<User>, n: nat, k: nat) returns (steps: seq<Step>)
    requires Quiet(s, who) && s.evals == map[] && k > 0
    requires Redeemed(s.db.redemptions, COUPON, who) + n <= Limit(s.db.coupons[COUPON], who)
    ensures var s' := Play(s, steps);
            && Quiet(s', who) && s'.evals == map[] && s'.db.coupons == s.db.coupons
            && Redeemed(s'.db.redemptions, COUPON, who) == Redeemed(s.db.redemptions, COUPON, who) + n
    ensures Few(s, steps, k)
    decreases n
  {
    if n == 0 {
      steps := [];
    } else {
      var evaluate := EvaluateMany(s, who, 1, k);
      var mid := Play(s, evaluate);
      var buy := BuyAll(mid, who, k);
      PlayAppend(s, evaluate, buy, k);
      var rest := UseInTurn(Play(mid, buy), who, n - 1, k);
      PlayAppend(s, evaluate + buy, rest, k);
      steps := evaluate + buy + rest;
    }
  }

  lemma {:induction false} FewInFlight(s: State, steps: seq<Step>, c: Id, who: Option<User>, k: nat)
    requires Few(s, steps, k)
    ensures AtMostInFlight(s, steps, c, who, k)
    decreases |steps|
  {
    Smaller(InFlight(s.evals, c, who), s.evals.Keys);
    if steps != [] {
      FewInFlight(Apply(s, steps[0]), steps[1..], c, who, k);
    }
  }

  /** For every limit and every k there is a run with at most k purchases in flight at once whose committed
      redemptions are exactly the limit plus k - 1, over everybody or by one user: the bound cannot be lowered. */
  lemma OvershootIsAttained(limit: nat, who: Option<User>, k: nat, plans: map<Id, Plan>) returns (steps: seq<Step>)
    requires limit > 0 && k > 0
    ensures var start := Empty(map[COUPON := Limited(limit, who)], plans);
            && Limit(Limited(limit, who), who) == limit
            && AtMostInFlight(start, steps, COUPON, who, k)
            && Redeemed(Play(start, steps).db.redemptions, COUPON, who) == limit + k - 1
  {
    var coupons := map[COUPON := Limited(limit, who)];
    var start := Empty(coupons, plans);
    EmptyInv(coupons, plans);
    var inTurn := UseInTurn(start, who, limit - 1, k);
    var almost := Play(start, inTurn);
    var evaluate := EvaluateMany(almost, who, k, k);
    var racing := Play(almost, evaluate);
    var buy := BuyAll(racing, who, k);
    PlayAppend(start, inTurn, evaluate, k);
    PlayAppend(start, inTurn + evaluate, buy, k);
    steps := inTurn + evaluate + buy;
    FewInFlight(start, steps, COUPON, who, k);
  }
}
