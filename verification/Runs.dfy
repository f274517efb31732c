/**
  Whole runs of the interleaving machine: the invariant every step keeps, the serial history every run is
  equal to, and what no run ever takes back.
 */
module Runs {
  import opened Results
  import opened CommerceModel
  import opened CommerceTx
  import opened CommerceInvariants
  import opened Interleaving
  import opened InterleavingProofs
  import opened Stability

  // ---------- the invariant ----------

  function BlockEnd(tx: Tx): nat {
    tx.base + IdsNeeded(tx.job)
  }

  ghost predicate TxAt(s: State, t: TxId) {
    t in s.txs ==>
      && TxOk(s.db, s.txs[t])
      && Fresh(s.db, s.txs[t].base, IdsNeeded(s.txs[t].job))
      && BlockEnd(s.txs[t]) <= s.nextId
      && AttemptHeld(s.evals, s.txs[t].job)
  }

  predicate Apart(a: Tx, b: Tx) {
    a.locks !! b.locks && (BlockEnd(a) <= b.base || BlockEnd(b) <= a.base) && Attempt(a.job) !! Attempt(b.job)
  }

  /** Two transactions never hold one lock, draw one identifier or spend one evaluation. */
  predicate ApartAt(txs: map<TxId, Tx>, t: TxId, u: TxId) {
    t in txs && u in txs && t != u ==> Apart(txs[t], txs[u])
  }

  ghost predicate AllApart(txs: map<TxId, Tx>) {
    forall t, u :: ApartAt(txs, t, u)
  }

  ghost predicate IdsBelow(db: Db, n: nat) {
    forall i :: i >= n ==> Unused(db, i)
  }

  predicate EvalsBelow(evals: map<Id, Evaluation>, n: nat) {
    forall a :: a in evals ==> a < n
  }

  ghost predicate Inv(s: State) {
    && DbOk(s.db)
    && IdsBelow(s.db, s.nextId)
    && EvalsBelow(s.evals, s.nextId)
    && AllApart(s.txs)
    && (forall t :: TxAt(s, t))
  }

  /** A shop before its first customer. */
  function Empty(coupons: map<Id, Coupon>, plans: map<Id, Plan>): State {
    State(Db([], map[], map[], [], map[], map[], map[], coupons, plans), map[], map[], 0)
  }

  lemma EmptyInv(coupons: map<Id, Coupon>, plans: map<Id, Plan>)
    ensures Inv(Empty(coupons, plans))
  {
    var db := Empty(coupons, plans).db;
    forall u ensures Balanced(db, u) {
      assert Values(db.payments, PaymentPart(u)) == map[] && Values(db.refunds, RefundPart(u)) == map[];
      assert Values(db.orders, OrderPart(u)) == map[] && Values(db.subs, SubPart(u)) == map[];
    }
  }

  // ---------- identifiers ----------

  lemma OpUses(db: Db, op: Op, base: Id, i: Id)
    requires OpEnabled(db, op) && i != base && Unused(db, i)
    ensures Unused(OpEffect(db, op, base), i)
  {}

  lemma PurchaseUses(db: Db, job: Job, base: Id, i: Id)
    requires job.PurchaseJob? && JobOk(db, job) && Atomic(db, job, base).Ok? && Fresh(db, base, IdsNeeded(job))
    requires Unused(db, i)
    requires !(base <= i < base + IdsNeeded(job))
    ensures Unused(Atomic(db, job, base).value, i)
  {
    var n := |job.lines|;
    FreshForLines(db, base, job);
    GrantOverlaysGranted(db.ents, job.user, job.lines, base, n);
    OverlaysAreGrants(db.ents, job.user, job.lines, base, n);
    var o := GrantOverlays(db.ents, job.user, job.lines, base, n);
    forall k | k in o ensures k in db.ents || base + 2 <= k < base + 2 + n {
      assert GrantedRow(db.ents, o[k], k, base, n);
    }
  }

  /** A transaction draws identifiers from its own block only. */
  lemma AtomicUses(db: Db, job: Job, base: Id, i: Id)
    requires JobOk(db, job) && Atomic(db, job, base).Ok? && Fresh(db, base, IdsNeeded(job)) && Unused(db, i)
    requires !(base <= i < base + IdsNeeded(job))
    ensures Unused(Atomic(db, job, base).value, i)
  {
    if job.PurchaseJob? {
      PurchaseUses(db, job, base, i);
    } else if job.ApproveJob? {
      assert i !in RevokeOverlay(db.ents, db.refunds[job.refund].order);
    }
  }

  // ---------- one step ----------

  lemma HeldContains(txs: map<TxId, Tx>, t: TxId)
    requires t in txs
    ensures txs[t].locks <= Held(txs)
  {
    forall l | l in txs[t].locks ensures l in Held(txs) {}
  }

  lemma TxAtAfter(s: State, s': State, u: TxId)
    requires TxAt(s, u) && u in s.txs && u in s'.txs && s'.txs[u] == s.txs[u]
    requires Evolves(s.db, s'.db, s.txs[u].locks) && RefundsOk(s.db.ledger, s.db.orders, s.db.refunds)
    requires forall i :: s.txs[u].base <= i < BlockEnd(s.txs[u]) ==> Unused(s'.db, i)
    requires s.nextId <= s'.nextId && AttemptHeld(s'.evals, s.txs[u].job)
    ensures TxAt(s', u)
  {
    TxStable(s.db, s'.db, s.txs[u]);
  }

  lemma AutoKeepsTx(s: State, op: Op, s': State, u: TxId)
    requires Inv(s) && u in s.txs && OpEnabled(s.db, op) && OpLocks(op) * Held(s.txs) == {}
    requires s' == s.(db := OpEffect(s.db, op, s.nextId), nextId := s.nextId + 2)
    ensures TxAt(s', u)
  {
    var tx := s.txs[u];
    assert TxAt(s, u) && Unused(s.db, s.nextId);
    HeldContains(s.txs, u);
    forall l | l in OpLocks(op) ensures l !in tx.locks {
      assert l !in OpLocks(op) * Held(s.txs);
    }
    OpEvolves(s.db, op, s.nextId, tx.locks);
    forall i | tx.base <= i < BlockEnd(tx) ensures Unused(s'.db, i) {
      OpUses(s.db, op, s.nextId, i);
    }
    TxAtAfter(s, s', u);
  }

  lemma AutoKeeps(s: State, op: Op)
    requires Inv(s)
    ensures Inv(Apply(s, Auto(op)))
  {
    if OpEnabled(s.db, op) && OpLocks(op) * Held(s.txs) == {} {
      var s' := s.(db := OpEffect(s.db, op, s.nextId), nextId := s.nextId + 2);
      assert Unused(s.db, s.nextId);
      OpKeeps(s.db, op, s.nextId);
      forall i | i >= s'.nextId ensures Unused(s'.db, i) {
        OpUses(s.db, op, s.nextId, i);
      }
      forall u ensures TxAt(s', u) {
        assert TxAt(s, u);
        if u in s.txs {
          AutoKeepsTx(s, op, s', u);
        }
      }
    }
  }

  /** Removing a transaction and its evaluation. */
  lemma EndedKeeps(s: State, t: TxId)
    requires Inv(s) && t in s.txs
    ensures Inv(Ended(s, t))
  {
    var s' := Ended(s, t);
    forall u ensures TxAt(s', u) {
      assert TxAt(s, u) && ApartAt(s.txs, u, t);
    }
    forall u, v ensures ApartAt(s'.txs, u, v) {
      assert ApartAt(s.txs, u, v);
    }
  }

  /** A new transaction draws ids nobody has and spends an evaluation nobody else spends. */
  lemma BegunApart(s: State, t: TxId, job: Job, u: TxId)
    requires Inv(s) && t !in s.txs && AttemptFree(s, job) && u in s.txs
    ensures var tx := Tx(job, s.nextId, Ready, NO_WORK, {}); Apart(s.txs[u], tx) && Apart(tx, s.txs[u])
  {
    assert TxAt(s, u);
  }

  lemma BegunOk(db: Db, job: Job, base: Id)
    requires JobOk(db, job)
    ensures TxOk(db, Tx(job, base, Ready, NO_WORK, {}))
  {}

  lemma BeginKeeps(s: State, t: TxId, job: Job)
    requires Inv(s) && t !in s.txs && JobOk(s.db, job) && JobQuoted(s.db.plans, job) && AttemptFree(s, job)
    ensures Inv(Apply(s, Begin(t, job)))
  {
    var tx := Tx(job, s.nextId, Ready, NO_WORK, {});
    var s' := s.(txs := s.txs[t := tx], nextId := s.nextId + IdsNeeded(job));
    BegunOk(s.db, job, s.nextId);
    forall u ensures TxAt(s', u) {
      assert TxAt(s, u);
    }
    forall u, v ensures ApartAt(s'.txs, u, v) {
      assert ApartAt(s.txs, u, v);
      if u in s.txs { BegunApart(s, t, job, u); }
      if v in s.txs { BegunApart(s, t, job, v); }
    }
  }

  lemma NextApart(txs: map<TxId, Tx>, t: TxId, tx: Tx, u: TxId)
    requires AllApart(txs) && t in txs && Continues(txs[t], tx, Held(txs - {t}))
    ensures u in txs && u != t ==> Apart(txs[u], tx) && Apart(tx, txs[u])
  {
    if u in txs && u != t {
      assert ApartAt(txs, u, t);
      var others := txs - {t};
      HeldContains(others, u);
      forall l | l in txs[u].locks ensures l !in tx.locks {
        assert l in Held(others) && l !in (tx.locks - txs[t].locks) * Held(others);
      }
    }
  }

  lemma NextKeeps(s: State, t: TxId, tx: Tx)
    requires Inv(s) && t in s.txs && TxOk(s.db, tx) && Continues(s.txs[t], tx, Held(s.txs - {t}))
    ensures Inv(s.(txs := s.txs[t := tx]))
  {
    var s' := s.(txs := s.txs[t := tx]);
    forall u ensures TxAt(s', u) {
      assert TxAt(s, u);
    }
    forall u, v ensures ApartAt(s'.txs, u, v) {
      assert ApartAt(s.txs, u, v);
      NextApart(s.txs, t, tx, u);
      NextApart(s.txs, t, tx, v);
    }
  }

  lemma RunStepKeeps(s: State, t: TxId)
    requires Inv(s) && t in s.txs && JobOk(s.db, s.txs[t].job)
    ensures Inv(Apply(s, Run(t)))
  {
    var busy := Held(s.txs - {t});
    assert TxAt(s, t);
    RunKeeps(s.db, s.txs[t], busy);
    match Exec(s.db, s.txs[t], busy)
    case Blocked =>
    case Failed(_) => EndedKeeps(s, t);
    case Next(tx) => NextKeeps(s, t, tx);
  }

  lemma CommitKeepsTx(s: State, t: TxId, s': State, u: TxId)
    requires Inv(s) && t in s.txs && s.txs[t].stage.Done? && u in s.txs && u != t
    requires s' == Ended(s, t).(db := View(s.db, s.txs[t].work))
    ensures TxAt(s', u)
  {
    var tx, other := s.txs[t], s.txs[u];
    assert TxAt(s, t) && TxAt(s, u) && ApartAt(s.txs, t, u);
    CommitIsAtomic(s.db, tx);
    CommitEvolves(s.db, tx, s'.db, other.locks);
    forall i | other.base <= i < BlockEnd(other) ensures Unused(s'.db, i) {
      AtomicUses(s.db, tx.job, tx.base, i);
    }
    TxAtAfter(s, s', u);
  }

  lemma CommitKeeps(s: State, t: TxId)
    requires Inv(s) && t in s.txs && s.txs[t].stage.Done?
    ensures Inv(Apply(s, Commit(t)))
  {
    var tx := s.txs[t];
    var s' := Ended(s, t).(db := View(s.db, tx.work));
    assert TxAt(s, t);
    CommitIsAtomic(s.db, tx);
    AtomicKeeps(s.db, tx.job, tx.base);
    forall i | i >= s'.nextId ensures Unused(s'.db, i) {
      AtomicUses(s.db, tx.job, tx.base, i);
    }
    forall u ensures TxAt(s', u) {
      if u in s'.txs {
        CommitKeepsTx(s, t, s', u);
      }
    }
    EndedKeeps(s, t);
  }

  lemma GiveUpKeeps(s: State, a: Id)
    requires Inv(s)
    ensures Inv(Apply(s, GiveUp(a)))
  {
    var s' := Apply(s, GiveUp(a));
    forall u ensures TxAt(s', u) {
      assert TxAt(s, u);
    }
  }

  lemma EvaluateKeeps(s: State, c: Id, user: User, subtotal: int, now: int)
    requires Inv(s)
    ensures Inv(Apply(s, Evaluate(c, user, subtotal, now)))
  {
    var s' := Apply(s, Evaluate(c, user, subtotal, now));
    forall u ensures TxAt(s', u) {
      assert TxAt(s, u);
    }
  }

  /** One step of any transaction, at any moment, keeps everything. */
  lemma ApplyKeeps(s: State, step: Step)
    requires Inv(s)
    ensures Inv(Apply(s, step))
  {
    match step
    case Auto(op) => AutoKeeps(s, op);
    case Evaluate(c, u, subtotal, now) => EvaluateKeeps(s, c, u, subtotal, now);
    case GiveUp(a) => GiveUpKeeps(s, a);
    case Begin(t, job) =>
      if t !in s.txs && JobOk(s.db, job) && JobQuoted(s.db.plans, job) && AttemptFree(s, job) {
        BeginKeeps(s, t, job);
      }
    case Run(t) => if t in s.txs && JobOk(s.db, s.txs[t].job) { RunStepKeeps(s, t); }
    case Commit(t) => if t in s.txs && s.txs[t].stage.Done? { CommitKeeps(s, t); }
    case Abort(t) => if t in s.txs { EndedKeeps(s, t); }
  }

  lemma PlayCons(s: State, step: Step, rest: seq<Step>)
    ensures Play(s, [step] + rest) == Play(Apply(s, step), rest)
  {
    assert ([step] + rest)[1..] == rest;
  }

  lemma {:induction false} PlayJoined(s: State, a: seq<Step>, b: seq<Step>)
    ensures Play(s, a + b) == Play(Play(s, a), b)
    decreases |a|
  {
    if a == [] {
      assert a + b == b;
    } else {
      var step, rest := a[0], a[1..];
      assert a == [step] + rest && a + b == [step] + (rest + b);
      PlayCons(s, step, rest);
      PlayCons(s, step, rest + b);
      PlayJoined(Apply(s, step), rest, b);
    }
  }

  lemma {:induction false} PlayKeeps(s: State, steps: seq<Step>)
    requires Inv(s)
    ensures Inv(Play(s, steps))
    decreases |steps|
  {
    if steps != [] {
      ApplyKeeps(s, steps[0]);
      PlayKeeps(Apply(s, steps[0]), steps[1..]);
    }
  }

  // ---------- the serial history ----------

  /** A transaction or a single statement, performed as one indivisible step. */
  datatype Action = Alone(op: Op, base: Id) | Whole(job: Job, base: Id)

  function Perform(db: Db, a: Action): Option<Db> {
    match a
    case Alone(op, base) => if OpEnabled(db, op) then Some(OpEffect(db, op, base)) else None
    case Whole(job, base) =>
      if JobOk(db, job) && Atomic(db, job, base).Ok? then Some(Atomic(db, job, base).value) else None
  }

  /** The tables after performing the actions one after another; None when one of them is refused. */
  function Serial(db: Db, history: seq<Action>): Option<Db>
    decreases |history|
  {
    if history == [] then Some(db)
    else match Perform(db, history[0])
      case None => None
      case Some(db') => Serial(db', history[1..])
  }

  /** The actions one step of the machine stands for: none, until it commits. */
  function Meaning(s: State, step: Step): seq<Action> {
    match step
    case Auto(op) => if OpEnabled(s.db, op) && OpLocks(op) * Held(s.txs) == {} then [Alone(op, s.nextId)] else []
    case Commit(t) => if t in s.txs && s.txs[t].stage.Done? then [Whole(s.txs[t].job, s.txs[t].base)] else []
    case _ => []
  }

  function History(s: State, steps: seq<Step>): seq<Action>
    decreases |steps|
  {
    if steps == [] then [] else Meaning(s, steps[0]) + History(Apply(s, steps[0]), steps[1..])
  }

  lemma StepIsSerial(s: State, step: Step)
    requires Inv(s)
    ensures if Meaning(s, step) == [] then Apply(s, step).db == s.db
            else |Meaning(s, step)| == 1 && Perform(s.db, Meaning(s, step)[0]) == Some(Apply(s, step).db)
  {
    if step.Commit? && step.t in s.txs && s.txs[step.t].stage.Done? {
      assert TxAt(s, step.t);
      CommitIsAtomic(s.db, s.txs[step.t]);
    }
  }

  /** Serializability: the tables after any run are those after performing its transactions whole, one at a
      time, in the order in which they committed, each of them passing every check it makes. */
  lemma {:induction false} PlayIsSerial(s: State, steps: seq<Step>)
    requires Inv(s)
    ensures Serial(s.db, History(s, steps)) == Some(Play(s, steps).db)
    decreases |steps|
  {
    if steps != [] {
      var next, rest := Apply(s, steps[0]), steps[1..];
      StepIsSerial(s, steps[0]);
      ApplyKeeps(s, steps[0]);
      PlayIsSerial(next, rest);
      var m, h := Meaning(s, steps[0]), History(next, rest);
      if m == [] {
        assert m + h == h;
      } else {
        assert (m + h)[0] == m[0] && (m + h)[1..] == h;
      }
    }
  }
}
