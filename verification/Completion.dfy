/**
  A transaction that nobody disturbs comes to its end: run alone from any state, its statements lead to a commit that
  does what the whole transaction does, or to the failure the whole transaction meets.
 */
module Completion {
  import opened Results
  import opened CommerceModel
  import opened CommerceTx
  import opened Interleaving
  import opened InterleavingProofs
  import opened Runs

  /** An upper bound on the statements still to come. */
  function Remaining(job: Job, stage: Stage): nat {
    var lines := if job.PurchaseJob? then |job.lines| else 0;
    match stage
    case Ready => lines + 7
    case Opened => lines + 6
    case WalletLocked => lines + 5
    case BalanceRead(_) => lines + 4
    case Debited => lines + 3
    case Lines(n) => if n <= lines then lines - n + 1 else 0
    case PaymentLocked => 4
    case Resolved => 4
    case Credited => 3
    case Revoked => 2
    case Done => 0
  }

  /** What it has read is still so: the balance, and that the payment has not succeeded. */
  predicate UpToDate(db: Db, tx: Tx)
    requires JobOk(db, tx.job)
  {
    && (tx.stage.BalanceRead? ==> tx.stage.balance == Balance(db.ledger, Payer(db, tx.job)))
    && (tx.job.SettleJob? && (tx.stage.PaymentLocked? || tx.stage.Credited?) ==>
          !db.payments[tx.job.payment].status.PaymentSucceeded?)
  }

  /** With nobody in its way a statement moves the transaction on, or fails as the whole transaction fails. */
  predicate MovesOn(db: Db, tx: Tx)
    requires JobOk(db, tx.job)
  {
    match Exec(db, tx, {})
    case Blocked => false
    case Failed(e) => Atomic(db, tx.job, tx.base) == Err(e)
    case Next(tx') =>
      tx'.job == tx.job && tx'.base == tx.base && Remaining(tx.job, tx'.stage) < Remaining(tx.job, tx.stage)
      && UpToDate(db, tx')
  }

  lemma PurchaseOpens(db: Db, tx: Tx)
    requires TxOk(db, tx) && tx.stage.Ready? && tx.job.PurchaseJob?
    ensures MovesOn(db, tx)
  {
    ViewKeeps(db, tx.work);
  }

  lemma OthersOpen(db: Db, tx: Tx)
    requires TxOk(db, tx) && tx.stage.Ready? && !tx.job.PurchaseJob?
    ensures MovesOn(db, tx)
  {
    ViewKeeps(db, tx.work);
  }

  lemma WalletMovesOn(db: Db, tx: Tx)
    requires TxOk(db, tx) && (tx.stage.Opened? || tx.stage.WalletLocked?)
    ensures MovesOn(db, tx)
  {
    ViewKeeps(db, tx.work);
  }

  /** A balance that does not cover the charge fails the transaction, alone as in the crowd. */
  lemma Uncovered(db: Db, tx: Tx)
    requires TxOk(db, tx) && tx.stage.BalanceRead? && Balance(db.ledger, Payer(db, tx.job)) < ChargeOf(tx.job)
    ensures Atomic(db, tx.job, tx.base) == Err(InsufficientFunds)
  {
    assert Charge(db, tx.job, tx.base) == Err(InsufficientFunds);
  }

  lemma ChargeMovesOn(db: Db, tx: Tx)
    requires TxOk(db, tx) && UpToDate(db, tx) && tx.stage.BalanceRead?
    ensures MovesOn(db, tx)
  {
    if Balance(db.ledger, Payer(db, tx.job)) < ChargeOf(tx.job) {
      Uncovered(db, tx);
    }
  }

  lemma DebitedMovesOn(db: Db, tx: Tx)
    requires TxOk(db, tx) && tx.stage.Debited?
    ensures MovesOn(db, tx)
  {}

  lemma LinesMoveOn(db: Db, tx: Tx)
    requires TxOk(db, tx) && tx.stage.Lines?
    ensures MovesOn(db, tx)
  {
    assert tx.base in tx.work.orders;
  }

  lemma SettlingMovesOn(db: Db, tx: Tx)
    requires TxOk(db, tx) && UpToDate(db, tx) && tx.job.SettleJob? && (tx.stage.PaymentLocked? || tx.stage.Credited?)
    ensures MovesOn(db, tx)
  {
    ViewKeeps(db, tx.work);
  }

  lemma ApprovingMovesOn(db: Db, tx: Tx)
    requires TxOk(db, tx) && tx.job.ApproveJob? && (tx.stage.Resolved? || tx.stage.Credited? || tx.stage.Revoked?)
    ensures MovesOn(db, tx)
  {}

  lemma StatementMovesOn(db: Db, tx: Tx)
    requires TxOk(db, tx) && UpToDate(db, tx) && !tx.stage.Done?
    ensures MovesOn(db, tx)
  {
    match tx.stage
    case Ready => if tx.job.PurchaseJob? { PurchaseOpens(db, tx); } else { OthersOpen(db, tx); }
    case BalanceRead(_) => ChargeMovesOn(db, tx);
    case Debited => DebitedMovesOn(db, tx);
    case Lines(_) => LinesMoveOn(db, tx);
    case PaymentLocked => SettlingMovesOn(db, tx);
    case Credited => if tx.job.SettleJob? { SettlingMovesOn(db, tx); } else { ApprovingMovesOn(db, tx); }
    case Resolved => ApprovingMovesOn(db, tx);
    case Revoked => ApprovingMovesOn(db, tx);
    case _ => WalletMovesOn(db, tx);
  }

  // ---------- run alone ----------

  /** Only transaction `t` is open, and it has this job and this block of identifiers. */
  ghost predicate OnlyOpen(s: State, t: TxId, job: Job, base: Id) {
    Inv(s) && s.txs.Keys == {t} && s.txs[t].job == job && s.txs[t].base == base && JobOk(s.db, job)
    && UpToDate(s.db, s.txs[t])
  }

  /** It is gone, and so would the whole transaction be. */
  ghost predicate Refused(s: State, job: Job, base: Id) {
    s.txs == map[] && JobOk(s.db, job) && Atomic(s.db, job, base).Err?
  }

  lemma AloneMovesOn(s: State, t: TxId, job: Job, base: Id)
    requires OnlyOpen(s, t, job, base) && !s.txs[t].stage.Done?
    ensures var s' := Apply(s, Run(t));
            && s'.db == s.db
            && (Refused(s', job, base)
                || (OnlyOpen(s', t, job, base)
                    && Remaining(job, s'.txs[t].stage) < Remaining(job, s.txs[t].stage)))
  {
    var tx := s.txs[t];
    assert TxAt(s, t);
    assert s.txs - {t} == map[];
    assert Held(s.txs - {t}) == {};
    StatementMovesOn(s.db, tx);
    RunStepKeeps(s, t);
  }

  lemma {:induction false} AloneToEnd(s: State, t: TxId, job: Job, base: Id) returns (steps: seq<Step>)
    requires OnlyOpen(s, t, job, base)
    ensures forall i :: 0 <= i < |steps| ==> steps[i] == Run(t)
    ensures var s' := Play(s, steps);
            && s'.db == s.db
            && (Refused(s', job, base) || (OnlyOpen(s', t, job, base) && s'.txs[t].stage.Done?))
    decreases Remaining(job, s.txs[t].stage)
  {
    steps := [];
    if !s.txs[t].stage.Done? {
      AloneMovesOn(s, t, job, base);
      var rest := [];
      if t in Apply(s, Run(t)).txs {
        rest := AloneToEnd(Apply(s, Run(t)), t, job, base);
      }
      PlayCons(s, Run(t), rest);
      steps := [Run(t)] + rest;
    }
  }

  lemma Finished(s: State, t: TxId, job: Job, base: Id)
    requires Refused(s, job, base) || (OnlyOpen(s, t, job, base) && s.txs[t].stage.Done?)
    ensures JobOk(s.db, job)
    ensures var s' := Apply(s, Commit(t));
            && s'.txs == map[]
            && s'.db == (match Atomic(s.db, job, base) case Ok(d) => d case Err(_) => s.db)
  {
    if t in s.txs {
      assert TxAt(s, t);
      CommitIsAtomic(s.db, s.txs[t]);
      assert s.txs - {t} == map[];
    }
  }

  /** Begun alone in any state of the invariant, a transaction is finished by its own statements and its commit, and the
      tables are then what the whole transaction makes of them; when it cannot go through they are as before. */
  lemma AloneFinishes(s: State, t: TxId, job: Job) returns (runs: seq<Step>)
    requires Inv(s) && s.txs == map[] && JobOk(s.db, job) && JobQuoted(s.db.plans, job) && AttemptHeld(s.evals, job)
    ensures forall i :: 0 <= i < |runs| ==> runs[i] == Run(t)
    ensures var s' := Play(s, [Begin(t, job)] + runs + [Commit(t)]);
            && s'.txs == map[]
            && s'.db == (match Atomic(s.db, job, s.nextId) case Ok(d) => d case Err(_) => s.db)
  {
    var begun := Apply(s, Begin(t, job));
    BeginKeeps(s, t, job);
    assert begun.txs.Keys == {t};
    runs := AloneToEnd(begun, t, job, s.nextId);
    var done := Play(begun, runs);
    Finished(done, t, job, s.nextId);
    PlayCons(s, Begin(t, job), runs + [Commit(t)]);
    PlayJoined(begun, runs, [Commit(t)]);
    PlayCons(done, Commit(t), []);
    assert [Begin(t, job)] + runs + [Commit(t)] == [Begin(t, job)] + (runs + [Commit(t)]);
    assert [Commit(t)] + [] == [Commit(t)];
  }

  /** Broken off at any moment, it leaves no trace: the tables and every other transaction are as before, its locks are
      free and its evaluation is gone. */
  lemma AbortLeavesNoTrace(s: State, t: TxId)
    requires Inv(s) && t in s.txs
    ensures var s' := Apply(s, Abort(t));
            && Inv(s') && s'.db == s.db && t !in s'.txs
            && (forall u :: u in s.txs && u != t ==> u in s'.txs && s'.txs[u] == s.txs[u])
            && (forall l :: l in s.txs[t].locks ==> l !in Held(s'.txs))
            && (forall a :: a in s'.evals <==> a in s.evals && a !in Attempt(s.txs[t].job))
  {
    ApplyKeeps(s, Abort(t));
    forall u, l | u in s.txs && u != t && l in s.txs[t].locks ensures l !in s.txs[u].locks {
      assert ApartAt(s.txs, t, u);
    }
  }
}
