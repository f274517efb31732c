/**
  Whole lives of subscriptions: any number of sweeps, sign-ups, extensions, cancellations, purchases and credits
  in any order, with the sweeps never further apart than a given gap.
 */
module Lifetimes {
  import opened Results
  import opened CommerceModel
  import opened CommerceTx
  import opened CommerceService
  import opened Renewals

  datatype Event =
    | Sweep(now: int, due: seq<Id>)
    | SignUp(user: User, plan: Id, autoRenew: bool, now: int)
    | Statement(op: Op)
    | Transaction(job: Job)

  /** `last` is when the last sweep ran, `clock` when the last timed event happened. */
  datatype Life = Life(db: Db, nextId: nat, last: int, clock: int)

  /** A sweep comes no later than `gap` after the previous one. Every other event may come at any time, except that
      only sweeps mark attempts and only sign-ups and sweeps touch periods. */
  ghost predicate Possible(l: Life, e: Event, w: Window, gap: int) {
    match e
    case Sweep(now, due) => l.clock <= now <= l.last + gap && Listing(l.db.subs, due, w, now)
    case SignUp(_, plan, _, now) => l.clock <= now && plan in l.db.plans && l.nextId !in l.db.subs
    case Statement(op) => OpEnabled(l.db, op) && !op.MarkAttempt?
    case Transaction(job) => JobOk(l.db, job) && !job.ExtendJob? && !job.CreateSubJob?
  }

  /** What Subscribe asks the database for: an extension of an active subscription, else a new one. */
  ghost predicate SignUpJob(db: Db, user: User, plan: Id, autoRenew: bool, now: int, job: Job)
    requires plan in db.plans
  {
    var p := db.plans[plan];
    if exists s :: ActiveOf(db, s, user, now) then
      job.ExtendJob? && ActiveOf(db, job.sub, user, now) && job == ExtendJob(job.sub, p.price, p.periodDays, false)
    else job == CreateSubJob(user, plan, p.price, p.periodDays, now + p.periodDays * MICROS_PER_DAY, autoRenew)
  }

  /** The new tables of a transaction, or the old ones when it fails. */
  function Committing(db: Db, job: Job, base: Id): Db
    requires JobOk(db, job)
  {
    match Atomic(db, job, base)
    case Ok(d) => d
    case Err(_) => db
  }

  ghost predicate Happens(l: Life, e: Event, w: Window, gap: int, l': Life) {
    && Possible(l, e, w, gap)
    && match e
       case Sweep(now, due) =>
         l' == Life(Swept(l.db, due, now, l.nextId), l.nextId + 2 * |due|, now, now)
       case SignUp(user, plan, autoRenew, now) =>
         exists job :: SignUpJob(l.db, user, plan, autoRenew, now, job) && JobOk(l.db, job)
                       && l' == Life(Committing(l.db, job, l.nextId), l.nextId + 2, l.last, now)
       case Statement(op) => l' == l.(db := OpEffect(l.db, op, l.nextId), nextId := l.nextId + 2)
       case Transaction(job) => l' == l.(db := Committing(l.db, job, l.nextId), nextId := l.nextId + IdsNeeded(job))
  }

  // ---------- nothing due is lost ----------

  /** The start of the window in which a subscription is to be renewed. */
  function Opening(sub: Subscription, w: Window): int {
    sub.expiresAt - Hours(w.lookahead)
  }

  /** It was tried inside its window. */
  predicate TriedInWindow(sub: Subscription, w: Window) {
    sub.lastAttempt.Some? && Opening(sub, w) <= sub.lastAttempt.value < sub.expiresAt + Hours(w.grace)
  }

  /** Kept between sweeps: a subscription that renews itself was tried inside its window, or its window has not
      opened at the last sweep and no earlier attempt can still hold the next one back. */
  predicate OnTrack(sub: Subscription, w: Window, last: int) {
    sub.autoRenew && !sub.status.SubCanceled? ==>
      || TriedInWindow(sub, w)
      || (last < Opening(sub, w)
          && (sub.lastAttempt.None? || sub.lastAttempt.value < Opening(sub, w) - Hours(w.retryAfter)))
  }

  /** The last try came by the last sweep, and before the window of the present expiry closes. */
  predicate MarkerBound(sub: Subscription, w: Window, last: int) {
    sub.lastAttempt.Some? ==> sub.lastAttempt.value <= last && sub.lastAttempt.value < sub.expiresAt + Hours(w.grace)
  }

  predicate SubOnTrack(l: Life, w: Window, s: Id) {
    s in l.db.subs ==>
      && OnTrack(l.db.subs[s], w, l.last)
      && MarkerBound(l.db.subs[s], w, l.last)
  }

  /** A period outlasts the lookahead, and reaches from the latest try of one window over its back-off to the opening
      of the next. */
  predicate LongEnough(days: nat, w: Window) {
    24 * days > w.lookahead && 24 * days >= w.grace + w.lookahead + w.retryAfter
  }

  predicate PeriodLongEnough(p: Plan, w: Window) {
    LongEnough(p.periodDays, w)
  }

  predicate PlansLongEnough(plans: map<Id, Plan>, w: Window) {
    forall p :: p in plans ==> PeriodLongEnough(plans[p], w)
  }

  ghost predicate Alive(l: Life, w: Window) {
    && l.last <= l.clock && PlansLongEnough(l.db.plans, w)
    && (forall s :: SubOnTrack(l, w, s))
  }

  /** The row alone, when the sweep tries it: the try lies in the window, and a success opens the next one after its
      back-off. */
  lemma TryKeepsRow(db: Db, w: Window, now: int, sub: Subscription, sub': Subscription)
    requires DueRow(sub, w, now) && SweptRow(db, w, now, sub, sub')
    requires sub.plan in db.plans ==> PeriodLongEnough(db.plans[sub.plan], w)
    ensures OnTrack(sub', w, now) && MarkerBound(sub', w, now)
  {}

  /** The row alone: a sweep within reach of the last one keeps a subscription on track. */
  lemma SweepKeepsRow(db: Db, w: Window, last: int, now: int, sub: Subscription, sub': Subscription)
    requires OnTrack(sub, w, last) && MarkerBound(sub, w, last)
    requires last <= now <= last + Hours(w.lookahead + w.grace)
    requires SweptRow(db, w, now, sub, sub') && (sub.plan in db.plans ==> PeriodLongEnough(db.plans[sub.plan], w))
    ensures OnTrack(sub', w, now) && MarkerBound(sub', w, now)
  {
    if DueRow(sub, w, now) {
      TryKeepsRow(db, w, now, sub, sub');
    }
  }

  lemma SweepKeeps(l: Life, e: Event, w: Window, gap: int, l': Life)
    requires Alive(l, w) && e.Sweep? && Happens(l, e, w, gap, l') && gap <= Hours(w.lookahead + w.grace)
    ensures Alive(l', w)
  {
    PlansStay(l.db, e.due, |e.due|, e.now, l.nextId);
    forall s ensures SubOnTrack(l', w, s) {
      assert SubOnTrack(l, w, s);
      if s in l.db.subs {
        SweepRow(l.db, e.due, w, e.now, l.nextId, s);
        SweepKeepsRow(l.db, w, l.last, e.now, l.db.subs[s], l'.db.subs[s]);
      }
    }
  }

  /** What a transaction makes of the subscriptions. */
  lemma CommittedSubs(db: Db, job: Job, base: Id)
    requires JobOk(db, job)
    ensures var d := Committing(db, job, base);
            && d.plans == db.plans
            && (d.subs == db.subs
                || (job.ExtendJob?
                    && d.subs == db.subs[job.sub := Extended(db.subs[job.sub], job.price, job.days, job.reactivate)])
                || (job.CreateSubJob? && d.subs == db.subs[base := NewSub(job)]))
  {}

  predicate Longer(subs: map<Id, Subscription>, subs': map<Id, Subscription>, s: Id, p: Plan) {
    s in subs && subs' == subs[s := Extended(subs[s], p.price, p.periodDays, false)]
  }

  /** What a sign-up makes of the subscriptions: nothing when the wallet cannot pay, else a longer active one or a
      new one. */
  ghost predicate SignedUp(db: Db, subs': map<Id, Subscription>, base: Id, plan: Id, now: int) {
    || subs' == db.subs
    || (plan in db.plans && base in subs' && subs' == db.subs[base := subs'[base]]
        && subs'[base].lastAttempt.None? && subs'[base].expiresAt == now + db.plans[plan].periodDays * MICROS_PER_DAY)
    || (plan in db.plans
        && exists s :: s in db.subs && db.subs[s].expiresAt > now && Longer(db.subs, subs', s, db.plans[plan]))
  }

  lemma SignUpMeans(l: Life, e: Event, w: Window, gap: int, l': Life)
    requires e.SignUp? && Happens(l, e, w, gap, l')
    ensures SignedUp(l.db, l'.db.subs, l.nextId, e.plan, e.now) && l'.db.plans == l.db.plans && l'.last == l.last
    ensures l'.clock == e.now
  {
    var job :| SignUpJob(l.db, e.user, e.plan, e.autoRenew, e.now, job) && JobOk(l.db, job)
               && l' == Life(Committing(l.db, job, l.nextId), l.nextId + 2, l.last, e.now);
    CommittedSubs(l.db, job, l.nextId);
    if job.ExtendJob? && l'.db.subs != l.db.subs {
      assert Longer(l.db.subs, l'.db.subs, job.sub, l.db.plans[e.plan]);
    }
  }

  /** The row alone: extending it before it is over keeps it on track. */
  lemma ExtensionKeepsRow(sub: Subscription, p: Plan, w: Window, last: int, now: int)
    requires OnTrack(sub, w, last) && MarkerBound(sub, w, last)
    requires last <= now < sub.expiresAt && PeriodLongEnough(p, w)
    ensures OnTrack(Extended(sub, p.price, p.periodDays, false), w, last)
  {}

  lemma SignUpKeepsRow(l: Life, e: Event, w: Window, gap: int, l': Life, s: Id)
    requires Alive(l, w) && e.SignUp? && Possible(l, e, w, gap)
    requires SignedUp(l.db, l'.db.subs, l.nextId, e.plan, e.now) && l'.db.plans == l.db.plans && l'.last == l.last
    ensures SubOnTrack(l', w, s)
  {
    assert SubOnTrack(l, w, s) && PeriodLongEnough(l.db.plans[e.plan], w);
    if s in l.db.subs && l.db.subs[s].expiresAt > e.now {
      ExtensionKeepsRow(l.db.subs[s], l.db.plans[e.plan], w, l.last, e.now);
    }
  }

  lemma SignUpKeeps(l: Life, e: Event, w: Window, gap: int, l': Life)
    requires Alive(l, w) && e.SignUp? && Happens(l, e, w, gap, l')
    ensures Alive(l', w)
  {
    SignUpMeans(l, e, w, gap, l');
    forall s ensures SubOnTrack(l', w, s) {
      SignUpKeepsRow(l, e, w, gap, l', s);
    }
  }

  /** What neither a sweep nor a sign-up changes about a subscription. */
  predicate LeftAlone(subs: map<Id, Subscription>, subs': map<Id, Subscription>, s: Id) {
    s in subs' ==>
      && s in subs
      && subs'[s].expiresAt == subs[s].expiresAt && subs'[s].lastAttempt == subs[s].lastAttempt
      && (subs'[s].autoRenew ==> subs[s].autoRenew) && (subs[s].status.SubCanceled? ==> subs'[s].status.SubCanceled?)
  }

  lemma StatementLeavesAlone(db: Db, op: Op, base: Id, s: Id)
    requires OpEnabled(db, op) && !op.MarkAttempt?
    ensures LeftAlone(db.subs, OpEffect(db, op, base).subs, s) && OpEffect(db, op, base).plans == db.plans
    ensures OpEffect(db, op, base).subs.Keys == db.subs.Keys
  {}

  lemma OthersLeaveAlone(l: Life, e: Event, w: Window, gap: int, l': Life, s: Id)
    requires (e.Statement? || e.Transaction?) && Happens(l, e, w, gap, l')
    ensures LeftAlone(l.db.subs, l'.db.subs, s) && l'.db.plans == l.db.plans && l'.db.subs.Keys == l.db.subs.Keys
    ensures l'.last == l.last && l'.clock == l.clock
  {
    if e.Statement? {
      StatementLeavesAlone(l.db, e.op, l.nextId, s);
    } else {
      CommittedSubs(l.db, e.job, l.nextId);
    }
  }

  lemma OthersKeep(l: Life, e: Event, w: Window, gap: int, l': Life)
    requires Alive(l, w) && (e.Statement? || e.Transaction?) && Happens(l, e, w, gap, l')
    ensures Alive(l', w)
  {
    forall s ensures SubOnTrack(l', w, s) {
      assert SubOnTrack(l, w, s);
      OthersLeaveAlone(l, e, w, gap, l', s);
    }
    OthersLeaveAlone(l, e, w, gap, l', 0);
  }

  lemma EventKeeps(l: Life, e: Event, w: Window, gap: int, l': Life)
    requires Alive(l, w) && Happens(l, e, w, gap, l') && gap <= Hours(w.lookahead + w.grace)
    ensures Alive(l', w)
  {
    match e
    case Sweep(_, _) => SweepKeeps(l, e, w, gap, l');
    case SignUp(_, _, _, _) => SignUpKeeps(l, e, w, gap, l');
    case _ => OthersKeep(l, e, w, gap, l');
  }

  // ---------- whole runs ----------

  ghost predicate HappensAt(lives: seq<Life>, events: seq<Event>, w: Window, gap: int, i: nat) {
    i < |events| && i + 1 < |lives| && Happens(lives[i], events[i], w, gap, lives[i + 1])
  }

  /** A run: `lives[i + 1]` is what `events[i]` makes of `lives[i]`. */
  ghost predicate Run(lives: seq<Life>, events: seq<Event>, w: Window, gap: int) {
    |lives| == |events| + 1 && forall i :: 0 <= i < |events| ==> HappensAt(lives, events, w, gap, i)
  }

  /** No subscriptions yet; the clock of the first sweep starts now. */
  predicate Beginning(l: Life, w: Window) {
    l.db.subs == map[] && l.last <= l.clock && PlansLongEnough(l.db.plans, w)
  }

  lemma {:induction false} RunAlive(lives: seq<Life>, events: seq<Event>, w: Window, gap: int, n: nat)
    requires Run(lives, events, w, gap) && Beginning(lives[0], w) && n < |lives| && gap <= Hours(w.lookahead + w.grace)
    ensures Alive(lives[n], w)
    decreases n
  {
    if n > 0 {
      RunAlive(lives, events, w, gap, n - 1);
      assert HappensAt(lives, events, w, gap, n - 1);
      EventKeeps(lives[n - 1], events[n - 1], w, gap, lives[n]);
    }
  }

  // ---------- tries and the expiry they are made for ----------

  /** Event `i` of the run tries subscription `s` while it is to run until `expiry`. */
  predicate TriedAt(lives: seq<Life>, events: seq<Event>, i: nat, s: Id, expiry: int) {
    && i < |events| && i < |lives|
    && events[i].Sweep? && s in events[i].due
    && s in lives[i].db.subs && lives[i].db.subs[s].expiresAt == expiry
  }

  /** One of the first `n` events tried the subscription for the very expiry it has after them. */
  ghost predicate TriedForPresent(lives: seq<Life>, events: seq<Event>, n: nat, s: Id) {
    n < |lives| && s in lives[n].db.subs
    && exists i: nat :: i < n && TriedAt(lives, events, i, s, lives[n].db.subs[s].expiresAt)
  }

  /** An expiry stays, or moves so far that no earlier try reaches the window of the new one. */
  predicate MovesOn(e: int, e': int, w: Window) {
    e' == e || e' >= e + Hours(w.grace + w.lookahead + w.retryAfter)
  }

  /** What one event may do to the expiry and the marker of a subscription. */
  predicate Moves(l: Life, e: Event, w: Window, l': Life, s: Id) {
    s in l'.db.subs ==>
      if s !in l.db.subs then l'.db.subs[s].lastAttempt.None? else
        && MovesOn(l.db.subs[s].expiresAt, l'.db.subs[s].expiresAt, w)
        && if e.Sweep? && s in e.due
           then DueRow(l.db.subs[s], w, e.now) && l'.db.subs[s].lastAttempt == Some(e.now)
           else l'.db.subs[s].lastAttempt == l.db.subs[s].lastAttempt
  }

  lemma SweepMoves(l: Life, e: Event, w: Window, gap: int, l': Life, s: Id)
    requires Alive(l, w) && e.Sweep? && Happens(l, e, w, gap, l')
    ensures Moves(l, e, w, l', s)
  {
    if s in l.db.subs {
      SweepRow(l.db, e.due, w, e.now, l.nextId, s);
    }
  }

  lemma SignUpMoves(l: Life, e: Event, w: Window, gap: int, l': Life, s: Id)
    requires Alive(l, w) && e.SignUp? && Possible(l, e, w, gap)
    requires SignedUp(l.db, l'.db.subs, l.nextId, e.plan, e.now)
    ensures Moves(l, e, w, l', s)
  {
    assert PeriodLongEnough(l.db.plans[e.plan], w);
  }

  lemma EventMoves(l: Life, e: Event, w: Window, gap: int, l': Life, s: Id)
    requires Alive(l, w) && Happens(l, e, w, gap, l')
    ensures Moves(l, e, w, l', s)
  {
    match e
    case Sweep(_, _) => SweepMoves(l, e, w, gap, l', s);
    case SignUp(_, _, _, _) =>
      SignUpMeans(l, e, w, gap, l');
      SignUpMoves(l, e, w, gap, l', s);
    case _ => OthersLeaveAlone(l, e, w, gap, l', s);
  }

  /** A marker inside the window of the present expiry was set by a try for that expiry. */
  ghost predicate MarkerTells(lives: seq<Life>, events: seq<Event>, n: nat, s: Id, w: Window) {
    n < |lives| && s in lives[n].db.subs && TriedInWindow(lives[n].db.subs[s], w) ==>
      TriedForPresent(lives, events, n, s)
  }

  lemma MarkerStep(lives: seq<Life>, events: seq<Event>, n: nat, s: Id, w: Window)
    requires n + 1 < |lives| && n < |events|
    requires Alive(lives[n], w) && Moves(lives[n], events[n], w, lives[n + 1], s)
    requires MarkerTells(lives, events, n, s, w)
    ensures MarkerTells(lives, events, n + 1, s, w)
  {
    var l, l' := lives[n], lives[n + 1];
    assert SubOnTrack(l, w, s);
    if s in l'.db.subs && TriedInWindow(l'.db.subs[s], w) {
      var e := l'.db.subs[s].expiresAt;
      if events[n].Sweep? && s in events[n].due {
        assert TriedAt(lives, events, n, s, e);
      } else {
        var i: nat :| i < n && TriedAt(lives, events, i, s, e);
        assert i < n + 1 && TriedAt(lives, events, i, s, e);
      }
    }
  }

  lemma {:induction false} RunMarkers(lives: seq<Life>, events: seq<Event>, w: Window, gap: int, n: nat, s: Id)
    requires Run(lives, events, w, gap) && Beginning(lives[0], w) && n < |lives| && gap <= Hours(w.lookahead + w.grace)
    ensures MarkerTells(lives, events, n, s, w)
    decreases n
  {
    if n > 0 {
      RunMarkers(lives, events, w, gap, n - 1, s);
      RunAlive(lives, events, w, gap, n - 1);
      assert HappensAt(lives, events, w, gap, n - 1);
      EventMoves(lives[n - 1], events[n - 1], w, gap, lives[n], s);
      MarkerStep(lives, events, n - 1, s, w);
    }
  }

  /** No renewal is lost: at any moment of any run, a self-renewing subscription whose window had opened by the last
      sweep has been tried inside that window, for the expiry it has now. */
  lemma NoRenewalLost(lives: seq<Life>, events: seq<Event>, w: Window, gap: int, n: nat, s: Id)
    requires Run(lives, events, w, gap) && Beginning(lives[0], w) && n < |lives| && gap <= Hours(w.lookahead + w.grace)
    requires s in lives[n].db.subs && lives[n].db.subs[s].autoRenew && !lives[n].db.subs[s].status.SubCanceled?
    requires lives[n].last >= Opening(lives[n].db.subs[s], w)
    ensures TriedInWindow(lives[n].db.subs[s], w) && TriedForPresent(lives, events, n, s)
  {
    RunAlive(lives, events, w, gap, n);
    assert SubOnTrack(lives[n], w, s);
    RunMarkers(lives, events, w, gap, n, s);
  }

  /** With the default window that takes sweeps at most 73 hours apart and plans of at least 4 days. */
  lemma DefaultWindowLosesNothing(lives: seq<Life>, events: seq<Event>, n: nat, s: Id)
    requires Run(lives, events, DEFAULT_WINDOW, Hours(73)) && n < |lives|
    requires lives[0].db.subs == map[] && lives[0].last <= lives[0].clock
    requires forall p :: p in lives[0].db.plans ==> lives[0].db.plans[p].periodDays >= 4
    requires s in lives[n].db.subs && lives[n].db.subs[s].autoRenew && !lives[n].db.subs[s].status.SubCanceled?
    requires lives[n].last >= lives[n].db.subs[s].expiresAt - Hours(1)
    ensures var sub := lives[n].db.subs[s];
            sub.lastAttempt.Some? && sub.expiresAt - Hours(1) <= sub.lastAttempt.value < sub.expiresAt + Hours(72)
    ensures TriedForPresent(lives, events, n, s)
  {
    NoRenewalLost(lives, events, DEFAULT_WINDOW, Hours(73), n, s);
  }

  /** The first sweep after the window opens still falls inside it. */
  predicate CaughtInTime(e: int, w: Window, last: int, now: int) {
    last < e - Hours(w.lookahead) <= now ==> now < e + Hours(w.grace)
  }

  /** Lookahead plus grace is exactly how far apart sweeps may be: any longer gap can jump over a whole window. */
  lemma GapIsExact(w: Window, gap: int)
    ensures (forall e, last, now :: now <= last + gap ==> CaughtInTime(e, w, last, now)) <==>
              gap <= Hours(w.lookahead + w.grace)
  {
    if gap > Hours(w.lookahead + w.grace) {
      var e := Hours(w.lookahead) + 1;
      assert !CaughtInTime(e, w, 0, e + Hours(w.grace));
    }
  }

  // ---------- attempts are spaced ----------

  /** The times at which the first `n` events tried subscription `s`. */
  function Tries(events: seq<Event>, n: nat, s: Id): seq<int>
    requires n <= |events|
  {
    if n == 0 then [] else
      Tries(events, n - 1, s)
      + (if events[n - 1].Sweep? && s in events[n - 1].due then [events[n - 1].now] else [])
  }

  predicate Spaced(tries: seq<int>, gap: int) {
    forall i :: 0 <= i < |tries| - 1 ==> tries[i + 1] - tries[i] > gap
  }

  /** The marker is the last try. */
  predicate MarkerIsLast(l: Life, tries: seq<int>, s: Id) {
    if s in l.db.subs then l.db.subs[s].lastAttempt == (if tries == [] then None else Some(tries[|tries| - 1]))
    else tries == []
  }

  lemma EventMarks(l: Life, e: Event, w: Window, gap: int, l': Life, s: Id)
    requires Happens(l, e, w, gap, l')
    ensures s in l.db.subs ==> s in l'.db.subs
    ensures s !in l.db.subs && s in l'.db.subs ==> l'.db.subs[s].lastAttempt.None?
    ensures s in l.db.subs && !(e.Sweep? && s in e.due) ==> l'.db.subs[s].lastAttempt == l.db.subs[s].lastAttempt
    ensures e.Sweep? && s in e.due ==>
              s in l.db.subs && l'.db.subs[s].lastAttempt == Some(e.now) && DueRow(l.db.subs[s], w, e.now)
  {
    match e
    case Sweep(now, due) =>
      if s in l.db.subs {
        SweepRow(l.db, due, w, now, l.nextId, s);
      }
    case SignUp(_, _, _, _) => SignUpMeans(l, e, w, gap, l');
    case _ => OthersLeaveAlone(l, e, w, gap, l', s);
  }

  lemma TryKept(l: Life, e: Event, w: Window, gap: int, l': Life, s: Id, tries: seq<int>)
    requires Happens(l, e, w, gap, l') && Spaced(tries, Hours(w.retryAfter)) && MarkerIsLast(l, tries, s)
    ensures var tries' := tries + (if e.Sweep? && s in e.due then [e.now] else []);
            Spaced(tries', Hours(w.retryAfter)) && MarkerIsLast(l', tries', s)
  {
    EventMarks(l, e, w, gap, l', s);
  }

  ghost predicate TriesOk(l: Life, tries: seq<int>, w: Window, s: Id) {
    Spaced(tries, Hours(w.retryAfter)) && MarkerIsLast(l, tries, s)
  }

  lemma TriesStep(lives: seq<Life>, events: seq<Event>, w: Window, gap: int, n: nat, s: Id)
    requires Run(lives, events, w, gap) && 0 < n <= |events|
    requires TriesOk(lives[n - 1], Tries(events, n - 1, s), w, s)
    ensures TriesOk(lives[n], Tries(events, n, s), w, s)
  {
    assert HappensAt(lives, events, w, gap, n - 1);
    TryKept(lives[n - 1], events[n - 1], w, gap, lives[n], s, Tries(events, n - 1, s));
  }

  /** Two tries of one subscription are always more than the back-off apart, however the sweeps are spaced. */
  lemma {:induction false} AttemptsSpaced(lives: seq<Life>, events: seq<Event>, w: Window, gap: int, n: nat, s: Id)
    requires Run(lives, events, w, gap) && lives[0].db.subs == map[] && n <= |events|
    ensures TriesOk(lives[n], Tries(events, n, s), w, s)
    decreases n
  {
    if n > 0 {
      AttemptsSpaced(lives, events, w, gap, n - 1, s);
      TriesStep(lives, events, w, gap, n, s);
    }
  }

  /** With the default window that is more than six hours. */
  lemma DefaultAttemptsSpaced(lives: seq<Life>, events: seq<Event>, gap: int, n: nat, s: Id, i: nat)
    requires Run(lives, events, DEFAULT_WINDOW, gap) && lives[0].db.subs == map[] && n <= |events|
    requires i + 1 < |Tries(events, n, s)|
    ensures Tries(events, n, s)[i + 1] - Tries(events, n, s)[i] > 6 * 3_600_000_000
  {
    AttemptsSpaced(lives, events, DEFAULT_WINDOW, gap, n, s);
  }

  // ---------- who is never charged again ----------

  /** It does not renew itself: switched off, or canceled. */
  predicate Stopped(sub: Subscription) {
    !sub.autoRenew || sub.status.SubCanceled?
  }

  lemma StoppedSweep(l: Life, e: Event, w: Window, gap: int, l': Life, s: Id)
    requires e.Sweep? && Happens(l, e, w, gap, l') && s in l.db.subs && Stopped(l.db.subs[s])
    ensures s !in e.due && s in l'.db.subs && Stopped(l'.db.subs[s])
  {
    SweepSpares(l.db, e.due, e.now, l.nextId, s);
  }

  lemma StoppedStays(l: Life, e: Event, w: Window, gap: int, l': Life, s: Id)
    requires Happens(l, e, w, gap, l') && s in l.db.subs && Stopped(l.db.subs[s])
    ensures s in l'.db.subs && Stopped(l'.db.subs[s]) && !(e.Sweep? && s in e.due)
  {
    match e
    case Sweep(_, _) => StoppedSweep(l, e, w, gap, l', s);
    case SignUp(user, plan, autoRenew, now) =>
      var job :| SignUpJob(l.db, user, plan, autoRenew, now, job) && JobOk(l.db, job)
                 && l' == Life(Committing(l.db, job, l.nextId), l.nextId + 2, l.last, now);
      CommittedSubs(l.db, job, l.nextId);
    case _ => OthersLeaveAlone(l, e, w, gap, l', s);
  }

  /** A subscription that does not renew itself is never tried again, in any continuation of any run. */
  lemma {:induction false} StoppedNeverTried(lives: seq<Life>, events: seq<Event>, w: Window, gap: int, i: nat, n: nat,
                                             s: Id)
    requires Run(lives, events, w, gap) && i <= n < |lives|
    requires s in lives[i].db.subs && Stopped(lives[i].db.subs[s])
    ensures s in lives[n].db.subs && Stopped(lives[n].db.subs[s])
    ensures Tries(events, n, s) == Tries(events, i, s)
    decreases n
  {
    if i < n {
      StoppedNeverTried(lives, events, w, gap, i, n - 1, s);
      assert HappensAt(lives, events, w, gap, n - 1);
      StoppedStays(lives[n - 1], events[n - 1], w, gap, lives[n], s);
    }
  }

  /** Canceled and no longer renewing itself, with the given end and charges. */
  predicate CanceledAs(l: Life, s: Id, expiry: int, charges: seq<int>) {
    && s in l.db.subs && l.db.subs[s].status.SubCanceled? && !l.db.subs[s].autoRenew
    && l.db.subs[s].expiresAt == expiry
    && Amounts(l.db.ledger, SubscriptionRef(s)) == charges
  }

  /** A row that charges a subscription is written by a transaction on that subscription. */
  predicate ChargesFor(job: Job, base: Id, r: LedgerRow) {
    r.source.SubscriptionRef? ==>
      (job.ExtendJob? && r.source.sub == job.sub) || (job.CreateSubJob? && r.source.sub == base)
  }

  /** The rows a transaction writes when it goes through. */
  function CommittedRows(db: Db, job: Job, base: Id): seq<LedgerRow>
    requires JobOk(db, job)
  {
    match job
    case SettleJob(p) =>
      var pay := db.payments[p];
      if pay.status.PaymentPending? then [LedgerRow(base + 1, pay.user, Credit, pay.amount, TopUp(p))] else []
    case ApproveJob(f) =>
      var ref := db.refunds[f];
      if ref.amount > 0 then [LedgerRow(base + 1, ref.user, Credit, ref.amount, RefundRef(f))] else []
    case _ => ChargeRows(db, job, base)
  }

  lemma CommittedLedger(db: Db, job: Job, base: Id)
    requires JobOk(db, job) && Atomic(db, job, base).Ok?
    ensures Atomic(db, job, base).value.ledger == db.ledger + CommittedRows(db, job, base)
  {}

  lemma RowsChargeFor(db: Db, job: Job, base: Id)
    requires JobOk(db, job)
    ensures var rows := CommittedRows(db, job, base); |rows| <= 1 && (|rows| == 1 ==> ChargesFor(job, base, rows[0]))
  {}

  lemma CommittedCharges(db: Db, job: Job, base: Id, s: Id)
    requires JobOk(db, job) && (job.ExtendJob? ==> job.sub != s) && (job.CreateSubJob? ==> base != s)
    ensures Amounts(Committing(db, job, base).ledger, SubscriptionRef(s)) == Amounts(db.ledger, SubscriptionRef(s))
  {
    if Atomic(db, job, base).Ok? {
      var rows := CommittedRows(db, job, base);
      CommittedLedger(db, job, base);
      RowsChargeFor(db, job, base);
      if rows == [] {
        assert db.ledger + rows == db.ledger;
      } else {
        assert rows == [rows[0]];
        LedgerSnoc(db.ledger, rows[0]);
      }
    }
  }

  lemma StatementCharges(db: Db, op: Op, base: Id, s: Id)
    requires OpEnabled(db, op)
    ensures Amounts(OpEffect(db, op, base).ledger, SubscriptionRef(s)) == Amounts(db.ledger, SubscriptionRef(s))
  {
    if op.CreditWallet? {
      LedgerSnoc(db.ledger, LedgerRow(base + 1, op.user, Credit, op.amount, Direct));
    }
  }

  lemma CanceledSignUp(l: Life, e: Event, w: Window, gap: int, l': Life, s: Id, expiry: int, charges: seq<int>)
    requires e.SignUp? && Happens(l, e, w, gap, l') && CanceledAs(l, s, expiry, charges)
    ensures CanceledAs(l', s, expiry, charges)
  {
    var job :| SignUpJob(l.db, e.user, e.plan, e.autoRenew, e.now, job) && JobOk(l.db, job)
               && l' == Life(Committing(l.db, job, l.nextId), l.nextId + 2, l.last, e.now);
    CommittedSubs(l.db, job, l.nextId);
    CommittedCharges(l.db, job, l.nextId, s);
  }

  lemma CanceledStays(l: Life, e: Event, w: Window, gap: int, l': Life, s: Id, expiry: int, charges: seq<int>)
    requires Happens(l, e, w, gap, l') && CanceledAs(l, s, expiry, charges)
    ensures CanceledAs(l', s, expiry, charges)
  {
    match e
    case Sweep(now, due) =>
      StoppedSweep(l, e, w, gap, l', s);
      SweepSpares(l.db, due, now, l.nextId, s);
    case SignUp(_, _, _, _) => CanceledSignUp(l, e, w, gap, l', s, expiry, charges);
    case Statement(op) =>
      OthersLeaveAlone(l, e, w, gap, l', s);
      StatementCharges(l.db, op, l.nextId, s);
    case Transaction(job) =>
      OthersLeaveAlone(l, e, w, gap, l', s);
      CommittedCharges(l.db, job, l.nextId, s);
  }

  lemma {:induction false} CanceledRun(lives: seq<Life>, events: seq<Event>, w: Window, gap: int, i: nat, n: nat, s: Id,
                                       expiry: int, charges: seq<int>)
    requires Run(lives, events, w, gap) && i <= n < |lives| && CanceledAs(lives[i], s, expiry, charges)
    ensures CanceledAs(lives[n], s, expiry, charges)
    decreases n
  {
    if i < n {
      CanceledRun(lives, events, w, gap, i, n - 1, s, expiry, charges);
      assert HappensAt(lives, events, w, gap, n - 1);
      CanceledStays(lives[n - 1], events[n - 1], w, gap, lives[n], s, expiry, charges);
    }
  }

  /** Canceling ends it: however the run goes on, the subscription is never tried, charged or extended again, and it
      ends when it would have ended. */
  lemma CancelIsFinal(lives: seq<Life>, events: seq<Event>, w: Window, gap: int, i: nat, n: nat, s: Id, user: User)
    requires Run(lives, events, w, gap) && i < n < |lives| && events[i] == Statement(CancelSub(s, user))
    ensures s in lives[i].db.subs && lives[i].db.subs[s].user == user
    ensures Tries(events, n, s) == Tries(events, i, s)
    ensures CanceledAs(lives[n], s, lives[i].db.subs[s].expiresAt, Amounts(lives[i].db.ledger, SubscriptionRef(s)))
  {
    assert HappensAt(lives, events, w, gap, i);
    StoppedNeverTried(lives, events, w, gap, i + 1, n, s);
    CanceledRun(lives, events, w, gap, i + 1, n, s, lives[i].db.subs[s].expiresAt,
                Amounts(lives[i].db.ledger, SubscriptionRef(s)));
  }
}
