/**
  Runs that lose a renewal: one as soon as sweeps may be further apart than lookahead plus grace, and one for every
  period that is not long enough. Together with Lifetimes they make both conditions exact, with and without a back-off.
 */
module LostRenewals {
  import opened CommerceModel
  import opened CommerceTx
  import opened Renewals
  import opened Lifetimes

  const SUB: Id := 0
  const PLAN: Id := 0

  /** After `n` events: a subscription renews itself, its window has closed, and it was never tried for the expiry
      it has. As it stands, no later sweep can pick it up. */
  ghost predicate Lost(lives: seq<Life>, events: seq<Event>, n: nat, s: Id, w: Window) {
    && n < |lives| && s in lives[n].db.subs
    && lives[n].db.subs[s].autoRenew && !lives[n].db.subs[s].status.SubCanceled?
    && lives[n].last >= lives[n].db.subs[s].expiresAt + Hours(w.grace)
    && !TriedForPresent(lives, events, n, s)
  }

  /** One free plan of the given length. */
  function Plans(days: nat): map<Id, Plan> {
    map[PLAN := Plan(0, days, 1)]
  }

  function Start(days: nat): Life {
    Life(Db([], map[], map[], [], map[], map[], map[], map[], Plans(days)), 0, 0, 0)
  }

  /** One subscription to that plan, and a sweep has just run. */
  ghost predicate Alone(l: Life, days: nat, sub: Subscription) {
    l.db.subs == map[SUB := sub] && l.db.plans == Plans(days) && sub.plan == PLAN && l.last == l.clock
  }

  function Last(lives: seq<Life>): Life
    requires lives != []
  {
    lives[|lives| - 1]
  }

  // ---------- putting runs together ----------

  lemma RunOne(l: Life, e: Event, w: Window, gap: int, l': Life)
    requires Happens(l, e, w, gap, l')
    ensures Run([l, l'], [e], w, gap)
  {
    assert HappensAt([l, l'], [e], w, gap, 0);
  }

  lemma RunThen(a: seq<Life>, es: seq<Event>, b: seq<Life>, fs: seq<Event>, w: Window, gap: int)
    requires Run(a, es, w, gap) && Run(b, fs, w, gap) && Last(a) == b[0]
    ensures Run(a + b[1..], es + fs, w, gap) && Last(a + b[1..]) == Last(b)
  {
    var lives, events := a + b[1..], es + fs;
    forall i | 0 <= i < |events| ensures HappensAt(lives, events, w, gap, i) {
      if i < |es| {
        assert HappensAt(a, es, w, gap, i);
      } else {
        assert HappensAt(b, fs, w, gap, i - |es|);
        assert lives[i + 1] == b[i - |es| + 1] && lives[i] == b[i - |es|];
      }
    }
  }

  /** The run never tries the subscription for the given expiry. */
  ghost predicate NoTry(lives: seq<Life>, events: seq<Event>, expiry: int) {
    forall i: nat :: !TriedAt(lives, events, i, SUB, expiry)
  }

  lemma NoTryThen(a: seq<Life>, es: seq<Event>, b: seq<Life>, fs: seq<Event>, expiry: int)
    requires |a| == |es| + 1 && |b| == |fs| + 1 && Last(a) == b[0]
    requires NoTry(a, es, expiry) && NoTry(b, fs, expiry)
    ensures NoTry(a + b[1..], es + fs, expiry)
  {
    var lives, events := a + b[1..], es + fs;
    forall i: nat ensures !TriedAt(lives, events, i, SUB, expiry) {
      if i < |es| {
        assert !TriedAt(a, es, i, SUB, expiry);
      } else if i < |events| {
        assert lives[i] == b[i - |es|];
        assert !TriedAt(b, fs, i - |es|, SUB, expiry);
      }
    }
  }

  // ---------- single events ----------

  function SignUpOrder(days: nat): Job {
    CreateSubJob(0, PLAN, 0, days, days * MICROS_PER_DAY, true)
  }

  /** The customer signs up at instant zero. */
  function Signed(days: nat): Subscription {
    NewSub(SignUpOrder(days))
  }

  lemma SignsUp(days: nat, w: Window, gap: int) returns (l: Life)
    ensures Happens(Start(days), SignUp(0, PLAN, true, 0), w, gap, l)
    ensures Alone(l, days, Signed(days)) && l.last == 0
  {
    var s, job := Start(days), SignUpOrder(days);
    assert s.db.ledger + [] == s.db.ledger;
    l := Life(Committing(s.db, job, 0), 2, 0, 0);
    assert l.db.subs == map[SUB := NewSub(job)];
    assert SignUpJob(s.db, 0, PLAN, true, 0, job) && JobOk(s.db, job);
  }

  /** A sweep that finds the subscription not due lets it expire when it is over, and does nothing else. */
  lemma SweepsIdly(l: Life, days: nat, sub: Subscription, w: Window, gap: int, now: int) returns (l': Life)
    requires Alone(l, days, sub) && l.last <= now <= l.last + gap && !DueRow(sub, w, now)
    ensures Happens(l, Sweep(now, []), w, gap, l')
    ensures Alone(l', days, ExpiredRow(sub, now)) && l'.last == now
  {
    forall s ensures !Due(l.db.subs, s, w, now) {}
    assert Listing(l.db.subs, [], w, now);
    l' := Life(Swept(l.db, [], now, l.nextId), l.nextId, now, now);
    assert l'.db.subs == map[SUB := ExpiredRow(sub, now)];
  }

  /** The one turn of a sweep that finds it due: the plan is free. */
  lemma TurnRenews(l: Life, days: nat, sub: Subscription, now: int)
    requires Alone(l, days, sub)
    ensures Known(l.db.subs, [SUB])
    ensures var d := AttemptAll(l.db, [SUB], 1, now, l.nextId);
            d.subs == map[SUB := Marked(Extended(sub, 0, days, true), now, true)] && d.plans == l.db.plans
  {
    assert AttemptAll(l.db, [SUB], 0, now, l.nextId) == l.db;
    assert Affordable(l.db, SUB);
  }

  /** A sweep that finds it due renews it. */
  lemma SweepRenews(l: Life, days: nat, sub: Subscription, w: Window, gap: int, now: int) returns (l': Life)
    requires Alone(l, days, sub) && l.last <= now <= l.last + gap && DueRow(sub, w, now)
    ensures Happens(l, Sweep(now, [SUB]), w, gap, l')
    ensures Alone(l', days, ExpiredRow(Marked(Extended(sub, 0, days, true), now, true), now)) && l'.last == now
  {
    forall s ensures s in [SUB] <==> Due(l.db.subs, s, w, now) {}
    assert Listing(l.db.subs, [SUB], w, now);
    l' := Life(Swept(l.db, [SUB], now, l.nextId), l.nextId + 2, now, now);
    TurnRenews(l, days, sub, now);
    assert l'.db.subs == map[SUB := ExpiredRow(Marked(Extended(sub, 0, days, true), now, true), now)];
  }

  // ---------- waiting ----------

  /** No sweep between the two instants finds the subscription due, and it is not over yet. */
  ghost predicate Waits(sub: Subscription, w: Window, from: int, until: int) {
    sub.expiresAt > until && forall now :: from <= now <= until ==> !DueRow(sub, w, now)
  }

  /** Sweeps as far apart as allowed, up to a given instant. */
  lemma {:induction false} Wait(l: Life, days: nat, sub: Subscription, w: Window, gap: int, until: int, expiry: int)
      returns (lives: seq<Life>, events: seq<Event>)
    requires Alone(l, days, sub) && gap > 0 && l.last <= until && Waits(sub, w, l.last, until)
    ensures Run(lives, events, w, gap) && lives[0] == l && NoTry(lives, events, expiry)
    ensures Alone(Last(lives), days, sub) && Last(lives).last == until
    decreases until - l.last
  {
    if l.last == until {
      lives, events := [l], [];
    } else {
      var now := if l.last + gap < until then l.last + gap else until;
      var next := SweepsIdly(l, days, sub, w, gap, now);
      var rest, more := Wait(next, days, sub, w, gap, until, expiry);
      RunOne(l, Sweep(now, []), w, gap, next);
      RunThen([l, next], [Sweep(now, [])], rest, more, w, gap);
      NoTryThen([l, next], [Sweep(now, [])], rest, more, expiry);
      lives, events := [l, next] + rest[1..], [Sweep(now, [])] + more;
    }
  }

  /** One more idle sweep at the end of a run. */
  lemma ThenIdle(lives: seq<Life>, events: seq<Event>, days: nat, sub: Subscription, w: Window, gap: int, now: int,
                 expiry: int)
      returns (lives': seq<Life>, events': seq<Event>)
    requires Run(lives, events, w, gap) && Alone(Last(lives), days, sub) && NoTry(lives, events, expiry)
    requires Last(lives).last <= now <= Last(lives).last + gap && !DueRow(sub, w, now)
    ensures Run(lives', events', w, gap) && lives'[0] == lives[0] && NoTry(lives', events', expiry)
    ensures Alone(Last(lives'), days, ExpiredRow(sub, now)) && Last(lives').last == now
  {
    var l := Last(lives);
    var l' := SweepsIdly(l, days, sub, w, gap, now);
    RunOne(l, Sweep(now, []), w, gap, l');
    RunThen(lives, events, [l, l'], [Sweep(now, [])], w, gap);
    NoTryThen(lives, events, [l, l'], [Sweep(now, [])], expiry);
    lives', events' := lives + [l, l'][1..], events + [Sweep(now, [])];
  }

  lemma ThenWait(lives: seq<Life>, events: seq<Event>, days: nat, sub: Subscription, w: Window, gap: int, until: int,
                 expiry: int)
      returns (lives': seq<Life>, events': seq<Event>)
    requires Run(lives, events, w, gap) && Alone(Last(lives), days, sub) && NoTry(lives, events, expiry)
    requires gap > 0 && Last(lives).last <= until && Waits(sub, w, Last(lives).last, until)
    ensures Run(lives', events', w, gap) && lives'[0] == lives[0] && NoTry(lives', events', expiry)
    ensures Alone(Last(lives'), days, sub) && Last(lives').last == until
  {
    var rest, more := Wait(Last(lives), days, sub, w, gap, until, expiry);
    RunThen(lives, events, rest, more, w, gap);
    NoTryThen(lives, events, rest, more, expiry);
    lives', events' := lives + rest[1..], events + more;
  }

  /** Signing up, and sweeping until just before the window opens; or no sweep yet when it is open from the start. */
  lemma UntilOpening(days: nat, w: Window, gap: int, expiry: int) returns (lives: seq<Life>, events: seq<Event>)
    requires gap > 0
    ensures Run(lives, events, w, gap) && lives[0] == Start(days) && Alone(Last(lives), days, Signed(days))
    ensures NoTry(lives, events, expiry)
    ensures Last(lives).last == (if 24 * days > w.lookahead then Opening(Signed(days), w) - 1 else 0)
  {
    var l := SignsUp(days, w, gap);
    RunOne(Start(days), SignUp(0, PLAN, true, 0), w, gap, l);
    lives, events := [Start(days), l], [SignUp(0, PLAN, true, 0)];
    if 24 * days > w.lookahead {
      lives, events := ThenWait(lives, events, days, Signed(days), w, gap, Opening(Signed(days), w) - 1, expiry);
    }
  }

  // ---------- the losing runs ----------

  lemma EndsLost(lives: seq<Life>, events: seq<Event>, days: nat, sub: Subscription, w: Window)
    requires |lives| == |events| + 1 && Alone(Last(lives), days, sub) && NoTry(lives, events, sub.expiresAt)
    requires sub.autoRenew && !sub.status.SubCanceled? && Last(lives).last >= sub.expiresAt + Hours(w.grace)
    ensures Lost(lives, events, |events|, SUB, w)
  {}

  /** Signing up, and a first sweep once the window has closed. */
  lemma FirstWindowMissed(w: Window, days: nat, gap: int) returns (lives: seq<Life>, events: seq<Event>)
    requires gap > 0
    requires gap > Hours(w.lookahead + w.grace) || (24 * days <= w.lookahead && gap == Hours(w.lookahead + w.grace))
    ensures Run(lives, events, w, gap) && lives[0] == Start(days)
    ensures Lost(lives, events, |events|, SUB, w)
  {
    var sub := Signed(days);
    var e := sub.expiresAt;
    lives, events := UntilOpening(days, w, gap, e);
    lives, events := ThenIdle(lives, events, days, sub, w, gap, e + Hours(w.grace), e);
    EndsLost(lives, events, days, ExpiredRow(sub, e + Hours(w.grace)), w);
  }

  /** Whenever sweeps may be further apart than lookahead plus grace, some run loses a renewal, whatever the period:
      one gap jumps over the whole window. */
  lemma LongGapLosesRenewal(w: Window, days: nat, gap: int) returns (lives: seq<Life>, events: seq<Event>)
    requires gap > Hours(w.lookahead + w.grace)
    ensures Run(lives, events, w, gap) && lives[0] == Start(days)
    ensures Lost(lives, events, |events|, SUB, w)
  {
    lives, events := FirstWindowMissed(w, days, gap);
  }

  /** The last instant at which the first period can be renewed. */
  function LateInstant(days: nat, w: Window): int {
    days * MICROS_PER_DAY + Hours(w.grace) - 1
  }

  /** The row a renewal at that instant leaves. */
  function Late(days: nat, w: Window): Subscription {
    Marked(Extended(Signed(days), 0, days, true), LateInstant(days, w), true)
  }

  /** The first period renewed at the last instant, by the first sweep after its window opened. */
  lemma RenewedLate(days: nat, w: Window) returns (lives: seq<Life>, events: seq<Event>)
    requires w.lookahead + w.grace > 0 && 24 * days > w.lookahead
    ensures Run(lives, events, w, Hours(w.lookahead + w.grace)) && lives[0] == Start(days)
    ensures Alone(Last(lives), days, ExpiredRow(Late(days, w), LateInstant(days, w)))
    ensures Last(lives).last == LateInstant(days, w)
    ensures NoTry(lives, events, Late(days, w).expiresAt)
  {
    var gap, at, sub := Hours(w.lookahead + w.grace), LateInstant(days, w), Signed(days);
    var expiry := Late(days, w).expiresAt;
    lives, events := UntilOpening(days, w, gap, expiry);
    var l := Last(lives);
    var l' := SweepRenews(l, days, sub, w, gap, at);
    RunOne(l, Sweep(at, [SUB]), w, gap, l');
    RunThen(lives, events, [l, l'], [Sweep(at, [SUB])], w, gap);
    NoTryThen(lives, events, [l, l'], [Sweep(at, [SUB])], expiry);
    lives, events := lives + [l, l'][1..], events + [Sweep(at, [SUB])];
  }

  /** A period shorter than lookahead and grace together: after a late renewal the next sweep may come when the next
      window has closed, back-off or none. */
  lemma ShorterThanReach(w: Window, days: nat) returns (lives: seq<Life>, events: seq<Event>)
    requires w.lookahead < 24 * days < w.lookahead + w.grace
    ensures Run(lives, events, w, Hours(w.lookahead + w.grace)) && lives[0] == Start(days)
    ensures Lost(lives, events, |events|, SUB, w)
  {
    var gap, at := Hours(w.lookahead + w.grace), LateInstant(days, w);
    var sub := ExpiredRow(Late(days, w), at);
    var now := sub.expiresAt + Hours(w.grace);
    lives, events := RenewedLate(days, w);
    lives, events := ThenIdle(lives, events, days, sub, w, gap, now, sub.expiresAt);
    EndsLost(lives, events, days, ExpiredRow(sub, now), w);
  }

  /** A longer period that the back-off outlasts: it covers the moment the next window opens, and the following sweep
      comes when it has closed. */
  lemma ShorterThanBackOff(w: Window, days: nat) returns (lives: seq<Life>, events: seq<Event>)
    requires w.lookahead + w.grace > 0 && 24 * days > w.lookahead
    requires w.lookahead + w.grace <= 24 * days < w.lookahead + w.grace + w.retryAfter
    ensures Run(lives, events, w, Hours(w.lookahead + w.grace)) && lives[0] == Start(days)
    ensures Lost(lives, events, |events|, SUB, w)
  {
    var gap, sub := Hours(w.lookahead + w.grace), Late(days, w);
    var opening, e := Opening(sub, w), sub.expiresAt;
    lives, events := RenewedLate(days, w);
    lives, events := ThenWait(lives, events, days, sub, w, gap, opening - 1, e);
    lives, events := ThenIdle(lives, events, days, sub, w, gap, opening, e);
    var over := ExpiredRow(sub, opening);
    lives, events := ThenIdle(lives, events, days, over, w, gap, e + Hours(w.grace), e);
    EndsLost(lives, events, days, ExpiredRow(over, e + Hours(w.grace)), w);
  }

  /** Even with sweeps no further apart than lookahead plus grace, a period that is not long enough loses a renewal. */
  lemma ShortPeriodLosesRenewal(w: Window, days: nat) returns (lives: seq<Life>, events: seq<Event>)
    requires w.lookahead + w.grace > 0 && !LongEnough(days, w)
    ensures Run(lives, events, w, Hours(w.lookahead + w.grace)) && lives[0] == Start(days)
    ensures Lost(lives, events, |events|, SUB, w)
  {
    if 24 * days <= w.lookahead {
      lives, events := FirstWindowMissed(w, days, Hours(w.lookahead + w.grace));
    } else if 24 * days < w.lookahead + w.grace {
      lives, events := ShorterThanReach(w, days);
    } else {
      lives, events := ShorterThanBackOff(w, days);
    }
  }

  /** With the default window three days are too short, so four is the least period that loses nothing. */
  lemma ThreeDaysLoseRenewal() returns (lives: seq<Life>, events: seq<Event>)
    ensures Run(lives, events, DEFAULT_WINDOW, Hours(73)) && lives[0] == Start(3)
    ensures Lost(lives, events, |events|, SUB, DEFAULT_WINDOW)
  {
    lives, events := ShortPeriodLosesRenewal(DEFAULT_WINDOW, 3);
  }

  // ---------- the exact conditions ----------

  /** A run in which nothing may be lost: the sweeps are close enough and every plan is long enough. */
  lemma NothingLost(lives: seq<Life>, events: seq<Event>, w: Window, gap: int, n: nat, s: Id)
    requires Run(lives, events, w, gap) && Beginning(lives[0], w) && n < |lives| && gap <= Hours(w.lookahead + w.grace)
    ensures !Lost(lives, events, n, s, w)
  {
    if s in lives[n].db.subs && lives[n].db.subs[s].autoRenew && !lives[n].db.subs[s].status.SubCanceled?
       && lives[n].last >= Opening(lives[n].db.subs[s], w) {
      NoRenewalLost(lives, events, w, gap, n, s);
    }
  }

  /** No subscriptions yet, and every plan lasts at least so many days. */
  predicate Opens(l: Life, days: nat) {
    l.db.subs == map[] && l.last <= l.clock && forall p :: p in l.db.plans ==> l.db.plans[p].periodDays >= days
  }

  /** With plans of at least `days` and sweeps at most `gap` apart, no run ever loses a renewal. */
  ghost predicate LosesNothing(w: Window, days: nat, gap: int) {
    forall lives, events, n: nat, s :: Run(lives, events, w, gap) && Opens(lives[0], days) ==>
                                         !Lost(lives, events, n, s, w)
  }

  lemma EnoughLosesNothing(w: Window, days: nat, gap: int)
    requires LongEnough(days, w) && gap <= Hours(w.lookahead + w.grace)
    ensures LosesNothing(w, days, gap)
  {
    forall lives, events, n: nat, s | Run(lives, events, w, gap) && Opens(lives[0], days)
      ensures !Lost(lives, events, n, s, w)
    {
      if n < |lives| {
        assert Beginning(lives[0], w);
        NothingLost(lives, events, w, gap, n, s);
      }
    }
  }

  /** The least period: with sweeps as far apart as the window is wide, nothing is ever lost exactly when every period
      is long enough. A window of no width is replaced by the default one before it is used. */
  lemma PeriodIsExact(w: Window, days: nat)
    requires w.lookahead + w.grace > 0
    ensures LosesNothing(w, days, Hours(w.lookahead + w.grace)) <==> LongEnough(days, w)
  {
    if LongEnough(days, w) {
      EnoughLosesNothing(w, days, Hours(w.lookahead + w.grace));
    } else {
      var lives, events := ShortPeriodLosesRenewal(w, days);
      assert Opens(lives[0], days);
    }
  }

  /** The greatest gap: with long enough periods, nothing is ever lost exactly when sweeps are no further apart than
      the window is wide. */
  lemma ReachIsExact(w: Window, days: nat, gap: int)
    requires LongEnough(days, w)
    ensures LosesNothing(w, days, gap) <==> gap <= Hours(w.lookahead + w.grace)
  {
    if gap <= Hours(w.lookahead + w.grace) {
      EnoughLosesNothing(w, days, gap);
    } else {
      var lives, events := LongGapLosesRenewal(w, days, gap);
      assert Opens(lives[0], days);
    }
  }
}
