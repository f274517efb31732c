/**
  The commerce service itself, statement by statement over one database. Each method is proved to do exactly
  what its transaction or statement is specified to do, and to leave no trace when it fails.
 */
module CommerceService {
  import opened Results
  import opened CommerceModel
  import opened CommerceTx
  import opened CommerceInvariants
  import opened Interleaving
  import opened Runs

  /** What a client sends: an edition and, for a gift, who gets it. Prices come from the catalogue. */
  datatype PurchaseLine = PurchaseLine(edition: Id, recipient: Option<User>)
  datatype CatalogEdition = CatalogEdition(book: Id, price: nat)

  function Priced(catalog: map<Id, CatalogEdition>, line: PurchaseLine): Line
    requires line.edition in catalog
  {
    Line(line.edition, catalog[line.edition].book, catalog[line.edition].price, line.recipient)
  }

  predicate ForBuyer(line: PurchaseLine, buyer: User) {
    line.recipient.None? || line.recipient.value == buyer
  }

  /** The buyer asks for an edition that is already theirs. */
  predicate Owns(db: Db, buyer: User, catalog: map<Id, CatalogEdition>, line: PurchaseLine, now: int) {
    line.edition in catalog && ForBuyer(line, buyer)
    && EditionCheck(db.ents, buyer, line.edition, catalog[line.edition].book, now)
  }

  predicate Sellable(db: Db, buyer: User, catalog: map<Id, CatalogEdition>, line: PurchaseLine, now: int) {
    line.edition in catalog && !Owns(db, buyer, catalog, line, now)
  }

  predicate ActiveOf(db: Db, s: Id, user: User, now: int) {
    s in db.subs && db.subs[s].user == user && db.subs[s].status.SubActive? && db.subs[s].expiresAt > now
  }

  /** Subscription.HasCapacity: the plan still exists and has hours left. */
  predicate HasCapacity(db: Db, s: Id) {
    s in db.subs && db.subs[s].plan in db.plans && db.subs[s].hoursConsumed < db.plans[db.subs[s].plan].hourCap as real
  }

  predicate AllSellable(db: Db, buyer: User, catalog: map<Id, CatalogEdition>, lines: seq<PurchaseLine>, now: int) {
    forall i :: 0 <= i < |lines| ==> Sellable(db, buyer, catalog, lines[i], now)
  }

  function PricedAll(catalog: map<Id, CatalogEdition>, lines: seq<PurchaseLine>): seq<Line>
    requires forall i :: 0 <= i < |lines| ==> lines[i].edition in catalog
  {
    seq(|lines|, i requires 0 <= i < |lines| => Priced(catalog, lines[i]))
  }

  function DiscountFor(db: Db, coupon: Option<Id>, subtotal: int): int
    requires coupon.Some? ==> coupon.value in db.coupons
  {
    if coupon.Some? then Discount(db.coupons[coupon.value], subtotal) else 0
  }

  /** Every line can be sold to the buyer and the coupon, if there is one, can be used on what they cost. */
  predicate Quotable(db: Db, user: User, lines: seq<PurchaseLine>, coupon: Option<Id>, catalog: map<Id, CatalogEdition>,
                     now: int)
  {
    && AllSellable(db, user, catalog, lines, now)
    && (coupon.Some? ==> CouponUsable(db, coupon.value, user, SumPrices(PricedAll(catalog, lines)), now))
  }

  /** The wallet covers what the lines cost after the discount. */
  predicate Affords(db: Db, user: User, lines: seq<PurchaseLine>, coupon: Option<Id>, catalog: map<Id, CatalogEdition>,
                    now: int)
    requires Quotable(db, user, lines, coupon, catalog, now)
  {
    var subtotal := SumPrices(PricedAll(catalog, lines));
    Balance(db.ledger, user) >= subtotal - DiscountFor(db, coupon, subtotal)
  }

  predicate OwnerMayPlay(db: Db, buyer: User, line: Line, now: int) {
    EditionCheck(db.ents, if line.recipient.Some? then line.recipient.value else buyer, line.edition, line.book, now)
  }

  /** What a successful purchase means for the tables and for everybody named on it. */
  ghost predicate Bought(before: Db, base: Id, user: User, lines: seq<PurchaseLine>, coupon: Option<Id>, key: string,
                         catalog: map<Id, CatalogEdition>, now: int, after: Db, order: Id)
  {
    && order == base && order in after.orders
    && var o := after.orders[order];
    && o.user == user && o.status.OrderPaid? && o.key == key && o.coupon == coupon
    && AllSellable(before, user, catalog, lines, now) && o.items == PricedAll(catalog, lines)
    && o.subtotal == SumPrices(o.items) && o.total == o.subtotal - o.discount
    && (coupon.Some? ==> CouponUsable(before, coupon.value, user, o.subtotal, now)
                         && o.discount == Discount(before.coupons[coupon.value], o.subtotal))
    && (coupon.None? ==> o.discount == 0)
    && Balance(after.ledger, user) == Balance(before.ledger, user) - o.total
    && JobOk(before, PurchaseJob(user, o.items, o.discount, coupon, key, 0))
    && Atomic(before, PurchaseJob(user, o.items, o.discount, coupon, key, 0), base) == Ok(after)
    && (forall i, t: int :: 0 <= i < |lines| ==> OwnerMayPlay(after, user, o.items[i], t))
  }

  /** The tables in the middle of a purchase: charged, and the first `n` lines written and granted. */
  ghost function WithLines(before: Db, job: Job, base: Id, n: nat): Db
    requires job.PurchaseJob? && JobOk(before, job) && n <= |job.lines|
  {
    before.(ledger := before.ledger + ChargeRows(before, job, base),
            orders := before.orders[base := NewOrder(job, OrderPending, job.lines[..n])],
            ents := GrantAll(before.ents, job.user, job.lines, base, n))
  }

  /** The tables at the end of a purchase. */
  ghost function PaidTables(before: Db, job: Job, base: Id): Db
    requires job.PurchaseJob? && JobOk(before, job)
  {
    before.(ledger := before.ledger + ChargeRows(before, job, base),
            orders := before.orders[base := NewOrder(job, OrderPaid, job.lines)],
            ents := GrantAll(before.ents, job.user, job.lines, base, |job.lines|),
            redemptions := before.redemptions + NewRedemptions(job, base))
  }

  datatype PurchaseResult = PurchaseResult(order: Id, reused: bool)

  // ---------- what the methods rely on ----------

  lemma Committed(db: Db, op: Op, base: Id)
    requires DbOk(db) && IdsBelow(db, base) && OpEnabled(db, op)
    ensures DbOk(OpEffect(db, op, base)) && IdsBelow(OpEffect(db, op, base), base + 2)
  {
    assert Unused(db, base);
    OpKeeps(db, op, base);
    forall i | i >= base + 2 ensures Unused(OpEffect(db, op, base), i) {
      OpUses(db, op, base, i);
    }
  }

  lemma JobDone(db: Db, job: Job, base: Id)
    requires DbOk(db) && IdsBelow(db, base) && JobOk(db, job)
    ensures Fresh(db, base, IdsNeeded(job))
    ensures Atomic(db, job, base).Ok? ==>
              DbOk(Atomic(db, job, base).value) && IdsBelow(Atomic(db, job, base).value, base + IdsNeeded(job))
  {
    forall i | base <= i < base + IdsNeeded(job) ensures Unused(db, i) {}
    if Atomic(db, job, base).Ok? {
      AtomicKeeps(db, job, base);
      forall i | i >= base + IdsNeeded(job) ensures Unused(Atomic(db, job, base).value, i) {
        AtomicUses(db, job, base, i);
      }
    }
  }

  /** With the unique index in force an upsert meets at most one live row. */
  lemma OneConflict(ents: map<Id, Entitlement>, e: Entitlement, i: Id)
    requires EntsUnique(ents) && e.edition.Some? && i in LiveIds(ents, e)
    ensures LiveIds(ents, e) == {i}
  {
    forall j | j in LiveIds(ents, e) ensures j == i {
      assert BothLive(ents, i, j);
    }
  }

  /** The grant of a key that is live already moves the expiry of that one row. */
  lemma OverlayUpdates(ents: map<Id, Entitlement>, id: Id, e: Entitlement, i: Id)
    requires EntsUnique(ents) && e.edition.Some? && i in ents && Live(ents[i]) && SameKey(ents[i], e)
    ensures ents + GrantOverlay(ents, id, e) == ents[i := ents[i].(expires := e.expires)]
  {
    OneConflict(ents, e, i);
  }

  /** The grant of any other key is a new row. */
  lemma OverlayInserts(ents: map<Id, Entitlement>, id: Id, e: Entitlement)
    requires e.edition.Some? ==> forall i :: i in ents && Live(ents[i]) ==> !SameKey(ents[i], e)
    ensures ents + GrantOverlay(ents, id, e) == ents[id := e]
  {
    assert e.edition.Some? ==> LiveIds(ents, e) == {};
  }

  lemma {:induction false} PricesNonNegative(items: seq<Line>)
    requires forall i :: 0 <= i < |items| ==> items[i].price >= 0
    ensures SumPrices(items) >= 0
  {
    if items != [] {
      PricesNonNegative(items[..|items| - 1]);
    }
  }

  lemma PurchaseOutcome(db: Db, job: Job, base: Id)
    requires job.PurchaseJob? && JobOk(db, job)
    ensures Atomic(db, job, base) ==
            (if KeyTaken(db.orders, job.user, job.key) then Err(DuplicateKey)
             else if Charge(db, job, base).Err? then Err(InsufficientFunds)
             else Ok(PaidTables(db, job, base)))
  {}

  /** What a purchase charges, read off its atomic effect. */
  lemma PurchaseCharges(db: Db, job: Job, base: Id)
    requires job.PurchaseJob? && JobOk(db, job) && Atomic(db, job, base).Ok?
    ensures Balance(Atomic(db, job, base).value.ledger, job.user) == Balance(db.ledger, job.user) - ChargeOf(job)
  {
    PurchaseOutcome(db, job, base);
    PricesNonNegative(job.lines);
    if ChargeOf(job) > 0 {
      LedgerSnoc(db.ledger, ChargeRow(db, job, base));
    } else {
      assert db.ledger + [] == db.ledger;
    }
  }

  /** Whom it lets play: the owner of every line, at any time. */
  lemma PurchaseGrants(db: Db, job: Job, base: Id, i: nat, t: int)
    requires job.PurchaseJob? && JobOk(db, job) && Fresh(db, base, IdsNeeded(job)) && Atomic(db, job, base).Ok?
    requires i < |job.lines|
    ensures OwnerMayPlay(Atomic(db, job, base).value, job.user, job.lines[i], t)
    ensures var ents := Atomic(db, job, base).value.ents;
            exists e :: e in ents && CoversLine(ents[e], job.user, job.lines[i]) && ents[e].expires.None?
  {
    PurchaseOutcome(db, job, base);
    FreshForLines(db, base, job);
    GrantsEntitle(db.ents, job.user, job.lines, base, |job.lines|, i);
    GrantPassesCheck(Atomic(db, job, base).value.ents, job.user, job.lines[i], base, t);
  }

  /** What it does to the entitlements, row by row: rows of its own for its lines, rows that cover a line made endless,
      and every other row as it was. */
  lemma PurchaseRowByRow(db: Db, job: Job, base: Id, e: Id)
    requires job.PurchaseJob? && JobOk(db, job) && Fresh(db, base, IdsNeeded(job)) && Atomic(db, job, base).Ok?
    ensures var ents, n := Atomic(db, job, base).value.ents, |job.lines|;
            && (e in db.ents ==> e in ents && StaysOrCovers(db.ents[e], ents[e], job.user, job.lines, n))
            && (e in ents && e !in db.ents ==> WrittenForSome(ents[e], job.user, job.lines, base, n))
  {
    PurchaseOutcome(db, job, base);
    FreshForLines(db, base, job);
    GrantsRowByRow(db.ents, job.user, job.lines, base, |job.lines|, e);
  }

  /** The job a quoted purchase runs. */
  ghost predicate QuotedJob(db: Db, job: Job, lines: seq<PurchaseLine>, catalog: map<Id, CatalogEdition>, now: int)
    requires job.PurchaseJob?
  {
    && Quotable(db, job.user, lines, job.coupon, catalog, now) && job.lines == PricedAll(catalog, lines)
    && job.discount == DiscountFor(db, job.coupon, SumPrices(job.lines)) && job.attempt == 0
  }

  /** A quoted purchase goes through exactly when the wallet covers it. */
  lemma PurchaseVerdict(db: Db, base: Id, job: Job, lines: seq<PurchaseLine>, catalog: map<Id, CatalogEdition>,
                        now: int)
    requires job.PurchaseJob? && JobOk(db, job) && QuotedJob(db, job, lines, catalog, now)
    requires Solvent(db.ledger) && !KeyTaken(db.orders, job.user, job.key)
    ensures Affords(db, job.user, lines, job.coupon, catalog, now) ==> Atomic(db, job, base).Ok?
    ensures !Affords(db, job.user, lines, job.coupon, catalog, now) ==>
              Atomic(db, job, base) == Err(InsufficientFunds)
  {
    PurchaseOutcome(db, job, base);
    assert ChargeOf(job) == SumPrices(job.lines) - job.discount;
  }

  /** What goes through is everything the buyer was promised. */
  lemma PurchaseBuys(db: Db, base: Id, job: Job, lines: seq<PurchaseLine>, catalog: map<Id, CatalogEdition>, now: int)
    requires job.PurchaseJob? && JobOk(db, job) && QuotedJob(db, job, lines, catalog, now)
    requires DbOk(db) && IdsBelow(db, base) && Atomic(db, job, base).Ok?
    ensures Bought(db, base, job.user, lines, job.coupon, job.key, catalog, now, Atomic(db, job, base).value, base)
  {
    JobDone(db, job, base);
    PurchaseOutcome(db, job, base);
    PurchaseCharges(db, job, base);
    forall i, t: int | 0 <= i < |lines| ensures OwnerMayPlay(Atomic(db, job, base).value, job.user, job.lines[i], t) {
      PurchaseGrants(db, job, base, i, t);
    }
  }

  /** One more line written and granted. */
  lemma LineAdded(before: Db, job: Job, base: Id, n: nat)
    requires job.PurchaseJob? && JobOk(before, job) && n < |job.lines|
    ensures var d, line := WithLines(before, job, base, n), job.lines[n];
            WithLines(before, job, base, n + 1) ==
              d.(orders := d.orders[base := d.orders[base].(items := d.orders[base].items + [line])],
                 ents := d.ents + GrantOverlay(d.ents, base + 2 + n, LineGrant(job.user, line, base)))
  {
    var d := WithLines(before, job, base, n);
    var order := d.orders[base].(items := d.orders[base].items + [job.lines[n]]);
    assert job.lines[..n] + [job.lines[n]] == job.lines[..n + 1];
    assert d.orders[base := order] == before.orders[base := NewOrder(job, OrderPending, job.lines[..n + 1])];
  }

  /** The last two statements: the redemption and the status. */
  lemma LinesFinished(before: Db, job: Job, base: Id)
    requires job.PurchaseJob? && JobOk(before, job)
    ensures var d := WithLines(before, job, base, |job.lines|);
            PaidTables(before, job, base) ==
              d.(redemptions := d.redemptions + NewRedemptions(job, base),
                 orders := d.orders[base := d.orders[base].(status := OrderPaid)])
  {
    assert job.lines[..|job.lines|] == job.lines;
  }

  lemma ApprovePays(db: Db, f: Id, base: Id)
    requires f in db.refunds && Approve(db, f, base).Ok? && db.refunds[f].amount > 0
    ensures var ref := db.refunds[f];
            Balance(Approve(db, f, base).value.ledger, ref.user) == Balance(db.ledger, ref.user) + ref.amount
  {
    var ref := db.refunds[f];
    LedgerSnoc(db.ledger, LedgerRow(base + 1, ref.user, Credit, ref.amount, RefundRef(f)));
  }

  predicate NamesOrder(ents: map<Id, Entitlement>, e: Id, order: Id) {
    e in ents && ents[e].source == FromOrder(order)
  }

  lemma RevokedRows(ents: map<Id, Entitlement>, order: Id)
    ensures var after := ents + RevokeOverlay(ents, order);
            forall e :: NamesOrder(after, e, order) ==> !Live(after[e])
  {}

  /** What an approval pays and ends, read off its atomic effect. */
  lemma ApproveMeans(db: Db, f: Id, base: Id)
    requires DbOk(db) && f in db.refunds && Approve(db, f, base).Ok?
    ensures var after, ref := Approve(db, f, base).value, db.refunds[f];
            && Balance(after.ledger, ref.user) == Balance(db.ledger, ref.user) + ref.amount
            && (forall e :: NamesOrder(after.ents, e, ref.order) ==> !Live(after.ents[e]))
            && ref.order in after.orders && after.orders[ref.order].status.OrderRefunded?
    ensures var after, ref := Approve(db, f, base).value, db.refunds[f];
            && (forall e :: e in after.ents <==> e in db.ents)
            && (forall e :: e in db.ents && db.ents[e].source != FromOrder(ref.order) ==> after.ents[e] == db.ents[e])
            && after.refunds == db.refunds[f := ref.(status := RefundApproved)]
            && after.orders == db.orders[ref.order := db.orders[ref.order].(status := OrderRefunded)]
            && after.ledger == db.ledger + [LedgerRow(base + 1, ref.user, Credit, ref.amount, RefundRef(f))]
            && after.payments == db.payments && after.subs == db.subs && after.redemptions == db.redemptions
  {
    assert RefundAt(db.ledger, db.orders, db.refunds, f);
    ApproveShape(db, f, base);
    ApprovePays(db, f, base);
    RevokedRows(db.ents, db.refunds[f].order);
  }

  predicate Longest(db: Db, s: Id, user: User, now: int) {
    ActiveOf(db, s, user, now)
    && forall t :: t in db.subs && ActiveOf(db, t, user, now) ==> db.subs[t].expiresAt <= db.subs[s].expiresAt
  }

  /** What a sign-up makes of the subscriptions and of the wallet, read off its atomic effect. */
  lemma SignUpMeans(db: Db, job: Job, base: Id)
    requires (job.ExtendJob? || job.CreateSubJob?) && JobOk(db, job) && Atomic(db, job, base).Ok?
    ensures var after := Atomic(db, job, base).value;
            && Balance(after.ledger, Payer(db, job)) == Balance(db.ledger, Payer(db, job)) - job.price
            && after.subs ==
               (if job.ExtendJob?
                then db.subs[job.sub := Extended(db.subs[job.sub], job.price, job.days, job.reactivate)]
                else db.subs[base := NewSub(job)])
  {
    if job.price > 0 {
      LedgerSnoc(db.ledger, ChargeRow(db, job, base));
    } else {
      assert db.ledger + [] == db.ledger;
    }
  }

  // ---------- statements on their own ----------

  /** What an organisation grants lets its user play every edition of the book until it ends, and lets nobody play
      anything else. */
  lemma OrgGrantCovers(db: Db, user: User, book: Id, org: Id, expires: Option<int>, base: Id, edition: Id, now: int)
    requires base !in db.ents
    ensures var after := OpEffect(db, GrantOrg(user, book, org, expires), base).ents;
            && (EditionCheck(after, user, edition, book, now) <==>
                  EditionCheck(db.ents, user, edition, book, now) || (expires.Some? ==> now < expires.value))
            && forall u, b :: u != user || b != book ==>
                 (EditionCheck(after, u, edition, b, now) <==> EditionCheck(db.ents, u, edition, b, now))
  {
    var after := OpEffect(db, GrantOrg(user, book, org, expires), base).ents;
    assert after[base] == Entitlement(user, book, None, Organisation, FromOrganisation(org), expires, false);
    assert forall i :: i in db.ents ==> i in after && after[i] == db.ents[i];
  }

  /** Hours listened to count against the plan of their own subscription, and of no other. */
  lemma HoursUseUpCapacity(db: Db, s: Id, hours: real, base: Id, t: Id)
    requires s in db.subs && db.subs[s].plan in db.plans
    ensures var after := OpEffect(db, AddHours(s, hours), base);
            && (HasCapacity(after, s) <==>
                  db.subs[s].hoursConsumed + hours < db.plans[db.subs[s].plan].hourCap as real)
            && (t != s ==> (HasCapacity(after, t) <==> HasCapacity(db, t)))
            && after == db.(subs := after.subs)
  {}

  /** Once expired, a subscription is nobody's active one at any time; every other stays as it was. */
  lemma ExpiredIsOver(db: Db, s: Id, now: int, base: Id, t: Id, user: User, at: int)
    requires OpEnabled(db, ExpireSub(s, now))
    ensures var after := OpEffect(db, ExpireSub(s, now), base);
            && !ActiveOf(after, s, user, at)
            && (t != s ==> (ActiveOf(after, t, user, at) <==> ActiveOf(db, t, user, at)))
            && after == db.(subs := after.subs)
  {}

  // ---------- the service ----------

  class Service {
    var db: Db
    var nextId: nat

    ghost predicate Valid()
      reads this
    {
      DbOk(db) && IdsBelow(db, nextId)
    }

    constructor (coupons: map<Id, Coupon>, plans: map<Id, Plan>)
      ensures Valid() && db == Empty(coupons, plans).db
    {
      db := Db([], map[], map[], [], map[], map[], map[], coupons, plans);
      nextId := 0;
      new;
      EmptyInv(coupons, plans);
    }

    // ---------- wallet ----------

    /** debitLocked: the balance is read under the wallet lock and the row appended only when it covers it. */
    method DebitLocked(user: User, amount: int, source: Source, row: Id) returns (r: Result<LedgerRow, TxError>)
      modifies this`db
      ensures r.Ok? <==> Balance(old(db).ledger, user) >= amount
      ensures r.Ok? ==> r.value == LedgerRow(row, user, EntryType.Debit, amount, source)
                        && db == old(db).(ledger := old(db).ledger + [r.value])
      ensures r.Err? ==> r.error == InsufficientFunds && db == old(db)
    {
      var balance := Balance(db.ledger, user);
      if balance < amount {
        return Err(InsufficientFunds);
      }
      var entry := LedgerRow(row, user, EntryType.Debit, amount, source);
      db := db.(ledger := db.ledger + [entry]);
      return Ok(entry);
    }

    method CreditWallet(user: User, amount: int) returns (r: Result<LedgerRow, TxError>)
      requires Valid()
      modifies this
      ensures Valid()
      ensures r.Ok? <==> amount > 0
      ensures r.Ok? ==> db == OpEffect(old(db), Op.CreditWallet(user, amount), old(nextId))
                        && Balance(db.ledger, user) == Balance(old(db).ledger, user) + amount
      ensures r.Err? ==> r.error == AmountInvalid && db == old(db)
    {
      if amount <= 0 {
        return Err(AmountInvalid);
      }
      ghost var op := Op.CreditWallet(user, amount);
      Committed(db, op, nextId);
      var entry := LedgerRow(nextId + 1, user, Credit, amount, Direct);
      LedgerSnoc(db.ledger, entry);
      db := db.(ledger := db.ledger + [entry]);
      nextId := nextId + 2;
      return Ok(entry);
    }

    method Debit(user: User, amount: int) returns (r: Result<LedgerRow, TxError>)
      requires Valid()
      modifies this
      ensures Valid()
      ensures amount <= 0 ==> r == Err(AmountInvalid)
      ensures amount > 0 ==> (r.Ok? <==> Balance(old(db).ledger, user) >= amount)
      ensures r.Ok? ==> Balance(db.ledger, user) == Balance(old(db).ledger, user) - amount
                        && Atomic(old(db), DebitJob(user, amount), old(nextId)) == Ok(db)
      ensures r.Err? ==> db == old(db)
    {
      if amount <= 0 {
        return Err(AmountInvalid);
      }
      JobDone(db, DebitJob(user, amount), nextId);
      LedgerSnoc(db.ledger, LedgerRow(nextId + 1, user, EntryType.Debit, amount, Direct));
      r := DebitLocked(user, amount, Direct, nextId + 1);
      nextId := nextId + 2;
    }

    // ---------- top-up ----------

    method StartTopUp(user: User, amount: int, gatewayStarts: bool) returns (r: Result<Id, TxError>)
      requires Valid()
      modifies this
      ensures Valid()
      ensures r.Ok? <==> 10_000 <= amount <= 50_000_000 && gatewayStarts
      ensures r.Ok? ==> r.value == old(nextId) && db == OpEffect(old(db), Op.StartTopUp(user, amount), old(nextId))
      ensures r.Ok? ==>
                db == old(db).(payments := old(db).payments[r.value := Payment(user, amount, PaymentPending, None)])
      ensures r.Err? ==> db == old(db)
    {
      if amount < MIN_TOP_UP || amount > MAX_TOP_UP {
        return Err(AmountInvalid);
      }
      if !gatewayStarts {
        return Err(VerificationFailed);
      }
      Committed(db, Op.StartTopUp(user, amount), nextId);
      var id := nextId;
      db := db.(payments := db.payments[id := Payment(user, amount, PaymentPending, None)]);
      nextId := nextId + 2;
      return Ok(id);
    }

    /** SettleTopUp. `verified` is what the gateway answers about the authority. */
    method SettleTopUp(p: Id, verified: bool) returns (r: Result<Payment, TxError>)
      requires Valid()
      modifies this
      ensures Valid()
      ensures p !in old(db).payments ==> r == Err(NotFound) && db == old(db)
      ensures p in old(db).payments ==>
                var was := old(db).payments[p];
                match was.status
                case PaymentSucceeded => r == Ok(was) && db == old(db)
                case PaymentFailed => r.Err? && db == old(db)
                case PaymentPending =>
                  if verified then
                    && Atomic(old(db), SettleJob(p), old(nextId)) == Ok(db)
                    && r == Ok(db.payments[p]) && r.value.status.PaymentSucceeded?
                    && Balance(db.ledger, was.user) == Balance(old(db).ledger, was.user) + was.amount
                  else r == Err(VerificationFailed) && db == OpEffect(old(db), FailPayment(p), old(nextId))
      ensures p in old(db).payments && old(db).payments[p].status.PaymentPending? ==>
                var was, row := old(db).payments[p], old(nextId) + 1;
                if verified then
                  db == old(db).(ledger := old(db).ledger + [LedgerRow(row, was.user, Credit, was.amount, TopUp(p))],
                                 payments := old(db).payments[p := was.(status := PaymentSucceeded,
                                                                        entry := Some(row))])
                else db == old(db).(payments := old(db).payments[p := was.(status := PaymentFailed)])
    {
      if p !in db.payments {
        return Err(NotFound);
      }
      var payment := db.payments[p];
      if payment.status.PaymentSucceeded? {
        return Ok(payment);
      }
      if !verified {
        if payment.status.PaymentPending? {
          Committed(db, FailPayment(p), nextId);
          db := db.(payments := db.payments[p := payment.(status := PaymentFailed)]);
          nextId := nextId + 2;
        }
        return Err(VerificationFailed);
      }
      r := SettleTx(p);
    }

    /** The settling transaction: credit first, then the conditional update; when the payment is no longer
        pending the update matches no row, and the credit is rolled back with it. */
    method SettleTx(p: Id) returns (r: Result<Payment, TxError>)
      requires Valid() && p in db.payments
      modifies this
      ensures Valid()
      ensures match Atomic(old(db), SettleJob(p), old(nextId))
              case Ok(d) => db == d && r == Ok(d.payments[p])
              case Err(e) => db == old(db) && r == Err(e)
      ensures old(db).payments[p].status.PaymentPending? ==>
                var was := old(db).payments[p];
                Balance(db.ledger, was.user) == Balance(old(db).ledger, was.user) + was.amount
    {
      var before, base := db, nextId;
      JobDone(db, SettleJob(p), base);
      var payment := db.payments[p];
      if payment.status.PaymentSucceeded? {
        return Ok(payment);
      }
      var entry := LedgerRow(base + 1, payment.user, Credit, payment.amount, TopUp(p));
      LedgerSnoc(db.ledger, entry);
      db := db.(ledger := db.ledger + [entry]);
      nextId := nextId + 2;
      if !db.payments[p].status.PaymentPending? {
        db := before;
        return Err(PaymentAlreadySettled);
      }
      var settled := payment.(status := PaymentSucceeded, entry := Some(base + 1));
      db := db.(payments := db.payments[p := settled]);
      return Ok(settled);
    }

    // ---------- purchase ----------

    /** The pricing loop: every line is priced from the catalogue, and a line for the buyer must not be owned. */
    method PriceLines(user: User, lines: seq<PurchaseLine>, catalog: map<Id, CatalogEdition>, now: int)
        returns (r: Result<(seq<Line>, int), TxError>)
      ensures r.Ok? <==> AllSellable(db, user, catalog, lines, now)
      ensures r.Ok? <==>
                forall i :: 0 <= i < |lines| ==>
                  && lines[i].edition in catalog
                  && (lines[i].recipient == None || lines[i].recipient == Some(user) ==>
                        !EditionCheck(db.ents, user, lines[i].edition, catalog[lines[i].edition].book, now))
      ensures r.Ok? ==> r.value.0 == PricedAll(catalog, lines) && r.value.1 == SumPrices(r.value.0)
      ensures r.Ok? ==>
                && |r.value.0| == |lines|
                && forall i :: 0 <= i < |lines| ==>
                     && lines[i].edition in catalog
                     && var edition := catalog[lines[i].edition];
                     r.value.0[i] == Line(lines[i].edition, edition.book, edition.price, lines[i].recipient)
      ensures r.Err? ==>
                exists i :: && 0 <= i < |lines|
                            && (forall j :: 0 <= j < i ==> Sellable(db, user, catalog, lines[j], now))
                            && r.error == (if lines[i].edition !in catalog then NotFound else AlreadyOwned)
                            && !Sellable(db, user, catalog, lines[i], now)
    {
      var priced: seq<Line> := [];
      var subtotal := 0;
      for k := 0 to |lines|
        invariant |priced| == k
        invariant forall i :: 0 <= i < k ==> Sellable(db, user, catalog, lines[i], now)
        invariant forall i :: 0 <= i < k ==> lines[i].edition in catalog && priced[i] == Priced(catalog, lines[i])
        invariant subtotal == SumPrices(priced)
      {
        if lines[k].edition !in catalog {
          return Err(NotFound);
        }
        var edition := catalog[lines[k].edition];
        if ForBuyer(lines[k], user) {
          var owned := EditionCheck(db.ents, user, lines[k].edition, edition.book, now);
          if owned {
            return Err(AlreadyOwned);
          }
        }
        subtotal := subtotal + edition.price;
        var item := Line(lines[k].edition, edition.book, edition.price, lines[k].recipient);
        assert (priced + [item])[..k] == priced;
        priced := priced + [item];
      }
      return Ok((priced, subtotal));
    }

    /** evaluateCoupon: every rule in order, then the arithmetic. */
    method EvaluateCoupon(user: User, c: Id, subtotal: int, now: int) returns (r: Result<int, TxError>)
      ensures r.Ok? <==> CouponUsable(db, c, user, subtotal, now)
      ensures r == Err(CouponNotFound) <==>
                || c !in db.coupons || !db.coupons[c].active || now < db.coupons[c].startsAt
                || (db.coupons[c].expiresAt.Some? && now >= db.coupons[c].expiresAt.value)
      ensures r == Err(CouponNotUsable) <==>
                && c in db.coupons && InWindow(db.coupons[c], now)
                && (|| subtotal < db.coupons[c].minSubtotal
                    || 0 < db.coupons[c].maxRedemptions <= CountCoupon(db.redemptions, c)
                    || 0 < db.coupons[c].perUserLimit <= CountCouponUser(db.redemptions, c, user)
                    || Discount(db.coupons[c], subtotal) <= 0)
      ensures r.Ok? ==> r.value == Discount(db.coupons[c], subtotal) && 0 < r.value <= subtotal
      ensures r.Err? ==>
                r.error == if c !in db.coupons || !InWindow(db.coupons[c], now) then CouponNotFound
                           else CouponNotUsable
    {
      if c !in db.coupons || !InWindow(db.coupons[c], now) {
        return Err(CouponNotFound);
      }
      var coupon := db.coupons[c];
      if subtotal < coupon.minSubtotal {
        return Err(CouponNotUsable);
      }
      if coupon.maxRedemptions > 0 {
        var used := CountCoupon(db.redemptions, c);
        if used >= coupon.maxRedemptions {
          return Err(CouponNotUsable);
        }
      }
      if coupon.perUserLimit > 0 {
        var used := CountCouponUser(db.redemptions, c, user);
        if used >= coupon.perUserLimit {
          return Err(CouponNotUsable);
        }
      }
      var discount := Discount(coupon, subtotal);
      if discount <= 0 {
        return Err(CouponNotUsable);
      }
      return Ok(discount);
    }

    /** GrantEntitlementIdempotent: the unique index leaves at most one row to conflict with. */
    method GrantEntitlement(id: Id, e: Entitlement)
      requires EntsUnique(db.ents) && Live(e)
      modifies this`db
      ensures db == old(db).(ents := old(db).ents + GrantOverlay(old(db).ents, id, e))
    {
      if e.edition.Some? && exists i :: i in db.ents && Live(db.ents[i]) && SameKey(db.ents[i], e) {
        var i :| i in db.ents && Live(db.ents[i]) && SameKey(db.ents[i], e);
        OverlayUpdates(db.ents, id, e, i);
        db := db.(ents := db.ents[i := db.ents[i].(expires := e.expires)]);
      } else {
        OverlayInserts(db.ents, id, e);
        db := db.(ents := db.ents[id := e]);
      }
    }

    /** The charge of a purchase, after its order row is created. */
    method ChargeOrder(ghost before: Db, job: Job, base: Id) returns (r: Result<LedgerRow, TxError>)
      requires job.PurchaseJob? && JobOk(before, job)
      requires db == before.(orders := before.orders[base := NewOrder(job, OrderPending, [])])
      modifies this`db
      ensures r.Ok? <==> Charge(before, job, base).Ok?
      ensures r.Ok? ==> db == WithLines(before, job, base, 0)
      ensures r.Err? ==> r.error == InsufficientFunds
    {
      assert job.lines[..0] == [];
      var total := SumPrices(job.lines) - job.discount;
      if total > 0 {
        r := DebitLocked(job.user, total, OrderRef(base), base + 1);
      } else {
        assert before.ledger + [] == before.ledger;
        r := Ok(LedgerRow(base + 1, job.user, EntryType.Debit, 0, OrderRef(base)));
      }
    }

    /** CreateCouponRedemption and MarkOrderPaid. */
    method FinishOrder(ghost before: Db, job: Job, base: Id)
      requires job.PurchaseJob? && JobOk(before, job) && db == WithLines(before, job, base, |job.lines|)
      modifies this`db
      ensures db == PaidTables(before, job, base)
    {
      LinesFinished(before, job, base);
      if job.coupon.Some? && job.discount > 0 {
        db := db.(redemptions := db.redemptions + [Redemption(job.coupon.value, job.user, base, job.discount)]);
      } else {
        assert db.redemptions + [] == db.redemptions;
      }
      db := db.(orders := db.orders[base := db.orders[base].(status := OrderPaid)]);
    }

    /** The purchase transaction. Any failure puts the database back as it was. */
    method PurchaseTx(job: Job) returns (r: Result<Id, TxError>)
      requires Valid() && job.PurchaseJob? && JobOk(db, job)
      modifies this
      ensures Valid()
      ensures match Atomic(old(db), job, old(nextId))
              case Ok(d) => db == d && r == Ok(old(nextId))
              case Err(e) => db == old(db) && r == Err(e)
    {
      var before, base := db, nextId;
      JobDone(db, job, base);
      PurchaseOutcome(before, job, base);
      nextId := nextId + IdsNeeded(job);
      if KeyTaken(db.orders, job.user, job.key) {
        return Err(DuplicateKey);
      }
      db := db.(orders := db.orders[base := NewOrder(job, OrderPending, [])]);
      var charged := ChargeOrder(before, job, base);
      if charged.Err? {
        db := before;
        return Err(charged.error);
      }
      WriteLines(before, job, base);
      FinishOrder(before, job, base);
      return Ok(base);
    }

    /** The item loop: one order item and one entitlement for each priced line. */
    method WriteLines(ghost before: Db, job: Job, base: Id)
      requires job.PurchaseJob? && JobOk(before, job) && DbOk(before) && Fresh(before, base, IdsNeeded(job))
      requires db == WithLines(before, job, base, 0)
      modifies this`db
      ensures db == WithLines(before, job, base, |job.lines|)
    {
      FreshForLines(before, base, job);
      for n := 0 to |job.lines|
        invariant db == WithLines(before, job, base, n)
      {
        WriteLine(before, job, base, n);
      }
    }

    method WriteLine(ghost before: Db, job: Job, base: Id, n: nat)
      requires job.PurchaseJob? && JobOk(before, job) && EntsUnique(before.ents) && n < |job.lines|
      requires FreshFor(before.ents, base, |job.lines|) && db == WithLines(before, job, base, n)
      modifies this`db
      ensures db == WithLines(before, job, base, n + 1)
    {
      var line := job.lines[n];
      LineAdded(before, job, base, n);
      GrantAllUnique(before.ents, job.user, job.lines, base, n);
      var order := db.orders[base];
      db := db.(orders := db.orders[base := order.(items := order.items + [line])]);
      GrantEntitlement(base + 2 + n, LineGrant(job.user, line, base));
    }

    /** Purchase. A known key returns its order and changes nothing; otherwise the lines are priced, the coupon is
        evaluated, and the rest is one transaction. */
    method Purchase(user: User, lines: seq<PurchaseLine>, coupon: Option<Id>, key: string,
                    catalog: map<Id, CatalogEdition>, now: int) returns (r: Result<PurchaseResult, TxError>)
      requires Valid()
      modifies this
      ensures Valid()
      ensures r.Err? ==> db == old(db)
      ensures lines == [] ==> r == Err(EmptyPurchase)
      ensures lines != [] && KeyTaken(old(db).orders, user, key) ==>
                && r.Ok? && r.value.reused && db == old(db) && r.value.order in db.orders
                && db.orders[r.value.order].user == user && db.orders[r.value.order].key == key
      ensures lines != [] && !KeyTaken(old(db).orders, user, key) ==>
                && (r.Ok? <==> Quotable(old(db), user, lines, coupon, catalog, now)
                               && Affords(old(db), user, lines, coupon, catalog, now))
                && (r == Err(InsufficientFunds) <==> Quotable(old(db), user, lines, coupon, catalog, now)
                                                     && !Affords(old(db), user, lines, coupon, catalog, now))
                && (!AllSellable(old(db), user, catalog, lines, now) ==>
                      r.Err? && (r.error.NotFound? || r.error.AlreadyOwned?))
                && (r.Err? && (r.error.CouponNotFound? || r.error.CouponNotUsable?) ==>
                      coupon.Some? && AllSellable(old(db), user, catalog, lines, now))
                && (r.Ok? && coupon.Some? ==>
                      && coupon.value in old(db).coupons
                      && var c := old(db).coupons[coupon.value];
                      && c.active && c.startsAt <= now && (c.expiresAt.Some? ==> now < c.expiresAt.value))
                && (r.Ok? ==>
                      forall i :: 0 <= i < |lines| ==>
                        && lines[i].edition in catalog
                        && (lines[i].recipient == None || lines[i].recipient == Some(user) ==>
                              !EditionCheck(old(db).ents, user, lines[i].edition, catalog[lines[i].edition].book, now)))
                && (r.Ok? ==>
                      && r.value.order in db.orders && |db.orders[r.value.order].items| == |lines|
                      && forall i :: 0 <= i < |lines| ==>
                           && lines[i].edition in catalog
                           && var edition, item := catalog[lines[i].edition], db.orders[r.value.order].items[i];
                           item == Line(lines[i].edition, edition.book, edition.price, lines[i].recipient))
                && (r.Ok? ==>
                      && !r.value.reused
                      && Bought(old(db), old(nextId), user, lines, coupon, key, catalog, now, db, r.value.order))
    {
      if lines == [] {
        return Err(EmptyPurchase);
      }
      if KeyTaken(db.orders, user, key) {
        var o :| o in db.orders && db.orders[o].user == user && db.orders[o].key == key;
        return Ok(PurchaseResult(o, true));
      }
      var quote := PriceLines(user, lines, catalog, now);
      if quote.Err? {
        return Err(quote.error);
      }
      var (priced, subtotal) := quote.value;
      var discount := 0;
      if coupon.Some? {
        var evaluated := EvaluateCoupon(user, coupon.value, subtotal, now);
        if evaluated.Err? {
          return Err(evaluated.error);
        }
        discount := evaluated.value;
      }
      PricesNonNegative(priced);
      var job := PurchaseJob(user, priced, discount, coupon, key, 0);
      PurchaseVerdict(db, nextId, job, lines, catalog, now);
      var written := PurchaseTx(job);
      if written.Err? {
        return Err(written.error);
      }
      PurchaseBuys(old(db), old(nextId), job, lines, catalog, now);
      return Ok(PurchaseResult(written.value, false));
    }

    // ---------- access and subscriptions ----------

    /** GetActiveSubscriptionForUser: the active subscription that runs longest. */
    method FindActive(user: User, now: int) returns (r: Option<Id>)
      ensures r.None? <==> forall s :: !ActiveOf(db, s, user, now)
      ensures r.Some? ==> Longest(db, r.value, user, now)
      ensures r.Some? ==>
                && r.value in db.subs && db.subs[r.value].user == user
                && db.subs[r.value].status.SubActive? && now < db.subs[r.value].expiresAt
      ensures forall s :: s in db.subs && db.subs[s].user == user && db.subs[s].status.SubActive?
                          && now < db.subs[s].expiresAt ==>
                            r.Some? && db.subs[s].expiresAt <= db.subs[r.value].expiresAt
    {
      r := None;
      var rest := db.subs.Keys;
      while rest != {}
        invariant rest <= db.subs.Keys
        invariant r.None? ==> forall s :: ActiveOf(db, s, user, now) ==> s in rest
        invariant r.Some? ==>
                    ActiveOf(db, r.value, user, now)
                    && forall s :: ActiveOf(db, s, user, now) && s !in rest ==>
                                     db.subs[s].expiresAt <= db.subs[r.value].expiresAt
      {
        var s :| s in rest;
        rest := rest - {s};
        if ActiveOf(db, s, user, now) && (r.None? || db.subs[s].expiresAt > db.subs[r.value].expiresAt) {
          r := Some(s);
        }
      }
      forall s | s in db.subs && db.subs[s].user == user && db.subs[s].status.SubActive? && now < db.subs[s].expiresAt
        ensures r.Some? && db.subs[s].expiresAt <= db.subs[r.value].expiresAt
      {
        assert ActiveOf(db, s, user, now);
      }
    }

    /** IsEntitledToEdition: an entitlement that covers the edition, or hours left on the subscription that runs
        longest; when two end at the same instant, `asked` is the one the database returned. */
    method IsEntitledToEdition(user: Option<User>, edition: Id, book: Id, now: int)
        returns (r: bool, ghost asked: Option<Id>)
      ensures user.Some? && !EditionCheck(db.ents, user.value, edition, book, now) ==>
                && (asked.Some? ==> Longest(db, asked.value, user.value, now))
                && (asked.None? ==> forall s :: !ActiveOf(db, s, user.value, now))
                && forall s :: s in db.subs && db.subs[s].user == user.value && db.subs[s].status.SubActive?
                               && now < db.subs[s].expiresAt ==>
                                 && asked.Some? && asked.value in db.subs
                                 && db.subs[s].expiresAt <= db.subs[asked.value].expiresAt
      ensures r <==> user.Some? && (EditionCheck(db.ents, user.value, edition, book, now)
                                    || (asked.Some? && HasCapacity(db, asked.value)))
      ensures r <==>
                && user.Some?
                && (|| (exists i :: && i in db.ents && db.ents[i].user == user.value && !db.ents[i].revoked
                                    && (db.ents[i].expires.Some? ==> now < db.ents[i].expires.value)
                                    && (|| db.ents[i].edition == Some(edition)
                                        || (db.ents[i].edition.None? && db.ents[i].book == book)))
                    || (asked.Some? && asked.value in db.subs
                        && var sub := db.subs[asked.value];
                        && sub.user == user.value && sub.status.SubActive? && now < sub.expiresAt
                        && sub.plan in db.plans && sub.hoursConsumed < db.plans[sub.plan].hourCap as real))
    {
      asked := None;
      if user.None? {
        return false, None;
      }
      if EditionCheck(db.ents, user.value, edition, book, now) {
        return true, None;
      }
      var active := FindActive(user.value, now);
      asked := active;
      if active.None? {
        return false, asked;
      }
      return HasCapacity(db, active.value), asked;
    }

    /** Subscribe: the running subscription is extended, or a new one starts now; either way the wallet pays. */
    method Subscribe(user: User, plan: Id, autoRenew: bool, now: int) returns (r: Result<Id, TxError>)
      requires Valid()
      modifies this
      ensures Valid()
      ensures r.Err? ==> db == old(db)
      ensures plan !in old(db).plans ==> r == Err(NotFound)
      ensures plan in old(db).plans ==>
                var price := old(db).plans[plan].price;
                (r.Ok? <==> Balance(old(db).ledger, user) >= price || price == 0)
      ensures r.Ok? ==>
                && r.value in db.subs
                && var p, was, sub := old(db).plans[plan], old(db).subs, db.subs[r.value];
                && sub.user == user
                && Balance(db.ledger, user) == Balance(old(db).ledger, user) - p.price
                && (if exists s :: s in was && was[s].user == user && was[s].status.SubActive? && now < was[s].expiresAt
                    then ActiveOf(old(db), r.value, user, now) && sub.hoursConsumed == 0.0
                         && sub.expiresAt == was[r.value].expiresAt + p.periodDays * 86_400_000_000
                         && sub.plan == was[r.value].plan && sub.autoRenew == was[r.value].autoRenew
                         && sub.status == was[r.value].status && sub.lastAttempt == was[r.value].lastAttempt
                    else r.value !in was && sub.status.SubActive? && sub.hoursConsumed == 0.0
                         && sub.expiresAt == now + p.periodDays * 86_400_000_000
                         && sub.plan == plan && sub.autoRenew == autoRenew && sub.lastAttempt.None?)
                && db.subs == was[r.value := sub]
    {
      if plan !in db.plans {
        return Err(NotFound);
      }
      var p := db.plans[plan];
      var existing := FindActive(user, now);
      var job := if existing.Some? then ExtendJob(existing.value, p.price, p.periodDays, false)
                 else CreateSubJob(user, plan, p.price, p.periodDays, now + p.periodDays * MICROS_PER_DAY, autoRenew);
      assert existing.Some? ==> ActiveOf(db, existing.value, user, now);
      assert Unused(db, nextId);
      r := SubscribeTx(job);
      if r.Ok? {
        SignUpMeans(old(db), job, old(nextId));
      }
    }

    /** The subscribing transaction: the row first when it is new, then the debit, then the extension. */
    method SubscribeTx(job: Job) returns (r: Result<Id, TxError>)
      requires Valid() && (job.ExtendJob? || job.CreateSubJob?) && JobOk(db, job)
      modifies this
      ensures Valid() && nextId == old(nextId) + 2
      ensures match Atomic(old(db), job, old(nextId))
              case Ok(d) => db == d && r == Ok(if job.ExtendJob? then job.sub else old(nextId))
              case Err(e) => db == old(db) && r == Err(e) && e == InsufficientFunds
    {
      var before, base := db, nextId;
      JobDone(db, job, base);
      assert before.ledger + [] == before.ledger;
      nextId := nextId + 2;
      var id := if job.ExtendJob? then job.sub else base;
      if job.CreateSubJob? {
        db := db.(subs := db.subs[base := NewSub(job)]);
      }
      if job.price > 0 {
        var charged := DebitLocked(Payer(before, job), job.price, SubscriptionRef(id), base + 1);
        if charged.Err? {
          db := before;
          return Err(charged.error);
        }
      }
      if job.ExtendJob? {
        db := db.(subs := db.subs[id := Extended(db.subs[id], job.price, job.days, job.reactivate)]);
      }
      return Ok(id);
    }

    // ---------- refunds ----------

    /** RequestRefund. `eligible` is the refund window and the listened ratio, both read outside this model. */
    method RequestRefund(user: User, o: Id, eligible: bool) returns (r: Result<Id, TxError>)
      requires Valid()
      modifies this
      ensures Valid()
      ensures r.Err? ==> db == old(db)
      ensures r == Err(NotFound) <==> o !in old(db).orders || old(db).orders[o].user != user
      ensures r.Ok? <==>
                && o in old(db).orders && old(db).orders[o].user == user
                && old(db).orders[o].status.OrderPaid? && eligible && old(db).orders[o].total > 0
      ensures r.Ok? ==> r.value == old(nextId) && db == OpEffect(old(db), Op.RequestRefund(o), old(nextId))
      ensures r.Ok? ==>
                var row := Refund(o, user, old(db).orders[o].total, RefundRequested);
                db == old(db).(refunds := old(db).refunds[r.value := row])
    {
      if o !in db.orders || db.orders[o].user != user {
        return Err(NotFound);
      }
      var order := db.orders[o];
      if !order.status.OrderPaid? || !eligible {
        return Err(RefundNotEligible);
      }
      if order.total <= 0 {
        return Err(ConstraintViolation);
      }
      Committed(db, Op.RequestRefund(o), nextId);
      var id := nextId;
      db := db.(refunds := db.refunds[id := Refund(o, user, order.total, RefundRequested)]);
      nextId := nextId + 2;
      return Ok(id);
    }

    /** ApproveRefund: resolve, credit, revoke, mark, all or nothing. */
    method ApproveRefund(f: Id) returns (r: Result<Refund, TxError>)
      requires Valid()
      modifies this
      ensures Valid()
      ensures f !in old(db).refunds ==> r == Err(NotFound)
      ensures f in old(db).refunds ==> (r.Ok? <==> old(db).refunds[f].status.RefundRequested?)
      ensures r.Err? ==> db == old(db) && (f in db.refunds ==> r.error == RefundAlreadyResolved)
      ensures r.Ok? ==>
                && Atomic(old(db), ApproveJob(f), old(nextId)) == Ok(db)
                && f in db.refunds && db.refunds[f].status.RefundApproved? && r == Ok(db.refunds[f])
                && var ref := old(db).refunds[f];
                && Balance(db.ledger, ref.user) == Balance(old(db).ledger, ref.user) + ref.amount
                && (forall e :: NamesOrder(db.ents, e, ref.order) ==> !Live(db.ents[e]))
                && ref.order in db.orders && db.orders[ref.order].status.OrderRefunded?
    {
      if f !in db.refunds {
        return Err(NotFound);
      }
      r := ApproveTx(f);
      if r.Ok? {
        ApproveMeans(old(db), f, old(nextId));
      }
    }

    method ApproveTx(f: Id) returns (r: Result<Refund, TxError>)
      requires Valid() && f in db.refunds
      modifies this
      ensures Valid()
      ensures match Atomic(old(db), ApproveJob(f), old(nextId))
              case Ok(d) => db == d && r == Ok(d.refunds[f])
              case Err(e) => db == old(db) && r == Err(e)
    {
      var base := nextId;
      JobDone(db, ApproveJob(f), base);
      var ref := db.refunds[f];
      if !ref.status.RefundRequested? {
        return Err(RefundAlreadyResolved);
      }
      nextId := nextId + 2;
      db := db.(refunds := db.refunds[f := ref.(status := RefundApproved)]);
      if ref.amount > 0 {
        db := db.(ledger := db.ledger + [LedgerRow(base + 1, ref.user, Credit, ref.amount, RefundRef(f))]);
      } else {
        assert db.ledger + [] == db.ledger;
      }
      db := db.(ents := db.ents + RevokeOverlay(db.ents, ref.order));
      db := db.(orders := db.orders + RefundedOverlay(db.orders, ref.order));
      return Ok(db.refunds[f]);
    }

    /** RejectRefund: one conditional update. */
    method RejectRefund(f: Id) returns (r: Result<Refund, TxError>)
      requires Valid()
      modifies this
      ensures Valid()
      ensures r.Ok? <==> f in old(db).refunds && old(db).refunds[f].status.RefundRequested?
      ensures r.Ok? ==> db == OpEffect(old(db), Op.RejectRefund(f), old(nextId)) && db.ledger == old(db).ledger
      ensures r.Ok? ==>
                && r.value == old(db).refunds[f].(status := RefundRejected)
                && db == old(db).(refunds := old(db).refunds[f := r.value])
      ensures r.Err? ==> r.error == RefundAlreadyResolved && db == old(db)
    {
      if f !in db.refunds || !db.refunds[f].status.RefundRequested? {
        return Err(RefundAlreadyResolved);
      }
      Committed(db, Op.RejectRefund(f), nextId);
      db := db.(refunds := db.refunds[f := db.refunds[f].(status := RefundRejected)]);
      nextId := nextId + 2;
      return Ok(db.refunds[f]);
    }
  }

  // ---------- calls repeated ----------

  /** A client that lost the response and sends the purchase again gets the same order and is not charged twice. */
  method RetriedPurchase(service: Service, user: User, lines: seq<PurchaseLine>, coupon: Option<Id>, key: string,
                         catalog: map<Id, CatalogEdition>, now: int, later: int, catalogLater: map<Id, CatalogEdition>)
      returns (first: Result<PurchaseResult, TxError>, second: Result<PurchaseResult, TxError>, ghost between: Db)
    requires service.Valid() && key != ""
    modifies service
    ensures service.Valid()
    ensures first.Ok? ==>
              second.Ok? && second.value.reused && second.value.order == first.value.order && service.db == between
  {
    first := service.Purchase(user, lines, coupon, key, catalog, now);
    between := service.db;
    second := service.Purchase(user, lines, coupon, key, catalogLater, later);
    if first.Ok? {
      assert SameOrderKey(between.orders, first.value.order, second.value.order);
    }
  }

  /** A gateway that calls back twice credits the wallet once. */
  method RepeatedCallback(service: Service, p: Id, again: bool)
      returns (first: Result<Payment, TxError>, second: Result<Payment, TxError>, ghost between: Db)
    requires service.Valid()
    modifies service
    ensures service.Valid()
    ensures first.Ok? ==> second == first && service.db == between
    ensures first.Err? && p in between.payments && !between.payments[p].status.PaymentPending? ==>
              second.Err? && service.db == between
  {
    first := service.SettleTopUp(p, true);
    between := service.db;
    second := service.SettleTopUp(p, again);
  }

  /** A payment the gateway refused is failed for good: a later callback that verifies is an error and moves no
      money. */
  method RefusedThenVerified(service: Service, p: Id)
      returns (first: Result<Payment, TxError>, second: Result<Payment, TxError>, ghost between: Db)
    requires service.Valid() && p in service.db.payments && service.db.payments[p].status.PaymentPending?
    modifies service
    ensures service.Valid()
    ensures first == Err(VerificationFailed) && second.Err? && service.db == between
    ensures service.db.payments ==
            old(service.db).payments[p := old(service.db).payments[p].(status := PaymentFailed)]
    ensures service.db.ledger == old(service.db).ledger && Amounts(service.db.ledger, TopUp(p)) == []
  {
    assert PaymentAt(service.db.ledger, service.db.payments, p);
    first := service.SettleTopUp(p, false);
    between := service.db;
    second := service.SettleTopUp(p, true);
  }

  /** A rejected refund can no longer be approved. */
  method RejectedThenApproved(service: Service, f: Id)
      returns (first: Result<Refund, TxError>, second: Result<Refund, TxError>, ghost between: Db)
    requires service.Valid()
    modifies service
    ensures service.Valid()
    ensures first.Ok? ==> second == Err(RefundAlreadyResolved) && service.db == between
    ensures first.Ok? ==> f in service.db.refunds && service.db.refunds[f].status.RefundRejected?
    ensures service.db.ledger == old(service.db).ledger || first.Err?
  {
    first := service.RejectRefund(f);
    between := service.db;
    second := service.ApproveRefund(f);
  }

  /** Approving a refund twice, or rejecting it after approval, pays once. */
  method RepeatedApproval(service: Service, f: Id)
      returns (first: Result<Refund, TxError>, second: Result<Refund, TxError>, third: Result<Refund, TxError>,
               ghost between: Db)
    requires service.Valid()
    modifies service
    ensures service.Valid()
    ensures first.Ok? ==>
              second == Err(RefundAlreadyResolved) && third == Err(RefundAlreadyResolved) && service.db == between
  {
    first := service.ApproveRefund(f);
    between := service.db;
    second := service.ApproveRefund(f);
    third := service.RejectRefund(f);
  }
}
