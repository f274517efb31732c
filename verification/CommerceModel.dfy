/**
  The tables of the commerce schema, what a row means, and the invariants every committed
  state of the database is shown to keep.
 */
module CommerceModel {
  import opened Results
  import opened GoInt
  import opened Sums

  type User = nat
  type Id = nat

  // ---------- wallet ledger ----------

  datatype EntryType = Credit | Debit

  /** The document a ledger row refers to (reference_type and reference_id). */
  datatype Source =
    | TopUp(payment: Id)
    | OrderRef(order: Id)
    | SubscriptionRef(sub: Id)
    | RefundRef(refund: Id)
    | Direct

  datatype LedgerRow = LedgerRow(id: Id, user: User, entry: EntryType, amount: int, source: Source)

  function Signed(r: LedgerRow): int {
    if r.entry.Credit? then r.amount else -r.amount
  }

  /** GetWalletBalance: there is no balance column, the balance is a sum over the ledger. */
  function Balance(ledger: seq<LedgerRow>, u: User): int {
    if ledger == [] then 0 else
      var last := ledger[|ledger| - 1];
      Balance(ledger[..|ledger| - 1], u) + (if last.user == u then Signed(last) else 0)
  }

  /** The amounts of the rows that name one document, in ledger order. */
  function Amounts(ledger: seq<LedgerRow>, source: Source): seq<int> {
    if ledger == [] then [] else
      var last := ledger[|ledger| - 1];
      Amounts(ledger[..|ledger| - 1], source) + (if last.source == source then [last.amount] else [])
  }

  /** Net of the rows that name no document: support credits, gift cards, direct debits. */
  function DirectNet(ledger: seq<LedgerRow>, u: User): int {
    if ledger == [] then 0 else
      var last := ledger[|ledger| - 1];
      DirectNet(ledger[..|ledger| - 1], u)
      + (if last.user == u && last.source.Direct? then Signed(last) else 0)
  }

  lemma LedgerSnoc(ledger: seq<LedgerRow>, r: LedgerRow)
    ensures forall u :: Balance(ledger + [r], u) == Balance(ledger, u) + (if r.user == u then Signed(r) else 0)
    ensures forall s :: Amounts(ledger + [r], s) == Amounts(ledger, s) + (if r.source == s then [r.amount] else [])
    ensures forall u :: DirectNet(ledger + [r], u) ==
                        DirectNet(ledger, u) + (if r.user == u && r.source.Direct? then Signed(r) else 0)
  {
    assert (ledger + [r])[..|ledger|] == ledger;
  }

  // ---------- documents ----------

  datatype PaymentStatus = PaymentPending | PaymentSucceeded | PaymentFailed
  datatype Payment = Payment(user: User, amount: int, status: PaymentStatus, entry: Option<Id>)

  datatype OrderStatus = OrderPending | OrderPaid | OrderRefunded
  /** One priced line of a purchase; `recipient` is None when the buyer keeps it. */
  datatype Line = Line(edition: Id, book: Id, price: int, recipient: Option<User>)
  datatype Order = Order(user: User, status: OrderStatus, subtotal: int, discount: int, total: int,
                         coupon: Option<Id>, key: string, items: seq<Line>)

  datatype Redemption = Redemption(coupon: Id, user: User, order: Id, discount: int)

  datatype RefundStatus = RefundRequested | RefundApproved | RefundRejected
  datatype Refund = Refund(order: Id, user: User, amount: int, status: RefundStatus)

  datatype Origin = Purchased | Gift | Organisation
  datatype GrantSource = FromOrder(order: Id) | FromOrganisation(org: Id)
  /** `edition` None covers every edition of the book; `expires` None never ends. */
  datatype Entitlement = Entitlement(user: User, book: Id, edition: Option<Id>, origin: Origin,
                                     source: GrantSource, expires: Option<int>, revoked: bool)

  /** One granted period: its price (0 writes no ledger row) and its length. */
  datatype Period = Period(price: int, days: nat)
  datatype SubStatus = SubActive | SubExpired | SubCanceled
  /** `firstExpiry` and `periods` are the history of the row: the periods granted to it, the first
      one at creation. The other fields are columns. */
  datatype Subscription = Subscription(user: User, plan: Id, status: SubStatus, autoRenew: bool, expiresAt: int,
                                       hoursConsumed: real, lastAttempt: Option<int>, failures: nat,
                                       firstExpiry: int, periods: seq<Period>)

  datatype CouponKind = Percent | Fixed | OtherKind
  datatype Coupon = Coupon(kind: CouponKind, value: int64, maxDiscount: int64, minSubtotal: int64,
                           maxRedemptions: int, perUserLimit: int, startsAt: int, expiresAt: Option<int>, active: bool)

  datatype Plan = Plan(price: nat, periodDays: nat, hourCap: nat)

  /** The committed tables. `coupons` and `plans` are reference data nothing here writes. */
  datatype Db = Db(ledger: seq<LedgerRow>, payments: map<Id, Payment>, orders: map<Id, Order>,
                   redemptions: seq<Redemption>, ents: map<Id, Entitlement>, subs: map<Id, Subscription>,
                   refunds: map<Id, Refund>, coupons: map<Id, Coupon>, plans: map<Id, Plan>)

  const MICROS_PER_HOUR := 3_600_000_000
  const MICROS_PER_DAY := 24 * MICROS_PER_HOUR

  function SumPrices(items: seq<Line>): int {
    if items == [] then 0 else SumPrices(items[..|items| - 1]) + items[|items| - 1].price
  }

  function SumDays(periods: seq<Period>): nat {
    if periods == [] then 0 else SumDays(periods[..|periods| - 1]) + periods[|periods| - 1].days
  }

  function SumPeriodPrices(periods: seq<Period>): int {
    if periods == [] then 0 else SumPeriodPrices(periods[..|periods| - 1]) + periods[|periods| - 1].price
  }

  /** The charges a list of periods stands for: a free period charges nothing. */
  function Charged(periods: seq<Period>): seq<int> {
    if periods == [] then [] else
      Charged(periods[..|periods| - 1])
      + (if periods[|periods| - 1].price > 0 then [periods[|periods| - 1].price] else [])
  }

  function CountCoupon(rs: seq<Redemption>, c: Id): nat {
    if rs == [] then 0 else CountCoupon(rs[..|rs| - 1], c) + (if rs[|rs| - 1].coupon == c then 1 else 0)
  }

  function CountCouponUser(rs: seq<Redemption>, c: Id, u: User): nat {
    if rs == [] then 0 else
      CountCouponUser(rs[..|rs| - 1], c, u) + (if rs[|rs| - 1].coupon == c && rs[|rs| - 1].user == u then 1 else 0)
  }

  function CountOrder(rs: seq<Redemption>, o: Id): nat {
    if rs == [] then 0 else CountOrder(rs[..|rs| - 1], o) + (if rs[|rs| - 1].order == o then 1 else 0)
  }

  /** Where the redemptions of a coupon stand: by everybody, or by one user. */
  function RedemptionsOf(rs: seq<Redemption>, c: Id, who: Option<User>): set<int> {
    set i | 0 <= i < |rs| && rs[i].coupon == c && (who.Some? ==> rs[i].user == who.value)
  }

  lemma LastRedemption(rs: seq<Redemption>, c: Id, who: Option<User>)
    requires rs != []
    ensures var n := |rs| - 1;
            |RedemptionsOf(rs, c, who)| ==
            |RedemptionsOf(rs[..n], c, who)|
            + (if rs[n].coupon == c && (who.Some? ==> rs[n].user == who.value) then 1 else 0)
  {
    var n := |rs| - 1;
    var before := RedemptionsOf(rs[..n], c, who);
    assert n !in before;
    var added := if rs[n].coupon == c && (who.Some? ==> rs[n].user == who.value) then {n} else {};
    forall i ensures i in RedemptionsOf(rs, c, who) <==> i in before + added {
      if 0 <= i < n {
        assert rs[..n][i] == rs[i];
      }
    }
    assert RedemptionsOf(rs, c, who) == before + added;
  }

  /** Each redemption counts once, for its coupon and for its user. */
  lemma {:induction false} CountsAreRows(rs: seq<Redemption>, c: Id, u: User)
    ensures CountCoupon(rs, c) == |RedemptionsOf(rs, c, None)|
    ensures CountCouponUser(rs, c, u) == |RedemptionsOf(rs, c, Some(u))|
  {
    if rs != [] {
      CountsAreRows(rs[..|rs| - 1], c, u);
      LastRedemption(rs, c, None);
      LastRedemption(rs, c, Some(u));
    }
  }

  /** Every line counts with its own price, wherever it stands. */
  lemma {:induction false} EachLineCounts(before: seq<Line>, line: Line, after: seq<Line>)
    ensures SumPrices(before + [line] + after) == SumPrices(before + after) + line.price
    decreases |after|
  {
    var items := before + [line] + after;
    if after == [] {
      assert items[..|items| - 1] == before && before + after == before;
    } else {
      var rest := after[..|after| - 1];
      EachLineCounts(before, line, rest);
      assert items[..|items| - 1] == before + [line] + rest;
      assert (before + after)[..|before + after| - 1] == before + rest;
    }
  }

  lemma RedemptionSnoc(rs: seq<Redemption>, r: Redemption)
    ensures forall c :: CountCoupon(rs + [r], c) == CountCoupon(rs, c) + (if r.coupon == c then 1 else 0)
    ensures forall c, u :: CountCouponUser(rs + [r], c, u) ==
                           CountCouponUser(rs, c, u) + (if r.coupon == c && r.user == u then 1 else 0)
    ensures forall o :: CountOrder(rs + [r], o) == CountOrder(rs, o) + (if r.order == o then 1 else 0)
  {
    assert (rs + [r])[..|rs|] == rs;
  }

  // ---------- coupons ----------

  /** Coupon.Discount, with Go's wrap-around product and truncating division. Nothing below the floor or of another
      kind; never more than the subtotal or the cap; and a fixed amount is given in full when both leave room for it. */
  function Discount(c: Coupon, subtotal: int): (d: int)
    ensures d <= subtotal || d == 0
    ensures subtotal < c.minSubtotal || c.kind.OtherKind? ==> d == 0
    ensures c.maxDiscount > 0 ==> d <= c.maxDiscount
    ensures (c.kind.Fixed? && c.value <= subtotal && subtotal >= c.minSubtotal
             && (c.maxDiscount <= 0 || c.value <= c.maxDiscount)) ==> d == c.value
    ensures c.kind.Fixed? && subtotal >= c.minSubtotal ==>
              && d <= c.value && d <= subtotal && (c.maxDiscount > 0 ==> d <= c.maxDiscount)
              && (d == c.value || d == subtotal || (c.maxDiscount > 0 && d == c.maxDiscount))
  {
    if subtotal < c.minSubtotal || c.kind.OtherKind? then 0 else
      var raw := if c.kind.Percent? then Quo(Wrap64(subtotal * c.value), 100) else c.value;
      var capped := if c.maxDiscount > 0 && raw > c.maxDiscount then c.maxDiscount else raw;
      if capped < subtotal then capped else subtotal
  }

  lemma MulNonNegative(a: int, b: int)
    requires a >= 0 && b >= 0
    ensures a * b >= 0
  {}

  /** A percent coupon rounds down, never hands out more than the percentage, and within its cap
      misses it by less than one rial. */
  lemma PercentRoundsDown(c: Coupon, subtotal: int)
    requires c.kind.Percent? && c.value > 0 && subtotal >= 0 && subtotal >= c.minSubtotal
    requires subtotal * c.value <= MAX_INT64
    ensures var d := Discount(c, subtotal);
            && 0 <= d <= subtotal
            && 100 * d <= subtotal * c.value
            && (d == subtotal || (c.maxDiscount > 0 && d == c.maxDiscount) || subtotal * c.value < 100 * d + 100)
  {
    var product := subtotal * c.value;
    assert 0 <= product by { MulNonNegative(subtotal, c.value); }
    assert Quo(Wrap64(product), 100) == product / 100;
  }

  // ---------- invariants of the committed tables ----------

  /** No user is overdrawn. */
  ghost predicate Solvent(ledger: seq<LedgerRow>) {
    forall u :: Balance(ledger, u) >= 0
  }

  /** Each ledger row names a document that exists and says the same user, amount and direction. */
  predicate RowMatches(db: Db, r: LedgerRow) {
    && r.amount > 0
    && match r.source
       case TopUp(p) =>
         && p in db.payments && db.payments[p].status.PaymentSucceeded?
         && r.entry.Credit? && r.user == db.payments[p].user && r.amount == db.payments[p].amount
         && db.payments[p].entry == Some(r.id)
       case OrderRef(o) =>
         && o in db.orders && r.entry.Debit? && r.user == db.orders[o].user && r.amount == db.orders[o].total
       case SubscriptionRef(s) =>
         && s in db.subs && r.entry.Debit? && r.user == db.subs[s].user
       case RefundRef(f) =>
         && f in db.refunds && db.refunds[f].status.RefundApproved?
         && r.entry.Credit? && r.user == db.refunds[f].user && r.amount == db.refunds[f].amount
       case Direct => true
  }

  predicate RowAt(db: Db, i: nat) {
    i < |db.ledger| ==> RowMatches(db, db.ledger[i])
  }

  ghost predicate RowsOk(db: Db) {
    forall i: nat :: RowAt(db, i)
  }

  /** Exactly one credit for a succeeded payment, of its own amount; none for any other. */
  predicate PaymentOk(ledger: seq<LedgerRow>, id: Id, p: Payment) {
    && p.amount > 0
    && Amounts(ledger, TopUp(id)) == (if p.status.PaymentSucceeded? then [p.amount] else [])
  }

  /** Exactly one credit for an approved refund, none for any other. */
  predicate RefundOk(ledger: seq<LedgerRow>, orders: map<Id, Order>, id: Id, f: Refund) {
    && f.amount > 0
    && f.order in orders && f.user == orders[f.order].user && f.amount == orders[f.order].total
    && Amounts(ledger, RefundRef(id)) == (if f.status.RefundApproved? then [f.amount] else [])
    && (f.status.RefundApproved? ==> orders[f.order].status.OrderRefunded?)
  }

  /** A committed order is paid or refunded, its prices add up, and it has one debit of its total and one
      redemption row exactly when there is something to debit or redeem. */
  predicate OrderOk(ledger: seq<LedgerRow>, redemptions: seq<Redemption>, id: Id, o: Order) {
    && !o.status.OrderPending?
    && o.items != []
    && (forall i :: 0 <= i < |o.items| ==> o.items[i].price >= 0)
    && o.subtotal == SumPrices(o.items)
    && o.subtotal == o.discount + o.total
    && 0 <= o.discount <= o.subtotal
    && Amounts(ledger, OrderRef(id)) == (if o.total > 0 then [o.total] else [])
    && CountOrder(redemptions, id) == (if o.discount > 0 then 1 else 0)
  }

  predicate RedemptionOk(orders: map<Id, Order>, r: Redemption) {
    && r.order in orders
    && var o := orders[r.order];
       r.user == o.user && o.coupon == Some(r.coupon) && r.discount == o.discount && o.discount > 0
  }

  /** What was paid is what was granted: one ledger row for each priced period, in the same order, and
      an expiry that is the first expiry plus the days of every later period. */
  predicate SubOk(ledger: seq<LedgerRow>, id: Id, s: Subscription) {
    && s.periods != []
    && (forall i :: 0 <= i < |s.periods| ==> s.periods[i].price >= 0)
    && Amounts(ledger, SubscriptionRef(id)) == Charged(s.periods)
    && s.expiresAt == s.firstExpiry + (SumDays(s.periods) - s.periods[0].days) * MICROS_PER_DAY
  }

  predicate Live(e: Entitlement) {
    !e.revoked
  }

  predicate SameKey(a: Entitlement, b: Entitlement) {
    a.user == b.user && a.edition == b.edition && a.origin == b.origin
  }

  predicate BothLive(ents: map<Id, Entitlement>, i: Id, j: Id) {
    i in ents && j in ents && Live(ents[i]) && Live(ents[j]) && ents[i].edition.Some? && SameKey(ents[i], ents[j])
  }

  /** idx_entitlements_unique_active: at most one live row for a user, an edition and an origin. */
  ghost predicate EntsUnique(ents: map<Id, Entitlement>) {
    forall i, j :: BothLive(ents, i, j) ==> i == j
  }

  predicate EntOk(orders: map<Id, Order>, e: Entitlement) {
    e.source.FromOrder? ==>
      && e.edition.Some?
      && e.source.order in orders
      && (orders[e.source.order].status.OrderRefunded? ==> e.revoked)
  }

  predicate SameOrderKey(orders: map<Id, Order>, i: Id, j: Id) {
    i in orders && j in orders && orders[i].key != "" && orders[i].key == orders[j].key
    && orders[i].user == orders[j].user
  }

  /** idx_orders_idempotency: at most one order for a user and a key. */
  ghost predicate KeysUnique(orders: map<Id, Order>) {
    forall i, j :: SameOrderKey(orders, i, j) ==> i == j
  }

  // ---------- conservation ----------

  function PaymentValue(p: Payment, u: User): int {
    if p.user == u && p.status.PaymentSucceeded? then p.amount else 0
  }
  function RefundValue(f: Refund, u: User): int {
    if f.user == u && f.status.RefundApproved? then f.amount else 0
  }
  function OrderValue(o: Order, u: User): int {
    if o.user == u && !o.status.OrderPending? then o.total else 0
  }
  function SubValue(s: Subscription, u: User): int {
    if s.user == u then SumPeriodPrices(s.periods) else 0
  }

  function Values<T>(m: map<Id, T>, value: T -> int): map<Id, int> {
    map k | k in m :: value(m[k])
  }

  ghost function Total<T>(m: map<Id, T>, value: T -> int): int {
    SumMap(Values(m, value))
  }

  lemma TotalUpdate<T>(m: map<Id, T>, k: Id, x: T, value: T -> int)
    ensures Total(m[k := x], value) == Total(m, value) - (if k in m then value(m[k]) else 0) + value(x)
  {
    SumUpdate(Values(m, value), k, value(x));
    assert Values(m[k := x], value) == Values(m, value)[k := value(x)];
  }

  function PaymentPart(u: User): Payment -> int { (p: Payment) => PaymentValue(p, u) }
  function RefundPart(u: User): Refund -> int { (f: Refund) => RefundValue(f, u) }
  function OrderPart(u: User): Order -> int { (o: Order) => OrderValue(o, u) }
  function SubPart(u: User): Subscription -> int { (s: Subscription) => SubValue(s, u) }

  /** Everything the documents say a user should hold. */
  ghost function Documents(db: Db, u: User): int {
    Total(db.payments, PaymentPart(u)) + Total(db.refunds, RefundPart(u)) + DirectNet(db.ledger, u)
    - Total(db.orders, OrderPart(u)) - Total(db.subs, SubPart(u))
  }

  ghost predicate Balanced(db: Db, u: User) {
    Balance(db.ledger, u) == Documents(db, u)
  }

  /** The books balance: no money appears or disappears outside a document. */
  ghost predicate Books(db: Db) {
    forall u :: Balanced(db, u)
  }

  // Each family of rows is quantified through a predicate of its own, one row at a time.

  predicate PaymentAt(ledger: seq<LedgerRow>, payments: map<Id, Payment>, p: Id) {
    p in payments ==> PaymentOk(ledger, p, payments[p])
  }

  ghost predicate PaymentsOk(ledger: seq<LedgerRow>, payments: map<Id, Payment>) {
    forall p :: PaymentAt(ledger, payments, p)
  }

  predicate RefundAt(ledger: seq<LedgerRow>, orders: map<Id, Order>, refunds: map<Id, Refund>, f: Id) {
    f in refunds ==> RefundOk(ledger, orders, f, refunds[f])
  }

  ghost predicate RefundsOk(ledger: seq<LedgerRow>, orders: map<Id, Order>, refunds: map<Id, Refund>) {
    forall f :: RefundAt(ledger, orders, refunds, f)
  }

  predicate OrderAt(ledger: seq<LedgerRow>, redemptions: seq<Redemption>, orders: map<Id, Order>, o: Id) {
    o in orders ==> OrderOk(ledger, redemptions, o, orders[o])
  }

  ghost predicate OrdersOk(ledger: seq<LedgerRow>, redemptions: seq<Redemption>, orders: map<Id, Order>) {
    forall o :: OrderAt(ledger, redemptions, orders, o)
  }

  predicate RedemptionAt(orders: map<Id, Order>, redemptions: seq<Redemption>, i: nat) {
    i < |redemptions| ==> RedemptionOk(orders, redemptions[i])
  }

  ghost predicate RedemptionsOk(orders: map<Id, Order>, redemptions: seq<Redemption>) {
    forall i: nat :: RedemptionAt(orders, redemptions, i)
  }

  predicate SubAt(ledger: seq<LedgerRow>, subs: map<Id, Subscription>, s: Id) {
    s in subs ==> SubOk(ledger, s, subs[s])
  }

  ghost predicate SubsOk(ledger: seq<LedgerRow>, subs: map<Id, Subscription>) {
    forall s :: SubAt(ledger, subs, s)
  }

  predicate EntAt(orders: map<Id, Order>, ents: map<Id, Entitlement>, e: Id) {
    e in ents ==> EntOk(orders, ents[e])
  }

  ghost predicate EntsOk(orders: map<Id, Order>, ents: map<Id, Entitlement>) {
    forall e :: EntAt(orders, ents, e)
  }

  /** Everything kept by every committed state. */
  ghost predicate DbOk(db: Db) {
    && Solvent(db.ledger)
    && RowsOk(db)
    && PaymentsOk(db.ledger, db.payments)
    && RefundsOk(db.ledger, db.orders, db.refunds)
    && OrdersOk(db.ledger, db.redemptions, db.orders)
    && RedemptionsOk(db.orders, db.redemptions)
    && SubsOk(db.ledger, db.subs)
    && EntsUnique(db.ents)
    && EntsOk(db.orders, db.ents)
    && KeysUnique(db.orders)
    && Books(db)
  }
}
