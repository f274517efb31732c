/**
  How often a buyer pays for one edition. Lines are checked against what the buyer owns before the purchase transaction
  opens, so an edition is sold once as long as no order names it twice for its buyer and purchases come one at a time.
 */
module PaidOnce {
  import opened Results
  import opened CommerceModel
  import opened CommerceTx
  import opened Runs
  import opened CommerceService

  // ---------- paid lines ----------

  /** The buyer gets the line, not somebody else. */
  predicate Own(line: Line, buyer: User) {
    line.recipient.None? || line.recipient.value == buyer
  }

  /** Line `k` of order `o` is the buyer's own, paid for and not refunded. */
  predicate Pays(orders: map<Id, Order>, o: Id, k: nat) {
    && o in orders && orders[o].status.OrderPaid? && k < |orders[o].items|
    && Own(orders[o].items[k], orders[o].user)
  }

  /** Two paid lines of one buyer for one edition are one line. */
  predicate OnceAt(orders: map<Id, Order>, o: Id, k: nat, p: Id, j: nat) {
    Pays(orders, o, k) && Pays(orders, p, j)
    && orders[o].user == orders[p].user && orders[o].items[k].edition == orders[p].items[j].edition ==>
      o == p && k == j
  }

  /** Nobody has paid twice for one edition. */
  ghost predicate PaysOnce(orders: map<Id, Order>) {
    forall o, k: nat, p, j: nat :: OnceAt(orders, o, k, p, j)
  }

  /** No edition stands on two lines that are the buyer's own. */
  predicate OwnLinesDiffer(lines: seq<PurchaseLine>, buyer: User) {
    forall j, k :: 0 <= j < k < |lines| && ForBuyer(lines[j], buyer) && ForBuyer(lines[k], buyer) ==>
                     lines[j].edition != lines[k].edition
  }

  // ---------- what a paid line leaves with its buyer ----------

  /** Row `i` is the endless entitlement that line `k` of order `o` gave its buyer. */
  predicate Backs(orders: map<Id, Order>, ents: map<Id, Entitlement>, i: Id, o: Id, k: nat)
    requires Pays(orders, o, k)
  {
    && i in ents && Live(ents[i]) && ents[i].user == orders[o].user && ents[i].expires.None?
    && ents[i].edition == Some(orders[o].items[k].edition) && ents[i].source == FromOrder(o)
  }

  ghost predicate BackedAt(orders: map<Id, Order>, ents: map<Id, Entitlement>, o: Id, k: nat) {
    Pays(orders, o, k) ==> exists i :: Backs(orders, ents, i, o, k)
  }

  /** An entitlement to one edition never ends by itself. */
  predicate EndlessAt(ents: map<Id, Entitlement>, i: Id) {
    i in ents && ents[i].edition.Some? ==> ents[i].expires.None?
  }

  /** Every paid line is backed by a row of its own order. */
  ghost predicate Backed(db: Db) {
    && (forall o, k: nat :: BackedAt(db.orders, db.ents, o, k))
    && (forall i :: EndlessAt(db.ents, i))
  }

  /** A line can be sold to its buyer only while no paid line of that buyer is for the same edition. */
  lemma SoldIsNotSellable(db: Db, o: Id, k: nat, catalog: map<Id, CatalogEdition>, line: PurchaseLine, now: int)
    requires Backed(db) && Pays(db.orders, o, k) && ForBuyer(line, db.orders[o].user)
    requires line.edition == db.orders[o].items[k].edition
    ensures !Sellable(db, db.orders[o].user, catalog, line, now)
  {
    assert BackedAt(db.orders, db.ents, o, k);
    var i :| Backs(db.orders, db.ents, i, o, k);
    assert db.ents[i].user == db.orders[o].user && db.ents[i].edition == Some(line.edition);
  }

  // ---------- a purchase ----------

  /** A purchase as `Bought` describes it, at the level of its rows. */
  ghost predicate Sold(db: Db, base: Id, user: User, lines: seq<PurchaseLine>, catalog: map<Id, CatalogEdition>,
                       now: int, after: Db)
  {
    && AllSellable(db, user, catalog, lines, now)
    && Unused(db, base) && FreshFor(db.ents, base, |lines|)
    && base in after.orders && after.orders == db.orders[base := after.orders[base]]
    && after.orders[base].user == user && after.orders[base].status.OrderPaid?
    && after.orders[base].items == PricedAll(catalog, lines)
    && after.ents == GrantAll(db.ents, user, PricedAll(catalog, lines), base, |lines|)
  }

  lemma BoughtIsSold(db: Db, base: Id, user: User, lines: seq<PurchaseLine>, coupon: Option<Id>, key: string,
                     catalog: map<Id, CatalogEdition>, now: int, after: Db)
    requires IdsBelow(db, base) && Bought(db, base, user, lines, coupon, key, catalog, now, after, base)
    ensures Sold(db, base, user, lines, catalog, now, after) && db != after
  {
    var o := after.orders[base];
    PurchaseOutcome(db, PurchaseJob(user, o.items, o.discount, coupon, key, 0), base);
    assert Unused(db, base);
    forall i | base + 2 <= i < base + 2 + |lines| ensures i !in db.ents {
      assert Unused(db, i);
    }
  }

  /** What the grants of an order make of any row: an old one keeps its owner, its edition and its source, a new one
      names the order. */
  lemma AfterGrants(ents: map<Id, Entitlement>, buyer: User, items: seq<Line>, order: Id, i: Id)
    requires FreshFor(ents, order, |items|)
    ensures var after := GrantAll(ents, buyer, items, order, |items|);
            && (i in ents ==> i in after && (after[i] == ents[i] || after[i] == ents[i].(expires := None)))
            && (i in after && i !in ents ==>
                  Live(after[i]) && after[i].source == FromOrder(order))
  {
    var n := |items|;
    GrantOverlaysGranted(ents, buyer, items, order, n);
    OverlaysAreGrants(ents, buyer, items, order, n);
    var o := GrantOverlays(ents, buyer, items, order, n);
    if i in o {
      assert GrantedRow(ents, o[i], i, order, n);
    }
  }

  lemma {:induction false} GrantsEndless(ents: map<Id, Entitlement>, buyer: User, items: seq<Line>, order: Id, n: nat)
    requires n <= |items| && forall i :: EndlessAt(ents, i)
    ensures forall i :: EndlessAt(GrantAll(ents, buyer, items, order, n), i)
  {
    if n > 0 {
      GrantsEndless(ents, buyer, items, order, n - 1);
      var view := GrantAll(ents, buyer, items, order, n - 1);
      var after := view + GrantOverlay(view, order + 1 + n, LineGrant(buyer, items[n - 1], order));
      forall i ensures EndlessAt(after, i) {
        assert EndlessAt(view, i);
      }
    }
  }

  lemma NewLineBacked(db: Db, base: Id, user: User, lines: seq<PurchaseLine>, catalog: map<Id, CatalogEdition>,
                      now: int, after: Db, k: nat)
    requires Backed(db) && Sold(db, base, user, lines, catalog, now, after)
    ensures BackedAt(after.orders, after.ents, base, k)
  {
    if Pays(after.orders, base, k) {
      var items := PricedAll(catalog, lines);
      var e := LineGrant(user, items[k], base);
      GrantsEntitle(db.ents, user, items, base, |items|, k);
      var i :| i in after.ents && Live(after.ents[i]) && SameKey(after.ents[i], e) && after.ents[i].expires.None?;
      AfterGrants(db.ents, user, items, base, i);
      if i in db.ents {
        assert EndlessAt(db.ents, i);
        assert Sellable(db, user, catalog, lines[k], now);
        assert EditionCheck(db.ents, user, lines[k].edition, catalog[lines[k].edition].book, now);
        assert false;
      }
      assert Backs(after.orders, after.ents, i, base, k);
    }
  }

  lemma OldLineBacked(db: Db, base: Id, user: User, lines: seq<PurchaseLine>, catalog: map<Id, CatalogEdition>,
                      now: int, after: Db, o: Id, k: nat)
    requires Backed(db) && Sold(db, base, user, lines, catalog, now, after) && o != base
    ensures BackedAt(after.orders, after.ents, o, k)
  {
    if Pays(after.orders, o, k) {
      assert BackedAt(db.orders, db.ents, o, k);
      var i :| Backs(db.orders, db.ents, i, o, k);
      AfterGrants(db.ents, user, PricedAll(catalog, lines), base, i);
      assert Backs(after.orders, after.ents, i, o, k);
    }
  }

  lemma SoldBacked(db: Db, base: Id, user: User, lines: seq<PurchaseLine>, catalog: map<Id, CatalogEdition>, now: int,
                   after: Db)
    requires Backed(db) && Sold(db, base, user, lines, catalog, now, after)
    ensures Backed(after)
  {
    forall o, k: nat ensures BackedAt(after.orders, after.ents, o, k) {
      if o == base {
        NewLineBacked(db, base, user, lines, catalog, now, after, k);
      } else {
        OldLineBacked(db, base, user, lines, catalog, now, after, o, k);
      }
    }
    GrantsEndless(db.ents, user, PricedAll(catalog, lines), base, |lines|);
  }

  /** A new line and an old one are never for the same edition. */
  lemma NewIsNotOld(db: Db, base: Id, user: User, lines: seq<PurchaseLine>, catalog: map<Id, CatalogEdition>, now: int,
                    after: Db, k: nat, p: Id, j: nat)
    requires Backed(db) && Sold(db, base, user, lines, catalog, now, after) && p != base
    ensures OnceAt(after.orders, base, k, p, j) && OnceAt(after.orders, p, j, base, k)
  {
    if Pays(after.orders, base, k) && Pays(after.orders, p, j) && after.orders[p].user == user
       && after.orders[base].items[k].edition == after.orders[p].items[j].edition {
      assert Sellable(db, user, catalog, lines[k], now);
      SoldIsNotSellable(db, p, j, catalog, lines[k], now);
    }
  }

  lemma NewLinesOnce(db: Db, base: Id, user: User, lines: seq<PurchaseLine>, catalog: map<Id, CatalogEdition>, now: int,
                     after: Db)
    requires Sold(db, base, user, lines, catalog, now, after)
    ensures (forall k: nat, j: nat :: OnceAt(after.orders, base, k, base, j)) <==> OwnLinesDiffer(lines, user)
  {
    var items := after.orders[base].items;
    if forall k: nat, j: nat :: OnceAt(after.orders, base, k, base, j) {
      forall j, k | 0 <= j < k < |lines| && ForBuyer(lines[j], user) && ForBuyer(lines[k], user)
        ensures lines[j].edition != lines[k].edition
      {
        assert items[j].edition == lines[j].edition && items[k].edition == lines[k].edition;
        assert OnceAt(after.orders, base, k, base, j);
      }
    }
    if OwnLinesDiffer(lines, user) {
      forall k: nat, j: nat ensures OnceAt(after.orders, base, k, base, j) {
        if Pays(after.orders, base, k) && Pays(after.orders, base, j) {
          assert ForBuyer(lines[k], user) && ForBuyer(lines[j], user);
        }
      }
    }
  }

  /** After a purchase nobody has paid twice exactly when nobody had before and no edition stands on two of its lines
      for the buyer. */
  lemma SoldPaysOnce(db: Db, base: Id, user: User, lines: seq<PurchaseLine>, catalog: map<Id, CatalogEdition>, now: int,
                     after: Db)
    requires Backed(db) && Sold(db, base, user, lines, catalog, now, after)
    ensures PaysOnce(after.orders) <==> PaysOnce(db.orders) && OwnLinesDiffer(lines, user)
  {
    NewLinesOnce(db, base, user, lines, catalog, now, after);
    if PaysOnce(after.orders) {
      forall o, k: nat, p, j: nat ensures OnceAt(db.orders, o, k, p, j) {
        assert OnceAt(after.orders, o, k, p, j);
      }
    }
    if PaysOnce(db.orders) && OwnLinesDiffer(lines, user) {
      forall o, k: nat, p, j: nat ensures OnceAt(after.orders, o, k, p, j) {
        if o == base && p != base {
          NewIsNotOld(db, base, user, lines, catalog, now, after, k, p, j);
        } else if o != base && p == base {
          NewIsNotOld(db, base, user, lines, catalog, now, after, j, o, k);
        } else if o != base {
          assert OnceAt(db.orders, o, k, p, j);
        }
      }
    }
  }

  // ---------- everything else the shop does ----------

  lemma StatementBacked(db: Db, op: Op, base: Id)
    requires Backed(db) && OpEnabled(db, op) && Unused(db, base)
    ensures Backed(OpEffect(db, op, base)) && OpEffect(db, op, base).orders == db.orders
  {
    var after := OpEffect(db, op, base);
    forall o, k: nat ensures BackedAt(after.orders, after.ents, o, k) {
      assert BackedAt(db.orders, db.ents, o, k);
      if Pays(db.orders, o, k) {
        var i :| Backs(db.orders, db.ents, i, o, k);
        assert Backs(after.orders, after.ents, i, o, k);
      }
    }
    forall i ensures EndlessAt(after.ents, i) {
      assert EndlessAt(db.ents, i);
    }
  }

  /** A paid line that an approved refund leaves paid keeps its row. */
  lemma RefundLeavesRow(db: Db, f: Id, base: Id, o: Id, k: nat)
    requires f in db.refunds && Approve(db, f, base).Ok? && BackedAt(db.orders, db.ents, o, k)
    ensures var after := Approve(db, f, base).value;
            && (Pays(after.orders, o, k) ==> Pays(db.orders, o, k) && after.orders[o] == db.orders[o])
            && BackedAt(after.orders, after.ents, o, k)
  {
    var after := Approve(db, f, base).value;
    if Pays(after.orders, o, k) {
      var i :| Backs(db.orders, db.ents, i, o, k);
      assert Backs(after.orders, after.ents, i, o, k);
    }
  }

  /** An approved refund takes back the rows of its own order and no others. */
  lemma RefundBacked(db: Db, f: Id, base: Id)
    requires Backed(db) && f in db.refunds && Approve(db, f, base).Ok?
    ensures Backed(Approve(db, f, base).value)
    ensures PaysOnce(db.orders) ==> PaysOnce(Approve(db, f, base).value.orders)
  {
    var after := Approve(db, f, base).value;
    forall o, k: nat ensures BackedAt(after.orders, after.ents, o, k) {
      RefundLeavesRow(db, f, base, o, k);
    }
    forall i ensures EndlessAt(after.ents, i) {
      assert EndlessAt(db.ents, i);
    }
    if PaysOnce(db.orders) {
      forall o, k: nat, p, j: nat ensures OnceAt(after.orders, o, k, p, j) {
        RefundLeavesRow(db, f, base, o, k);
        RefundLeavesRow(db, f, base, p, j);
        assert OnceAt(db.orders, o, k, p, j);
      }
    }
  }

  lemma OtherJobBacked(db: Db, job: Job, base: Id)
    requires Backed(db) && JobOk(db, job) && !job.PurchaseJob? && Atomic(db, job, base).Ok?
    ensures Backed(Atomic(db, job, base).value)
    ensures PaysOnce(db.orders) ==> PaysOnce(Atomic(db, job, base).value.orders)
  {
    if job.ApproveJob? {
      RefundBacked(db, job.refund, base);
    } else {
      var after := Atomic(db, job, base).value;
      assert after.orders == db.orders && after.ents == db.ents;
    }
  }

  // ---------- whole runs, one dealing after another ----------

  datatype Dealing =
    | Buy(user: User, lines: seq<PurchaseLine>, coupon: Option<Id>, key: string, catalog: map<Id, CatalogEdition>,
          now: int)
    | Statement(op: Op)
    | Transaction(job: Job)

  datatype Shop = Shop(db: Db, nextId: nat)

  /** A purchase is quoted and written with nothing in between, or changes nothing. Identifiers are fresh. */
  ghost predicate Deals(a: Shop, d: Dealing, b: Shop) {
    && IdsBelow(b.db, b.nextId)
    && match d
       case Buy(user, lines, coupon, key, catalog, now) =>
         b.db == a.db || Bought(a.db, a.nextId, user, lines, coupon, key, catalog, now, b.db, a.nextId)
       case Statement(op) => OpEnabled(a.db, op) && b.db == OpEffect(a.db, op, a.nextId)
       case Transaction(job) =>
         JobOk(a.db, job) && !job.PurchaseJob? && Atomic(a.db, job, a.nextId) == Ok(b.db)
  }

  ghost predicate DealsAt(shops: seq<Shop>, dealings: seq<Dealing>, i: nat) {
    i < |dealings| && i + 1 < |shops| && Deals(shops[i], dealings[i], shops[i + 1])
  }

  ghost predicate Run(shops: seq<Shop>, dealings: seq<Dealing>) {
    && |shops| == |dealings| + 1
    && shops[0].db.orders == map[] && shops[0].db.ents == map[] && IdsBelow(shops[0].db, shops[0].nextId)
    && forall i :: 0 <= i < |dealings| ==> DealsAt(shops, dealings, i)
  }

  /** Dealing `i` is a purchase that went through and names no edition twice for its buyer, or is none. */
  predicate DistinctAt(shops: seq<Shop>, dealings: seq<Dealing>, i: nat) {
    i < |dealings| && i + 1 < |shops| && dealings[i].Buy? && shops[i + 1].db != shops[i].db ==>
      OwnLinesDiffer(dealings[i].lines, dealings[i].user)
  }

  lemma DealingBacked(a: Shop, d: Dealing, b: Shop)
    requires Backed(a.db) && IdsBelow(a.db, a.nextId) && Deals(a, d, b)
    ensures Backed(b.db)
    ensures d.Buy? && b.db != a.db ==>
              (PaysOnce(b.db.orders) <==> PaysOnce(a.db.orders) && OwnLinesDiffer(d.lines, d.user))
    ensures !d.Buy? || b.db == a.db ==> (PaysOnce(a.db.orders) ==> PaysOnce(b.db.orders))
  {
    match d
    case Buy(user, lines, coupon, key, catalog, now) =>
      if b.db != a.db {
        BoughtIsSold(a.db, a.nextId, user, lines, coupon, key, catalog, now, b.db);
        SoldBacked(a.db, a.nextId, user, lines, catalog, now, b.db);
        SoldPaysOnce(a.db, a.nextId, user, lines, catalog, now, b.db);
      }
    case Statement(op) =>
      assert Unused(a.db, a.nextId);
      StatementBacked(a.db, op, a.nextId);
    case Transaction(job) => OtherJobBacked(a.db, job, a.nextId);
  }

  lemma {:induction false} RunBacked(shops: seq<Shop>, dealings: seq<Dealing>, n: nat)
    requires Run(shops, dealings) && n < |shops|
    ensures Backed(shops[n].db) && IdsBelow(shops[n].db, shops[n].nextId)
    decreases n
  {
    if n > 0 {
      RunBacked(shops, dealings, n - 1);
      assert DealsAt(shops, dealings, n - 1);
      DealingBacked(shops[n - 1], dealings[n - 1], shops[n]);
    }
  }

  lemma {:induction false} DistinctPaysOnce(shops: seq<Shop>, dealings: seq<Dealing>, n: nat)
    requires Run(shops, dealings) && n < |shops|
    requires forall i: nat :: i < n ==> DistinctAt(shops, dealings, i)
    ensures PaysOnce(shops[n].db.orders)
    decreases n
  {
    if n > 0 {
      DistinctPaysOnce(shops, dealings, n - 1);
      RunBacked(shops, dealings, n - 1);
      assert DealsAt(shops, dealings, n - 1) && DistinctAt(shops, dealings, n - 1);
      DealingBacked(shops[n - 1], dealings[n - 1], shops[n]);
    }
  }

  /** When purchases come one at a time, nobody ever pays twice for one edition exactly when no purchase that goes
      through names an edition on two lines for its buyer. A refunded order is not paid. */
  lemma PaysAtMostOnce(shops: seq<Shop>, dealings: seq<Dealing>)
    requires Run(shops, dealings)
    ensures (forall n :: 0 <= n < |shops| ==> PaysOnce(shops[n].db.orders)) <==>
              (forall i: nat :: i < |dealings| ==> DistinctAt(shops, dealings, i))
  {
    if forall i: nat :: i < |dealings| ==> DistinctAt(shops, dealings, i) {
      forall n | 0 <= n < |shops| ensures PaysOnce(shops[n].db.orders) {
        DistinctPaysOnce(shops, dealings, n);
      }
    }
    if forall n :: 0 <= n < |shops| ==> PaysOnce(shops[n].db.orders) {
      forall i: nat | i < |dealings| ensures DistinctAt(shops, dealings, i) {
        RunBacked(shops, dealings, i);
        assert DealsAt(shops, dealings, i);
        DealingBacked(shops[i], dealings[i], shops[i + 1]);
        assert PaysOnce(shops[i + 1].db.orders);
      }
    }
  }

  // ---------- paying twice ----------

  /** The only own purchase of an edition, by a buyer who does not have it, is one new row. */
  lemma FirstGrant(db: Db, base: Id, user: User, line: Line, catalog: map<Id, CatalogEdition>, now: int)
    requires Backed(db) && Sellable(db, user, catalog, PurchaseLine(line.edition, None), now) && line.recipient.None?
    ensures var e := LineGrant(user, line, base);
            && db.ents + GrantOverlay(db.ents, base + 2, e) == db.ents[base + 2 := e]
            && forall j :: j in db.ents && Live(db.ents[j]) ==> !SameKey(db.ents[j], e)
  {
    var e := LineGrant(user, line, base);
    forall i | i in db.ents && Live(db.ents[i]) ensures !SameKey(db.ents[i], e) {
      assert EndlessAt(db.ents, i);
    }
    OverlayInserts(db.ents, base + 2, e);
  }

  /** Granting it again finds that row and changes nothing. */
  lemma SecondGrant(ents: map<Id, Entitlement>, i: Id, user: User, line: Line, order: Id, id: Id, next: Id)
    requires i in ents && ents[i] == LineGrant(user, line, order)
    requires forall j :: j in ents && Live(ents[j]) && SameKey(ents[j], ents[i]) ==> j == i
    ensures ents + GrantOverlay(ents, id, LineGrant(user, line, next)) == ents
  {
    assert LiveIds(ents, LineGrant(user, line, next)) == {i};
  }

  /** An own line for the edition at its catalogue price. */
  function Item(x: Id, catalog: map<Id, CatalogEdition>): Line
    requires x in catalog
  {
    Priced(catalog, PurchaseLine(x, None))
  }

  function PlainJob(user: User, items: seq<Line>, key: string): Job {
    PurchaseJob(user, items, 0, None, key, 0)
  }

  lemma PlainSums(item: Line)
    ensures SumPrices([item]) == item.price && SumPrices([item, item]) == item.price + item.price
  {
    assert [item][..0] == [] && [item, item][..1] == [item];
  }

  /** A purchase without a coupon that the wallet covers. */
  lemma PlainPurchase(db: Db, base: Id, user: User, items: seq<Line>, key: string)
    requires items != [] && forall i :: 0 <= i < |items| ==> items[i].price >= 0
    requires !KeyTaken(db.orders, user, key) && Balance(db.ledger, user) >= SumPrices(items)
    ensures var job := PlainJob(user, items, key);
            && JobOk(db, job) && Atomic(db, job, base) == Ok(PaidTables(db, job, base))
            && Balance(PaidTables(db, job, base).ledger, user) == Balance(db.ledger, user) - SumPrices(items)
  {
    PricesNonNegative(items);
    PurchaseOutcome(db, PlainJob(user, items, key), base);
    PurchaseCharges(db, PlainJob(user, items, key), base);
  }

  lemma PlainGrants(ents: map<Id, Entitlement>, user: User, item: Line, base: Id)
    ensures GrantAll(ents, user, [item], base, 1) == ents + GrantOverlay(ents, base + 2, LineGrant(user, item, base))
    ensures GrantAll(ents, user, [item, item], base, 2) ==
            GrantAll(ents, user, [item], base, 1)
            + GrantOverlay(GrantAll(ents, user, [item], base, 1), base + 3, LineGrant(user, item, base))
  {
    assert GrantAll(ents, user, [item, item], base, 1) == GrantAll(ents, user, [item], base, 1) by {
      assert GrantAll(ents, user, [item, item], base, 0) == GrantAll(ents, user, [item], base, 0);
    }
  }

  /** However the edition is bought twice over the same tables, one row is all there is. */
  lemma OneEntitlement(db: Db, base: Id, user: User, x: Id, catalog: map<Id, CatalogEdition>, now: int)
    requires Backed(db) && IdsBelow(db, base) && Sellable(db, user, catalog, PurchaseLine(x, None), now)
    ensures var item := Item(x, catalog);
            var after := db.ents[base + 2 := LineGrant(user, item, base)];
            && GrantAll(db.ents, user, [item], base, 1) == after
            && GrantAll(db.ents, user, [item, item], base, 2) == after
            && GrantAll(after, user, [item], base + 3, 1) == after
  {
    var item := Item(x, catalog);
    var after := db.ents[base + 2 := LineGrant(user, item, base)];
    assert Unused(db, base + 2);
    FirstGrant(db, base, user, item, catalog, now);
    PlainGrants(db.ents, user, item, base);
    PlainGrants(after, user, item, base + 3);
    SecondGrant(after, base + 2, user, item, base, base + 3, base);
    SecondGrant(after, base + 2, user, item, base, base + 5, base + 3);
  }

  lemma NoLongerSellable(db: Db, i: Id, user: User, x: Id, catalog: map<Id, CatalogEdition>)
    requires i in db.ents && Live(db.ents[i]) && db.ents[i].user == user && db.ents[i].expires.None?
    requires db.ents[i].edition == Some(x)
    ensures forall later :: !Sellable(db, user, catalog, PurchaseLine(x, None), later)
  {}

  lemma PaysTwice(orders: map<Id, Order>, o: Id, k: nat, p: Id, j: nat)
    requires Pays(orders, o, k) && Pays(orders, p, j) && (o != p || k != j)
    requires orders[o].user == orders[p].user && orders[o].items[k].edition == orders[p].items[j].edition
    ensures !PaysOnce(orders)
  {
    assert !OnceAt(orders, o, k, p, j);
  }

  lemma TwoLines(orders: map<Id, Order>, o: Id, user: User, item: Line)
    requires item.recipient.None?
    ensures !PaysOnce(orders[o := NewOrder(PlainJob(user, [item, item], ""), OrderPaid, [item, item])])
  {
    PaysTwice(orders[o := NewOrder(PlainJob(user, [item, item], ""), OrderPaid, [item, item])], o, 0, o, 1);
  }

  lemma TwoOrders(orders: map<Id, Order>, o: Id, p: Id, user: User, item: Line, key: string, key': string)
    requires item.recipient.None? && o != p
    ensures var once := orders[o := NewOrder(PlainJob(user, [item], key), OrderPaid, [item])];
            !PaysOnce(once[p := NewOrder(PlainJob(user, [item], key'), OrderPaid, [item])])
  {
    var once := orders[o := NewOrder(PlainJob(user, [item], key), OrderPaid, [item])];
    PaysTwice(once[p := NewOrder(PlainJob(user, [item], key'), OrderPaid, [item])], o, 0, p, 0);
  }

  lemma OtherKeyStaysFree(orders: map<Id, Order>, o: Id, order: Order, user: User, key: string)
    requires !KeyTaken(orders, user, key) && (key == "" || key != order.key)
    ensures !KeyTaken(orders[o := order], user, key)
  {}

  /** One order that names an edition on two lines for its buyer passes every check, is charged for both, and leaves one
      entitlement. */
  lemma RepeatedLine(db: Db, base: Id, user: User, x: Id, catalog: map<Id, CatalogEdition>, now: int)
    requires Backed(db) && IdsBelow(db, base) && Sellable(db, user, catalog, PurchaseLine(x, None), now)
    requires Balance(db.ledger, user) >= 2 * catalog[x].price
    ensures var lines := [PurchaseLine(x, None), PurchaseLine(x, None)];
            var job := PlainJob(user, [Item(x, catalog), Item(x, catalog)], "");
            && Quotable(db, user, lines, None, catalog, now) && PricedAll(catalog, lines) == job.lines
            && JobOk(db, job) && Atomic(db, job, base).Ok?
            && var after := Atomic(db, job, base).value;
               && Balance(after.ledger, user) == Balance(db.ledger, user) - 2 * catalog[x].price
               && after.ents == db.ents[base + 2 := LineGrant(user, Item(x, catalog), base)]
               && !PaysOnce(after.orders)
  {
    var item := Item(x, catalog);
    PlainSums(item);
    PlainPurchase(db, base, user, [item, item], "");
    OneEntitlement(db, base, user, x, catalog, now);
    assert PricedAll(catalog, [PurchaseLine(x, None), PurchaseLine(x, None)]) == [item, item];
    TwoLines(db.orders, base, user, item);
  }

  /** Two orders for one edition, both quoted before either is written, are both charged and leave one entitlement:
      purchases must come one at a time. Quoted after the first, the second would have been refused. */
  lemma StaleQuote(db: Db, base: Id, user: User, x: Id, key: string, key': string, catalog: map<Id, CatalogEdition>,
                   now: int)
    requires Backed(db) && IdsBelow(db, base) && Sellable(db, user, catalog, PurchaseLine(x, None), now)
    requires Balance(db.ledger, user) >= 2 * catalog[x].price
    requires !KeyTaken(db.orders, user, key) && !KeyTaken(db.orders, user, key') && (key' == "" || key' != key)
    ensures var first, second := PlainJob(user, [Item(x, catalog)], key), PlainJob(user, [Item(x, catalog)], key');
            && JobOk(db, first) && Atomic(db, first, base).Ok?
            && var mid := Atomic(db, first, base).value;
               && JobOk(mid, second) && Atomic(mid, second, base + 3).Ok?
               && var after := Atomic(mid, second, base + 3).value;
                  && Balance(after.ledger, user) == Balance(db.ledger, user) - 2 * catalog[x].price
                  && after.ents == mid.ents && !PaysOnce(after.orders)
                  && forall later :: !Sellable(mid, user, catalog, PurchaseLine(x, None), later)
  {
    var item := Item(x, catalog);
    var first := PlainJob(user, [item], key);
    PlainSums(item);
    PlainPurchase(db, base, user, [item], key);
    var mid := PaidTables(db, first, base);
    OtherKeyStaysFree(db.orders, base, NewOrder(first, OrderPaid, [item]), user, key');
    PlainPurchase(mid, base + 3, user, [item], key');
    OneEntitlement(db, base, user, x, catalog, now);
    NoLongerSellable(mid, base + 2, user, x, catalog);
    TwoOrders(db.orders, base, base + 3, user, item, key, key');
  }

  // ---------- the service ----------

  /** Each call of Purchase is such a dealing. */
  method BuyAt(service: Service, user: User, lines: seq<PurchaseLine>, coupon: Option<Id>, key: string,
               catalog: map<Id, CatalogEdition>, now: int) returns (r: Result<PurchaseResult, TxError>)
    requires service.Valid()
    modifies service
    ensures service.Valid()
    ensures Deals(Shop(old(service.db), old(service.nextId)), Buy(user, lines, coupon, key, catalog, now),
                  Shop(service.db, service.nextId))
  {
    r := service.Purchase(user, lines, coupon, key, catalog, now);
  }
}
