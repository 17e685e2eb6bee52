/** What every reachable state of the shared database satisfies. */
module Invariant {
  import opened Options
  import opened Lifecycle
  import opened Schema
  import opened Money
  import opened InvoiceNumbers
  import opened Inventories
  import opened Orders
  import opened Payments
  import opened Invoices
  import opened Api

  // ----- the parts -----

  ghost predicate IsProductOf(db: DB, biz: int, product: int) {
    product in db.products && db.products[product].biz == biz
  }

  ghost predicate IsOrderOf(db: DB, biz: int, order: int) {
    order in db.orders && db.orders[order].biz == biz
  }

  ghost predicate MovementOwned(db: DB, m: Movement) {
    m.inventory in db.inventories && IsInventoryOf(db.inventories[m.inventory], m.biz, m.product)
  }

  /** Every row shares the business of the row it hangs off. */
  ghost predicate Owned(db: DB) {
    && (forall i | i in db.inventories :: IsProductOf(db, db.inventories[i].biz, db.inventories[i].product))
    && (forall m | m in db.movements :: MovementOwned(db, m))
    && (forall o | o in db.orders :: forall l | l in db.orders[o].lines :: IsProductOf(db, db.orders[o].biz, l.product))
    && (forall p | p in db.payments :: IsOrderOf(db, db.payments[p].biz, db.payments[p].order))
    && (forall v | v in db.invoices :: IsOrderOf(db, db.invoices[v].biz, db.invoices[v].order))
  }

  /** The value of order lines in cents. */
  function LinesValue(lines: seq<Line>): int {
    if lines == [] then 0 else LinesValue(lines[..|lines| - 1]) + lines[|lines| - 1].Total()
  }

  ghost predicate Billed(order: Order) {
    order.total == LinesValue(order.lines) + order.tax
  }

  ghost predicate AllFound(db: DB, order: Order) {
    forall l | l in order.lines :: FindInventory(db.inventories, order.biz, l.product).Some?
  }

  /** Every product of an order that has taken stock has an inventory row to give it back to. */
  ghost predicate Stocked(db: DB, order: Order) {
    HoldsStock(order.status) ==> AllFound(db, order)
  }

  ghost predicate PaidExactly(db: DB, id: int)
    requires id in db.orders
  {
    InSales(db.orders[id].status) <==> PaidFor(db, db.orders[id].biz, id)
  }

  ghost predicate AmountMatches(db: DB, p: Payment) {
    p.order in db.orders && p.amount == db.orders[p.order].total
  }

  /** An invoice repeats its order and its successful payment, under a number its counter gave. */
  ghost predicate Faithful(db: DB, v: Invoice) {
    && v.order in db.orders
    && var order := db.orders[v.order];
    && InSales(order.status)
    && v.total == order.total && v.tax == order.tax && v.subtotal == order.total - order.tax
    && v.items == InvoiceLines(order.lines)
    && (exists p | p in db.payments ::
          && SucceededFor(db.payments[p], v.biz, v.order)
          && v.currency == db.payments[p].currency
          && v.via == Some(db.payments[p].via) && v.reference == db.payments[p].gatewayPayment)
    && Numbered(db, v)
  }

  ghost predicate Numbered(db: DB, v: Invoice) {
    match Parse(v.number)
    case None => false
    case Some((year, sequence)) =>
      && year == v.year
      && v.number == InvoiceNumber(year, sequence)
      && (v.biz, year) in db.counters
      && 1 <= sequence <= db.counters[(v.biz, year)]
  }

  ghost predicate Inv(db: DB) {
    && Constraints(db)
    && Owned(db)
    && (forall o | o in db.orders :: Billed(db.orders[o]))
    && (forall o | o in db.orders :: Stocked(db, db.orders[o]))
    && (forall o | o in db.orders :: PaidExactly(db, o))
    && (forall p | p in db.payments :: AmountMatches(db, db.payments[p]))
    && (forall v | v in db.invoices :: Faithful(db, db.invoices[v]))
  }

  // ----- what a change leaves alone -----

  /** A table whose rows differ from another's in quantity and threshold alone answers lookups alike. */
  ghost predicate SameShelves(a: map<int, Inventory>, b: map<int, Inventory>) {
    && a.Keys == b.Keys
    && forall i | i in a :: a[i].biz == b[i].biz && a[i].product == b[i].product
  }

  lemma LookupsAgree(a: map<int, Inventory>, b: map<int, Inventory>, biz: int, product: int)
    requires SameShelves(a, b) && OneRowPerProduct(a)
    ensures OneRowPerProduct(b)
    ensures FindInventory(a, biz, product) == FindInventory(b, biz, product)
  {
    var r := FindInventory(a, biz, product);
    if r.Some? {
      InventoryFound(b, biz, product, r.value);
    }
  }

  lemma ShelvesUntouched(t: map<int, Inventory>)
    ensures ShelvesKept(t, t)
  {}

  /** No lookup by product loses its row. */
  ghost predicate ShelvesKept(a: map<int, Inventory>, b: map<int, Inventory>) {
    forall biz, product | FindInventory(a, biz, product).Some? :: FindInventory(b, biz, product).Some?
  }

  lemma SameShelvesKept(a: map<int, Inventory>, b: map<int, Inventory>)
    requires SameShelves(a, b) && OneRowPerProduct(a)
    ensures ShelvesKept(a, b)
  {
    forall biz, product | FindInventory(a, biz, product).Some? ensures FindInventory(b, biz, product).Some? {
      LookupsAgree(a, b, biz, product);
    }
  }

  lemma MoreShelvesKept(t: map<int, Inventory>, id: int, row: Inventory)
    requires id !in t
    ensures ShelvesKept(t, t[id := row])
  {
    forall biz, product | FindInventory(t, biz, product).Some?
      ensures FindInventory(t[id := row], biz, product).Some?
    {
      var i := FindInventory(t, biz, product).value;
      assert IsInventoryOf(t[id := row][i], biz, product);
    }
  }

  /** No order appears, and the fixed columns of each stay. */
  ghost predicate OrdersFixed(a: map<int, Order>, b: map<int, Order>) {
    && a.Keys == b.Keys
    && forall o | o in a :: b[o] == a[o].(status := b[o].status)
  }

  ghost predicate SalesFixed(a: map<int, Order>, b: map<int, Order>) {
    OrdersFixed(a, b) && forall o | o in a :: InSales(a[o].status) == InSales(b[o].status)
  }

  /** The same successful payments. */
  ghost predicate SameSuccesses(a: map<int, Payment>, b: map<int, Payment>) {
    && (forall i | i in a && a[i].status == Success :: i in b && b[i] == a[i])
    && (forall i | i in b && b[i].status == Success :: i in a && b[i] == a[i])
  }

  lemma BilledStay(db: DB, next: DB)
    requires OrdersFixed(db.orders, next.orders)
    requires forall o | o in db.orders :: Billed(db.orders[o])
    ensures forall o | o in next.orders :: Billed(next.orders[o])
  {}

  lemma StockedStay(db: DB, next: DB)
    requires OrdersFixed(db.orders, next.orders) && ShelvesKept(db.inventories, next.inventories)
    requires forall o | o in db.orders :: Stocked(db, db.orders[o])
    requires forall o | o in next.orders && HoldsStock(next.orders[o].status) && !HoldsStock(db.orders[o].status) ::
               AllFound(next, next.orders[o])
    ensures forall o | o in next.orders :: Stocked(next, next.orders[o])
  {
    forall o | o in next.orders ensures Stocked(next, next.orders[o]) {
      assert Stocked(db, db.orders[o]);
    }
  }

  lemma PaidStay(db: DB, next: DB)
    requires SalesFixed(db.orders, next.orders) && SameSuccesses(db.payments, next.payments)
    requires forall o | o in db.orders :: PaidExactly(db, o)
    ensures forall o | o in next.orders :: PaidExactly(next, o)
  {
    forall o | o in next.orders ensures PaidExactly(next, o) {
      assert PaidExactly(db, o);
      assert PaidFor(db, db.orders[o].biz, o) == PaidFor(next, db.orders[o].biz, o);
    }
  }

  lemma AmountsStay(db: DB, next: DB)
    requires OrdersFixed(db.orders, next.orders)
    requires forall p | p in next.payments && !(p in db.payments && db.payments[p].order == next.payments[p].order
                                                && db.payments[p].amount == next.payments[p].amount) ::
               AmountMatches(db, next.payments[p])
    requires forall p | p in db.payments :: AmountMatches(db, db.payments[p])
    ensures forall p | p in next.payments :: AmountMatches(next, next.payments[p])
  {
    forall p | p in next.payments ensures AmountMatches(next, next.payments[p]) {
      assert p in db.payments ==> AmountMatches(db, db.payments[p]);
    }
  }

  lemma FaithfulStay(db: DB, next: DB, v: Invoice, w: Invoice)
    requires Faithful(db, v) && w == v.(pdf := w.pdf)
    requires OrdersFixed(db.orders, next.orders)
    requires InSales(db.orders[v.order].status) ==> InSales(next.orders[v.order].status)
    requires forall i | i in db.payments && db.payments[i].status == Success ::
               i in next.payments && next.payments[i] == db.payments[i]
    requires forall k | k in db.counters :: k in next.counters && db.counters[k] <= next.counters[k]
    ensures Faithful(next, w)
  {
    var p :| && p in db.payments && SucceededFor(db.payments[p], v.biz, v.order)
             && v.currency == db.payments[p].currency
             && v.via == Some(db.payments[p].via) && v.reference == db.payments[p].gatewayPayment;
    assert next.payments[p] == db.payments[p];
  }

  lemma InvoicesStay(db: DB, next: DB)
    requires forall v | v in db.invoices :: Faithful(db, db.invoices[v])
    requires next.invoices == db.invoices && next.counters == db.counters
    requires OrdersFixed(db.orders, next.orders)
    requires forall o | o in db.orders && InSales(db.orders[o].status) :: InSales(next.orders[o].status)
    requires forall i | i in db.payments && db.payments[i].status == Success ::
               i in next.payments && next.payments[i] == db.payments[i]
    ensures forall v | v in next.invoices :: Faithful(next, next.invoices[v])
  {
    forall v | v in next.invoices ensures Faithful(next, next.invoices[v]) {
      assert Faithful(db, db.invoices[v]);
      FaithfulStay(db, next, db.invoices[v], next.invoices[v]);
    }
  }

  /** The same rows hang off the same rows; products may be added. */
  ghost predicate SameSkeleton(db: DB, next: DB) {
    && (forall p | p in db.products :: p in next.products && next.products[p].biz == db.products[p].biz)
    && SameShelves(db.inventories, next.inventories)
    && OrdersFixed(db.orders, next.orders)
    && next.payments.Keys == db.payments.Keys
    && (forall p | p in db.payments ::
          next.payments[p].biz == db.payments[p].biz && next.payments[p].order == db.payments[p].order)
    && next.invoices.Keys == db.invoices.Keys
    && (forall v | v in db.invoices ::
          next.invoices[v].biz == db.invoices[v].biz && next.invoices[v].order == db.invoices[v].order)
  }

  lemma SkeletonOwned(db: DB, next: DB)
    requires Owned(db) && SameSkeleton(db, next)
    requires next.movements == db.movements || forall m | m in next.movements :: MovementOwned(next, m)
    ensures Owned(next)
  {
    forall i | i in next.inventories
      ensures IsProductOf(next, next.inventories[i].biz, next.inventories[i].product)
    {
      assert IsProductOf(db, db.inventories[i].biz, db.inventories[i].product);
    }
    forall m | m in next.movements ensures MovementOwned(next, m) {
      assert m in db.movements ==> MovementOwned(db, m);
    }
    forall o | o in next.orders
      ensures forall l | l in next.orders[o].lines :: IsProductOf(next, next.orders[o].biz, l.product)
    {
      assert forall l | l in db.orders[o].lines :: IsProductOf(db, db.orders[o].biz, l.product);
    }
    forall p | p in next.payments ensures IsOrderOf(next, next.payments[p].biz, next.payments[p].order) {
      assert IsOrderOf(db, db.payments[p].biz, db.payments[p].order);
    }
    forall v | v in next.invoices ensures IsOrderOf(next, next.invoices[v].biz, next.invoices[v].order) {
      assert IsOrderOf(db, db.invoices[v].biz, db.invoices[v].order);
    }
  }

  /** Stock levels, prices, names and documents: nothing the invariant ties together. */
  lemma QuietChangeKeepsInv(db: DB, next: DB)
    requires Inv(db) && Constraints(next) && SameSkeleton(db, next)
    requires next.orders == db.orders && next.payments == db.payments && next.counters == db.counters
    requires forall v | v in db.invoices :: next.invoices[v] == db.invoices[v].(pdf := next.invoices[v].pdf)
    requires next.movements == db.movements || forall m | m in next.movements :: MovementOwned(next, m)
    ensures Inv(next)
  {
    hide Constraints, Owned, Billed, Stocked, PaidExactly, AmountMatches, Faithful, ShelvesKept;
    assert OneRowPerProduct(db.inventories) by {
      RulesGiveOneRow(db);
    }
    SameShelvesKept(db.inventories, next.inventories);
    SkeletonOwned(db, next);
    StockedStay(db, next);
    PaidStay(db, next);
    AmountsStay(db, next);
    forall v | v in next.invoices ensures Faithful(next, next.invoices[v]) {
      FaithfulStay(db, next, db.invoices[v], next.invoices[v]);
    }
  }

  lemma RulesGiveOneRow(db: DB)
    requires Constraints(db)
    ensures OneRowPerProduct(db.inventories)
  {}

  // ----- stock -----

  /** The stock tables on their own: what any staged change keeps. */
  ghost predicate StockSound(db: DB) {
    && InventoryRules(db.inventories)
    && MovementRules(db.movements)
    && forall m | m in db.movements :: MovementOwned(db, m)
  }

  lemma MoveKeepsStockSound(db: DB, id: int, delta: int, kind: MovementType, actor: Option<int>)
    requires StockSound(db) && id in db.inventories && delta != 0
    ensures var r := Move(db, id, delta, kind, actor);
            r.Staged? ==>
              && StockSound(r.db) && SameShelves(db.inventories, r.db.inventories)
              && r.db == db.(inventories := r.db.inventories, movements := r.db.movements)
  {
    var r := Move(db, id, delta, kind, actor);
    if r.Staged? {
      forall m | m in r.db.movements ensures MovementOwned(r.db, m) && m.delta != 0 && m.resulting >= 0 {
        if m in db.movements {
          assert MovementOwned(db, m);
        }
      }
    }
  }

  lemma {:induction false} StageLinesKeepsStockSound(db: DB, biz: int, lines: seq<Line>, sign: int, actor: Option<int>)
    requires StockSound(db)
    ensures var r := StageLines(db, biz, lines, sign, actor);
            r.Staged? ==>
              && StockSound(r.db) && SameShelves(db.inventories, r.db.inventories)
              && r.db == db.(inventories := r.db.inventories, movements := r.db.movements)
  {
    if lines != [] {
      hide StockSound;
      var line := lines[|lines| - 1];
      StageLinesKeepsStockSound(db, biz, lines[..|lines| - 1], sign, actor);
      var before := StageLines(db, biz, lines[..|lines| - 1], sign, actor);
      if before.Staged? {
        var found := FindInventory(before.db.inventories, biz, line.product);
        if found.Some? && sign * line.quantity != 0 {
          MoveKeepsStockSound(before.db, found.value, sign * line.quantity, MovementKind(sign), actor);
        }
      }
    }
  }

  lemma InvGivesStockSound(db: DB)
    requires Inv(db)
    ensures StockSound(db)
  {}

  lemma StockChangeKeepsInv(db: DB, next: DB)
    requires Inv(db) && StockSound(next) && SameShelves(db.inventories, next.inventories)
    requires next == db.(inventories := next.inventories, movements := next.movements)
    ensures Inv(next)
  {
    assert Constraints(next);
    hide Inv, Constraints;
    QuietChangeKeepsInv(db, next);
  }

  lemma MovedKeepsInv(db: DB, id: int, delta: int, kind: MovementType, actor: Option<int>)
    requires Inv(db) && id in db.inventories && delta != 0
    ensures var r := Move(db, id, delta, kind, actor); r.Staged? ==> Inv(r.db)
  {
    hide Inv, StockSound;
    InvGivesStockSound(db);
    var r := Move(db, id, delta, kind, actor);
    MoveKeepsStockSound(db, id, delta, kind, actor);
    if r.Staged? {
      StockChangeKeepsInv(db, r.db);
    }
  }

  // ----- catalog and inventory rows -----

  lemma ThresholdKeepsInv(db: DB, id: int, threshold: int)
    requires Inv(db) && id in db.inventories
    ensures var next := db.(inventories := db.inventories[id := db.inventories[id].(threshold := threshold)]);
            Constraints(next) ==> Inv(next)
  {
    hide Inv, Constraints;
    var next := db.(inventories := db.inventories[id := db.inventories[id].(threshold := threshold)]);
    if Constraints(next) {
      QuietChangeKeepsInv(db, next);
    }
  }

  lemma ProductKeepsInv(db: DB, id: int, product: Product)
    requires Inv(db) && (id in db.products ==> db.products[id].biz == product.biz)
    ensures Inv(db.(products := db.products[id := product]))
  {
    var next := db.(products := db.products[id := product]);
    assert Constraints(next);
    hide Inv, Constraints;
    QuietChangeKeepsInv(db, next);
  }

  lemma CustomerKeepsInv(db: DB, id: int, customer: Customer)
    requires Inv(db)
    ensures Inv(db.(customers := db.customers[id := customer]))
  {
    var next := db.(customers := db.customers[id := customer]);
    assert Constraints(next);
    hide Inv, Constraints;
    QuietChangeKeepsInv(db, next);
  }

  lemma PdfKeepsInv(db: DB, id: int, url: Option<string>)
    requires Inv(db) && id in db.invoices
    ensures Inv(AttachPdf(db, id, url))
  {
    InvGivesRules(db);
    hide Inv, Constraints, AttachPdf;
    PdfKeepsRules(db, id, url);
    PdfIsQuiet(db, id, url);
    QuietChangeKeepsInv(db, AttachPdf(db, id, url));
  }

  lemma InvGivesRules(db: DB)
    requires Inv(db)
    ensures Constraints(db)
  {}

  lemma PdfIsQuiet(db: DB, id: int, url: Option<string>)
    requires id in db.invoices
    ensures var next := AttachPdf(db, id, url);
            && next == db.(invoices := next.invoices) && SameSkeleton(db, next)
            && forall v | v in db.invoices :: next.invoices[v] == db.invoices[v].(pdf := next.invoices[v].pdf)
  {}

  lemma InventoryKeepsInv(db: DB, id: int, row: Inventory)
    requires Inv(db) && id !in db.inventories && IsProductOf(db, row.biz, row.product)
    ensures var next := db.(inventories := db.inventories[id := row]); Constraints(next) ==> Inv(next)
  {
    hide Constraints, Owned, Billed, Stocked, PaidExactly, AmountMatches, Faithful, ShelvesKept;
    var next := db.(inventories := db.inventories[id := row]);
    InventoryOwned(db, next, id);
    MoreShelvesKept(db.inventories, id, row);
    StockedStay(db, next);
    PaidStay(db, next);
    AmountsStay(db, next);
    InvoicesStay(db, next);
  }

  lemma InventoryOwned(db: DB, next: DB, id: int)
    requires Owned(db) && id in next.inventories && id !in db.inventories
    requires next == db.(inventories := db.inventories[id := next.inventories[id]])
    requires IsProductOf(db, next.inventories[id].biz, next.inventories[id].product)
    ensures Owned(next)
  {
    forall i | i in next.inventories
      ensures IsProductOf(next, next.inventories[i].biz, next.inventories[i].product)
    {
      assert i != id ==> IsProductOf(db, db.inventories[i].biz, db.inventories[i].product);
    }
    forall m | m in next.movements ensures MovementOwned(next, m) {
      assert MovementOwned(db, m);
    }
    assert forall biz, p | IsProductOf(db, biz, p) :: IsProductOf(next, biz, p);
    assert forall biz, o | IsOrderOf(db, biz, o) :: IsOrderOf(next, biz, o);
  }

  // ----- orders -----

  lemma {:induction false} GoodsOfLines(lines: seq<Line>)
    ensures Goods(PricedLines(lines)) == LinesValue(lines)
  {
    if lines != [] {
      var shorter, priced := lines[..|lines| - 1], PricedLines(lines);
      GoodsOfLines(shorter);
      assert priced[..|priced| - 1] == PricedLines(shorter);
      CentsOfPrice(lines[|lines| - 1]);
    }
  }

  lemma CentsOfPrice(line: Line)
    ensures LineCents(Priced(line)) == line.Total()
  {
    assert line.price as real / 100.0 * 100.0 == line.price as real;
  }

  lemma {:induction false} SnapshotOwned(db: DB, biz: int, items: seq<ItemIn>)
    ensures var r := Snapshot(db, biz, items);
            r.Some? ==> forall l | l in r.value :: IsProductOf(db, biz, l.product)
  {
    if items != [] {
      SnapshotOwned(db, biz, items[..|items| - 1]);
    }
  }

  lemma OrderKeepsInv(db: DB, id: int, order: Order)
    requires Inv(db) && id !in db.orders && order.status == Created && Billed(order)
    requires forall l | l in order.lines :: IsProductOf(db, order.biz, l.product)
    ensures var next := db.(orders := db.orders[id := order]); Constraints(next) ==> Inv(next)
  {
    hide Constraints, Owned, Billed, PaidExactly, AmountMatches, Faithful;
    var next := db.(orders := db.orders[id := order]);
    OrderOwned(db, next, id);
    forall o | o in next.orders ensures Stocked(next, next.orders[o]) {
      assert o != id ==> Stocked(db, db.orders[o]);
    }
    PaidWithNewOrder(db, next, id);
    OldRowsFaithful(db, next, id);
  }

  lemma OldRowsFaithful(db: DB, next: DB, id: int)
    requires id in next.orders && id !in db.orders && next == db.(orders := db.orders[id := next.orders[id]])
    requires forall v | v in db.invoices :: Faithful(db, db.invoices[v])
    requires forall p | p in db.payments :: AmountMatches(db, db.payments[p])
    ensures forall v | v in next.invoices :: Faithful(next, next.invoices[v])
    ensures forall p | p in next.payments :: AmountMatches(next, next.payments[p])
  {
    forall v | v in next.invoices ensures Faithful(next, next.invoices[v]) {
      assert Faithful(db, db.invoices[v]);
    }
    forall p | p in next.payments ensures AmountMatches(next, next.payments[p]) {
      assert AmountMatches(db, db.payments[p]);
    }
  }

  lemma PaidWithNewOrder(db: DB, next: DB, id: int)
    requires id in next.orders && id !in db.orders && next == db.(orders := db.orders[id := next.orders[id]])
    requires Owned(db) && next.orders[id].status == Created
    requires forall o | o in db.orders :: PaidExactly(db, o)
    ensures forall o | o in next.orders :: PaidExactly(next, o)
  {
    forall o | o in next.orders ensures PaidExactly(next, o) {
      if o == id {
        assert forall p | p in db.payments :: IsOrderOf(db, db.payments[p].biz, db.payments[p].order);
      } else {
        assert PaidExactly(db, o);
      }
    }
  }

  lemma OrderOwned(db: DB, next: DB, id: int)
    requires Owned(db) && id in next.orders && id !in db.orders
    requires next == db.(orders := db.orders[id := next.orders[id]])
    requires forall l | l in next.orders[id].lines :: IsProductOf(db, next.orders[id].biz, l.product)
    ensures Owned(next)
  {
    forall m | m in next.movements ensures MovementOwned(next, m) {
      assert MovementOwned(db, m);
    }
    assert forall biz, p | IsProductOf(db, biz, p) :: IsProductOf(next, biz, p);
    assert forall biz, o | IsOrderOf(db, biz, o) :: IsOrderOf(next, biz, o);
  }

  lemma CreateOrderKeepsInv(db: DB, biz: int, customer: int, items: seq<ItemIn>, rate: real, id: int, fault: Fault)
    requires Inv(db)
    ensures Inv(CreateOrderSpec(db, biz, customer, items, rate, id, fault).db)
  {
    hide Inv;
    var lines := Snapshot(db, biz, items);
    if lines.Some? && id !in db.orders {
      SnapshotOwned(db, biz, items);
      GoodsOfLines(lines.value);
      var t := OrderTotals(PricedLines(lines.value), rate);
      OrderKeepsInv(db, id, Order(biz, customer, Created, t.tax, t.total, lines.value));
    }
  }

  function WithStatus(db: DB, id: int, to: OrderStatus): DB
    requires id in db.orders
  {
    db.(orders := db.orders[id := db.orders[id].(status := to)])
  }

  lemma StatusKeepsRules(db: DB, id: int, to: OrderStatus)
    requires id in db.orders && Constraints(db)
    ensures Constraints(WithStatus(db, id, to))
  {
    assert PositiveQuantities(db.orders[id].lines);
  }

  /** A status change that does not cross into or out of the sales states. */
  lemma StatusKeepsInv(db: DB, id: int, to: OrderStatus)
    requires Inv(db) && id in db.orders
    requires InSales(to) == InSales(db.orders[id].status)
    requires HoldsStock(to) && !HoldsStock(db.orders[id].status) ==> AllFound(db, db.orders[id])
    ensures Constraints(WithStatus(db, id, to)) && Inv(WithStatus(db, id, to))
  {
    hide Constraints, Owned, Billed, Stocked, PaidExactly, AmountMatches, Faithful, ShelvesKept;
    var next := WithStatus(db, id, to);
    StatusKeepsRules(db, id, to);
    SkeletonOwned(db, next);
    BilledStay(db, next);
    ShelvesUntouched(db.inventories);
    StockedStay(db, next);
    PaidStay(db, next);
    AmountsStay(db, next);
    InvoicesStay(db, next);
  }

  lemma {:induction false} StagedLinesFound(db: DB, biz: int, lines: seq<Line>, sign: int, actor: Option<int>)
    requires StockSound(db)
    ensures var r := StageLines(db, biz, lines, sign, actor);
            r.Staged? ==> forall l | l in lines :: FindInventory(r.db.inventories, biz, l.product).Some?
  {
    if lines != [] {
      var line, shorter := lines[|lines| - 1], lines[..|lines| - 1];
      StagedLinesFound(db, biz, shorter, sign, actor);
      var before := StageLines(db, biz, shorter, sign, actor);
      var r := StageLines(db, biz, lines, sign, actor);
      if r.Staged? {
        StageLinesKeepsStockSound(db, biz, shorter, sign, actor);
        var found := FindInventory(before.db.inventories, biz, line.product);
        MoveKeepsStockSound(before.db, found.value, sign * line.quantity, MovementKind(sign), actor);
        SameShelvesKept(before.db.inventories, r.db.inventories);
        assert forall l | l in lines :: l == line || l in shorter;
      }
    }
  }

  lemma EffectKeepsInv(db: DB, order: Order, effect: InventoryEffect, actor: Option<int>)
    requires Inv(db)
    ensures var r := ApplyEffect(db, order, effect, actor);
            r.Staged? ==>
              Inv(r.db) && r.db.orders == db.orders && (effect != Unchanged ==> AllFound(r.db, order))
  {
    hide Inv, StockSound;
    InvGivesStockSound(db);
    var r := ApplyEffect(db, order, effect, actor);
    StageLinesKeepsStockSound(db, order.biz, order.lines, StockSign(effect), actor);
    StagedLinesFound(db, order.biz, order.lines, StockSign(effect), actor);
    if r.Staged? && effect != Unchanged {
      StockChangeKeepsInv(db, r.db);
    }
  }

  lemma HeldLinesFound(db: DB, id: int)
    requires Inv(db) && id in db.orders && HoldsStock(db.orders[id].status)
    ensures AllFound(db, db.orders[id])
  {
    assert Stocked(db, db.orders[id]);
  }

  lemma TransitionKeepsInv(db: DB, biz: int, id: int, event: OrderEvent, actor: Option<int>, fault: Fault)
    requires Inv(db) && event != Pay
    ensures Inv(TransitionSpec(db, db, biz, id, event, actor, fault).db)
  {
    hide Inv, AllFound, ApplyEffect;
    if HasOrder(db, biz, id) && Rule(db.orders[id].status, event).Some? {
      var order := db.orders[id];
      var rule := Rule(order.status, event).value;
      EffectKeepsInv(db, order, rule.effect, actor);
      var staged := ApplyEffect(db, order, rule.effect, actor);
      if staged.Staged? {
        StatusKeepsInv(staged.db, id, rule.to);
      }
    }
  }

  // ----- payments -----

  lemma PaymentOwned(db: DB, next: DB, id: int)
    requires Owned(db) && id in next.payments && next == SetPayment(db, id, next.payments[id])
    requires IsOrderOf(db, next.payments[id].biz, next.payments[id].order)
    ensures Owned(next)
  {
    forall m | m in next.movements ensures MovementOwned(next, m) {
      assert MovementOwned(db, m);
    }
    assert forall biz, p | IsProductOf(db, biz, p) :: IsProductOf(next, biz, p);
    assert forall biz, o | IsOrderOf(db, biz, o) :: IsOrderOf(next, biz, o);
  }

  /** An attempt inserted or changed while it is not the successful one. */
  lemma AttemptKeepsInv(db: DB, id: int, p: Payment)
    requires Inv(db) && p.status != Success && (id in db.payments ==> db.payments[id].status != Success)
    requires IsOrderOf(db, p.biz, p.order) && AmountMatches(db, p)
    ensures Constraints(SetPayment(db, id, p)) ==> Inv(SetPayment(db, id, p))
  {
    hide Constraints, Owned, Billed, Stocked, PaidExactly, AmountMatches, Faithful, ShelvesKept;
    var next := SetPayment(db, id, p);
    PaymentOwned(db, next, id);
    ShelvesUntouched(db.inventories);
    StockedStay(db, next);
    PaidStay(db, next);
    AmountsStay(db, next);
    InvoicesStay(db, next);
  }

  function PaidState(db: DB, id: int, reference: Option<string>, now: int): DB
    requires id in db.payments && db.payments[id].order in db.orders
  {
    WithStatus(SetPayment(db, id, Succeeded(db.payments[id], reference, now)), db.payments[id].order, Paid)
  }

  /** The paying commit: one attempt becomes SUCCESS and its order PAID together. */
  lemma PayKeepsInv(db: DB, id: int, reference: Option<string>, now: int)
    requires Inv(db) && id in db.payments && Verifiable(db.payments[id].status)
    requires IsOrderOf(db, db.payments[id].biz, db.payments[id].order)
    requires db.orders[db.payments[id].order].status == Confirmed
    requires Constraints(SetPayment(db, id, Succeeded(db.payments[id], reference, now)))
    ensures Constraints(PaidState(db, id, reference, now)) && Inv(PaidState(db, id, reference, now))
  {
    hide Constraints, Owned, Billed, Stocked, PaidExactly, AmountMatches, Faithful, ShelvesKept;
    var p := db.payments[id];
    var staged := SetPayment(db, id, Succeeded(p, reference, now));
    var next := PaidState(db, id, reference, now);
    StatusKeepsRules(staged, p.order, Paid);
    SkeletonOwned(db, next);
    BilledStay(db, next);
    ShelvesUntouched(db.inventories);
    StockedStay(db, next);
    forall o | o in next.orders ensures PaidExactly(next, o) {
      PaidAfterPaying(db, next, id, o);
    }
    AmountsStay(db, next);
    InvoicesStay(db, next);
  }

  lemma PaidAfterPaying(db: DB, next: DB, id: int, o: int)
    requires id in db.payments && db.payments[id].status != Success && o in db.orders && PaidExactly(db, o)
    requires next.payments.Keys == db.payments.Keys
    requires forall q | q in db.payments && q != id :: next.payments[q] == db.payments[q]
    requires SucceededFor(next.payments[id], db.payments[id].biz, db.payments[id].order)
    requires IsOrderOf(db, db.payments[id].biz, db.payments[id].order)
    requires o in next.orders && next.orders[o].biz == db.orders[o].biz
    requires next.orders[o].status == if o == db.payments[id].order then Paid else db.orders[o].status
    ensures PaidExactly(next, o)
  {
    var biz := db.orders[o].biz;
    if o == db.payments[id].order {
      assert SucceededFor(next.payments[id], biz, o);
    } else {
      if PaidFor(db, biz, o) {
        var i :| i in db.payments && SucceededFor(db.payments[i], biz, o);
        assert SucceededFor(next.payments[i], biz, o);
      }
      if PaidFor(next, biz, o) {
        var i :| i in next.payments && SucceededFor(next.payments[i], biz, o);
        assert SucceededFor(db.payments[i], biz, o);
      }
    }
  }

  /** In a reachable state `_succeed` has exactly the paying commit as its effect. */
  lemma SucceedOutcome(db: DB, id: int, reference: Option<string>, actor: Option<int>, now: int, fault: Fault)
    requires Inv(db) && id in db.payments && Verifiable(db.payments[id].status)
    requires IsOrderOf(db, db.payments[id].biz, db.payments[id].order)
    requires db.orders[db.payments[id].order].status == Confirmed
    ensures var o := SucceedSpec(db, id, reference, actor, now, fault);
            var p := db.payments[id];
            var next := PaidState(db, id, reference, now);
            if !Constraints(SetPayment(db, id, Succeeded(p, reference, now))) then o == Refuse(db, PaymentState)
            else && Inv(next)
                 && match fault
                    case AtCommit => o == Refuse(db, DatabaseError)
                    case AfterCommit => o == Outcome(next, [], Err(DatabaseError))
                    case NoFault => o == Outcome(next, [PaymentSucceeded(p.biz, p.order, id)], Ok(id))
  {
    hide Inv, Constraints;
    if Constraints(SetPayment(db, id, Succeeded(db.payments[id], reference, now))) {
      PayKeepsInv(db, id, reference, now);
    }
  }

  lemma AttemptFacts(db: DB, id: int)
    requires Inv(db) && id in db.payments
    ensures AmountMatches(db, db.payments[id]) && IsOrderOf(db, db.payments[id].biz, db.payments[id].order)
  {}

  lemma VerifyKeepsInv(db: DB, biz: int, id: int, gateway: Option<Verification>, actor: Option<int>,
                       now: int, fault: Fault)
    requires Inv(db)
    ensures Inv(VerifySpec(db, biz, id, gateway, actor, now, fault).db)
  {
    hide Inv, Constraints, SucceedSpec;
    if Eligible(db, biz, id, Online).None? && gateway.Some? {
      var p := db.payments[id];
      AttemptFacts(db, id);
      if gateway.value.status == GatewayPending {
        AttemptKeepsInv(db, id, p.(status := Pending));
      } else if Mismatch(p, gateway.value).Some? {
        AttemptKeepsInv(db, id, p.(status := Failed, failure := Mismatch(p, gateway.value)));
      } else {
        SucceedOutcome(db, id, Some(gateway.value.gatewayPayment), actor, now, fault);
      }
    }
  }

  lemma ConfirmCodKeepsInv(db: DB, biz: int, id: int, actor: Option<int>, now: int, fault: Fault)
    requires Inv(db)
    ensures Inv(ConfirmCodSpec(db, biz, id, actor, now, fault).db)
  {
    hide Inv, Constraints, SucceedSpec;
    if Eligible(db, biz, id, Cod).None? {
      AttemptFacts(db, id);
      SucceedOutcome(db, id, None, actor, now, fault);
    }
  }

  lemma InitiateKeepsInv(db: DB, biz: int, order: int, via: PaymentMethod, key: Option<string>,
                         gateway: Option<string>, currency: string, id: int, fault: Fault)
    requires Inv(db)
    ensures Inv(InitiateSpec(db, biz, order, via, key, gateway, currency, id, fault).db)
  {
    hide Inv, Constraints;
    if HasOrder(db, biz, order) && id !in db.payments {
      AttemptKeepsInv(db, id, NewPayment(db.orders[order], order, via, key, gateway, currency));
    }
  }

  // ----- invoices -----

  lemma IssueKeepsTables(db: DB, id: int, v: Invoice, year: nat)
    ensures var next := Issue(db, id, v, year);
            && next.orders == db.orders && next.payments == db.payments && next.inventories == db.inventories
            && next.invoices == db.invoices[id := v]
  {}

  lemma IssueKeepsInv(db: DB, id: int, v: Invoice, year: nat)
    requires Inv(db) && id !in db.invoices && IsOrderOf(db, v.biz, v.order)
    requires Faithful(Issue(db, id, v, year), v)
    ensures Constraints(Issue(db, id, v, year)) ==> Inv(Issue(db, id, v, year))
  {
    hide Constraints, Owned, Billed, Stocked, PaidExactly, AmountMatches, Faithful, ShelvesKept, Issue, IsOrderOf;
    var next := Issue(db, id, v, year);
    IssueKeepsTables(db, id, v, year);
    InvoiceOwned(db, id, v, year);
    ShelvesUntouched(db.inventories);
    StockedStay(db, next);
    PaidStay(db, next);
    AmountsStay(db, next);
    AllFaithfulAfterIssue(db, id, v, year);
  }

  lemma AllFaithfulAfterIssue(db: DB, id: int, v: Invoice, year: nat)
    requires forall w | w in db.invoices :: Faithful(db, db.invoices[w])
    requires Faithful(Issue(db, id, v, year), v)
    ensures forall w | w in Issue(db, id, v, year).invoices ::
              Faithful(Issue(db, id, v, year), Issue(db, id, v, year).invoices[w])
  {
    hide Faithful;
    forall w | w in Issue(db, id, v, year).invoices && w != id
      ensures Faithful(Issue(db, id, v, year), Issue(db, id, v, year).invoices[w])
    {
      IssueKeepsFaithful(db, id, v, year, db.invoices[w]);
    }
  }

  lemma IssueKeepsFaithful(db: DB, id: int, v: Invoice, year: nat, w: Invoice)
    requires Faithful(db, w)
    ensures Faithful(Issue(db, id, v, year), w)
  {
    hide Faithful;
    OrderOfFaithful(db, w);
    FaithfulStay(db, Issue(db, id, v, year), w, w);
  }

  lemma OrderOfFaithful(db: DB, w: Invoice)
    requires Faithful(db, w)
    ensures w.order in db.orders
  {}

  lemma InvoiceOwned(db: DB, id: int, v: Invoice, year: nat)
    requires Owned(db) && id !in db.invoices && IsOrderOf(db, v.biz, v.order)
    ensures Owned(Issue(db, id, v, year))
  {
    var next := Issue(db, id, v, year);
    forall m | m in next.movements ensures MovementOwned(next, m) {
      assert MovementOwned(db, m);
    }
    assert forall biz, p | IsProductOf(db, biz, p) :: IsProductOf(next, biz, p);
    assert forall biz, o | IsOrderOf(db, biz, o) :: IsOrderOf(next, biz, o);
  }

  /** The snapshot copies what it must. */
  lemma DraftFaithful(db: DB, biz: int, order: int, year: nat, business: string, currency: string, id: int)
    requires Inv(db) && HasOrder(db, biz, order) && InSales(db.orders[order].status)
    ensures var v := Draft(db, order, SuccessOf(db, biz, order), year, business, currency,
                           InvoiceLines(db.orders[order].lines));
            Faithful(Issue(db, id, v, year), v) && IsOrderOf(db, v.biz, v.order)
  {
    assert PaidExactly(db, order);
    var found := FindSuccess(db.payments, biz, order);
    assert found.Some?;
    hide Inv, Parse, InvoiceNumber;
    var sequence := NextSequence(db.counters, biz, year);
    ParseRoundTrip(year, sequence);
    var v := Draft(db, order, SuccessOf(db, biz, order), year, business, currency,
                   InvoiceLines(db.orders[order].lines));
    var next := Issue(db, id, v, year);
    assert SucceededFor(next.payments[found.value], v.biz, v.order);
    assert Numbered(next, v);
  }

  lemma SnapshotKeepsInv(db: DB, biz: int, order: int, year: nat, business: string, currency: string,
                         id: int, fault: Fault)
    requires Inv(db) && HasOrder(db, biz, order) && InSales(db.orders[order].status)
    ensures Inv(SnapshotSpec(db, biz, order, year, business, currency, id, fault).db)
  {
    hide Inv, Faithful, Draft, Constraints;
    if id !in db.invoices {
      DraftFaithful(db, biz, order, year, business, currency, id);
      var v := Draft(db, order, SuccessOf(db, biz, order), year, business, currency,
                     InvoiceLines(db.orders[order].lines));
      IssueKeepsInv(db, id, v, year);
    }
  }

  lemma GenerateKeepsInv(db: DB, biz: int, order: int, year: nat, business: string, currency: string,
                         id: int, url: Option<string>, fault: Fault)
    requires Inv(db)
    ensures Inv(GenerateSpec(db, biz, order, year, business, currency, id, url, fault).db)
  {
    hide Inv, SnapshotSpec, AttachPdf;
    if HasOrder(db, biz, order) && InSales(db.orders[order].status) {
      SnapshotKeepsInv(db, biz, order, year, business, currency, id, fault);
      var made := SnapshotSpec(db, biz, order, year, business, currency, id, fault);
      if made.answer.Ok? && made.answer.id in made.db.invoices {
        PdfKeepsInv(made.db, made.answer.id, url);
      }
    }
  }

  // ----- every call, every run -----

  lemma StepKeepsInv(config: Config, db: DB, call: Call)
    requires Inv(db)
    ensures Inv(Step(config, db, call).db)
  {
    hide Inv, Constraints;
    match call
    case SaveProduct(biz, id, name, price, deleted, fault) =>
      if id in db.products ==> db.products[id].biz == biz {
        ProductKeepsInv(db, id, Product(biz, name, price, deleted));
      }
    case SaveCustomer(biz, id, name, phone, deleted, fault) =>
      CustomerKeepsInv(db, id, Customer(biz, name, phone, deleted));
    case CreateInventory(biz, product, quantity, threshold, id, fault) =>
      if HasProduct(db, biz, product) && id !in db.inventories {
        InventoryKeepsInv(db, id, Inventory(biz, product, quantity, threshold));
      }
    case UpdateThreshold(biz, id, threshold, fault) =>
      if HasInventory(db, biz, id) {
        ThresholdKeepsInv(db, id, threshold);
      }
    case AdjustStock(biz, id, delta, kind, actor, fault) =>
      if HasInventory(db, biz, id) && delta != 0 {
        MovedKeepsInv(db, id, delta, kind, actor);
      }
    case AdjustByProduct(biz, product, delta, kind, actor, fault) =>
      var found := FindInventory(db.inventories, biz, product);
      if found.Some? && delta != 0 {
        MovedKeepsInv(db, found.value, delta, kind, actor);
      }
    case CreateOrder(biz, customer, items, id, fault) =>
      CreateOrderKeepsInv(db, biz, customer, items, config.rate, id, fault);
    case TransitionOrder(biz, id, event, actor, fault) =>
      if event != Pay {
        TransitionKeepsInv(db, biz, id, event, actor, fault);
      }
    case Initiate(biz, order, via, key, gateway, id, fault) =>
      InitiateKeepsInv(db, biz, order, via, key, gateway, config.currency, id, fault);
    case Verify(biz, id, answer, actor, now, fault) =>
      VerifyKeepsInv(db, biz, id, answer, actor, now, fault);
    case ConfirmCod(biz, id, actor, now, fault) =>
      ConfirmCodKeepsInv(db, biz, id, actor, now, fault);
    case Generate(biz, order, year, business, id, url, fault) =>
      GenerateKeepsInv(db, biz, order, year, business, config.currency, id, url, fault);
    case GetPdf(biz, id, stored, url, fault) =>
      if HasInvoice(db, biz, id) {
        PdfKeepsInv(db, id, url);
      }
  }

  /** Every reachable state satisfies the invariant. */
  lemma {:induction false} RunKeepsInv(config: Config, calls: seq<Call>)
    ensures Inv(Run(config, calls).db)
  {
    if calls != [] {
      RunKeepsInv(config, calls[..|calls| - 1]);
      StepKeepsInv(config, Run(config, calls[..|calls| - 1]).db, calls[|calls| - 1]);
    }
  }

  /** No two rows of any run disagree with a unique index, and no row breaks a CHECK. */
  lemma RunKeepsIndexes(config: Config, calls: seq<Call>)
    ensures var db := Run(config, calls).db;
            && (forall i, j | i in db.inventories && j in db.inventories && i != j ::
                  || db.inventories[i].biz != db.inventories[j].biz
                  || db.inventories[i].product != db.inventories[j].product)
            && (forall i | i in db.inventories :: db.inventories[i].quantity >= 0 && db.inventories[i].threshold >= 0)
            && (forall m | m in db.movements :: m.delta != 0 && m.resulting >= 0)
            && (forall o | o in db.orders :: forall l | l in db.orders[o].lines :: l.quantity > 0)
            && (forall i, j | i in db.payments && j in db.payments && i != j ::
                  var p, q := db.payments[i], db.payments[j];
                  && (p.order == q.order ==> p.status != Success || q.status != Success)
                  && (p.biz == q.biz && p.gatewayPayment.Some? ==> p.gatewayPayment != q.gatewayPayment)
                  && (p.biz == q.biz && p.key.Some? ==> p.key != q.key))
            && (forall i | i in db.payments :: db.payments[i].amount > 0)
            && (forall i, j | i in db.invoices && j in db.invoices && i != j ::
                  var v, w := db.invoices[i], db.invoices[j];
                  v.order != w.order && (v.biz == w.biz ==> v.number != w.number))
  {
    RunKeepsInv(config, calls);
    hide Run, Step, Owned, Billed, Stocked, PaidExactly, AmountMatches, Faithful;
  }
}
