/** Tenant isolation: deleting every other business's calls from a run changes nothing one
    business can see. */
module Tenancy {
  import opened Options
  import opened Lifecycle
  import opened Schema
  import opened Money
  import opened Inventories
  import opened Orders
  import opened Payments
  import opened InvoiceNumbers
  import opened Invoices
  import opened Api
  import opened Invariant

  ghost function Mine<V>(t: map<int, V>, owner: V -> int, b: int): map<int, V> {
    map k | k in t && owner(t[k]) == b :: t[k]
  }

  function MovementsOf(log: seq<Movement>, b: int): seq<Movement> {
    if log == [] then []
    else MovementsOf(log[..|log| - 1], b) + (if log[|log| - 1].biz == b then [log[|log| - 1]] else [])
  }

  function EventsOf(log: seq<Event>, b: int): seq<Event> {
    if log == [] then []
    else EventsOf(log[..|log| - 1], b) + (if log[|log| - 1].biz == b then [log[|log| - 1]] else [])
  }

  function CallsOf(calls: seq<Call>, b: int): seq<Call> {
    if calls == [] then []
    else CallsOf(calls[..|calls| - 1], b) + (if calls[|calls| - 1].biz == b then [calls[|calls| - 1]] else [])
  }

  const PRODUCT_OWNER: Product -> int := (r: Product) => r.biz
  const CUSTOMER_OWNER: Customer -> int := (r: Customer) => r.biz
  const INVENTORY_OWNER: Inventory -> int := (r: Inventory) => r.biz
  const ORDER_OWNER: Order -> int := (r: Order) => r.biz
  const PAYMENT_OWNER: Payment -> int := (r: Payment) => r.biz
  const INVOICE_OWNER: Invoice -> int := (r: Invoice) => r.biz

  /** The rows of one business. */
  ghost function Project(db: DB, b: int): DB {
    DB(Mine(db.products, PRODUCT_OWNER, b), Mine(db.customers, CUSTOMER_OWNER, b),
       Mine(db.inventories, INVENTORY_OWNER, b), MovementsOf(db.movements, b),
       Mine(db.orders, ORDER_OWNER, b), Mine(db.payments, PAYMENT_OWNER, b),
       Mine(db.invoices, INVOICE_OWNER, b),
       map k | k in db.counters && k.0 == b :: db.counters[k])
  }

  lemma PutMine<V>(t: map<int, V>, owner: V -> int, b: int, k: int, v: V)
    requires owner(v) == b
    ensures Mine(t[k := v], owner, b) == Mine(t, owner, b)[k := v]
  {}

  lemma PutOthers<V>(t: map<int, V>, owner: V -> int, b: int, k: int, v: V)
    requires owner(v) != b && (k in t ==> owner(t[k]) != b)
    ensures Mine(t[k := v], owner, b) == Mine(t, owner, b)
  {}

  lemma MovementsOfLonger(log: seq<Movement>, m: Movement, b: int)
    ensures MovementsOf(log + [m], b) == MovementsOf(log, b) + (if m.biz == b then [m] else [])
  {
    assert (log + [m])[..|log|] == log;
  }

  lemma {:induction false} EventsOfConcat(log: seq<Event>, more: seq<Event>, b: int)
    ensures EventsOf(log + more, b) == EventsOf(log, b) + EventsOf(more, b)
  {
    if more == [] {
      assert log + more == log;
    } else {
      EventsOfConcat(log, more[..|more| - 1], b);
      assert (log + more)[..|log + more| - 1] == log + more[..|more| - 1];
    }
  }

  lemma {:induction false} EventsAllOf(events: seq<Event>, b: int)
    requires forall e | e in events :: e.biz == b
    ensures EventsOf(events, b) == events
  {
    if events != [] {
      EventsAllOf(events[..|events| - 1], b);
    }
  }

  lemma {:induction false} EventsNoneOf(events: seq<Event>, b: int)
    requires forall e | e in events :: e.biz != b
    ensures EventsOf(events, b) == []
  {
    if events != [] {
      EventsNoneOf(events[..|events| - 1], b);
    }
  }

  // ----- lookups -----

  lemma FindProjected(t: map<int, Inventory>, b: int, product: int)
    requires OneRowPerProduct(t)
    ensures OneRowPerProduct(Mine(t, INVENTORY_OWNER, b))
    ensures FindInventory(Mine(t, INVENTORY_OWNER, b), b, product) == FindInventory(t, b, product)
  {
    var r := FindInventory(t, b, product);
    var mine := Mine(t, INVENTORY_OWNER, b);
    if r.Some? {
      InventoryFound(mine, b, product, r.value);
    }
  }

  lemma KeyProjected(t: map<int, Payment>, b: int, key: string)
    requires PaymentRules(t)
    ensures FindByKey(Mine(t, PAYMENT_OWNER, b), b, key) == FindByKey(t, b, key)
  {
    var r, mine := FindByKey(t, b, key), Mine(t, PAYMENT_OWNER, b);
    PaymentRulesProject(t, b);
    if r.Some? {
      KeyFound(mine, b, key, r.value);
    }
  }

  lemma SuccessProjected(t: map<int, Payment>, b: int, order: int)
    requires PaymentRules(t)
    ensures FindSuccess(Mine(t, PAYMENT_OWNER, b), b, order) == FindSuccess(t, b, order)
  {
    var r, mine := FindSuccess(t, b, order), Mine(t, PAYMENT_OWNER, b);
    PaymentRulesProject(t, b);
    if r.Some? {
      SuccessFound(mine, b, order, r.value);
    }
  }

  lemma InvoiceProjected(t: map<int, Invoice>, b: int, order: int)
    requires InvoiceRules(t)
    ensures FindInvoice(Mine(t, INVOICE_OWNER, b), b, order) == FindInvoice(t, b, order)
  {
    var r, mine := FindInvoice(t, b, order), Mine(t, INVOICE_OWNER, b);
    InvoiceRulesProject(t, b);
    if r.Some? {
      InvoiceFound(mine, b, order, r.value);
    }
  }

  lemma PaidForProjected(db: DB, b: int, order: int)
    ensures PaidFor(Project(db, b), b, order) == PaidFor(db, b, order)
  {
    if PaidFor(db, b, order) {
      var i :| i in db.payments && SucceededFor(db.payments[i], b, order);
      assert i in Project(db, b).payments && SucceededFor(Project(db, b).payments[i], b, order);
    }
  }

  /** A business finds its own rows among its own rows. */
  lemma LookupsProjected(db: DB, b: int, id: int)
    ensures HasProduct(Project(db, b), b, id) == HasProduct(db, b, id)
    ensures HasCustomer(Project(db, b), b, id) == HasCustomer(db, b, id)
    ensures HasInventory(Project(db, b), b, id) == HasInventory(db, b, id)
    ensures HasInventory(db, b, id) ==> Project(db, b).inventories[id] == db.inventories[id]
    ensures HasOrder(Project(db, b), b, id) == HasOrder(db, b, id)
    ensures HasOrder(db, b, id) ==> Project(db, b).orders[id] == db.orders[id]
    ensures HasPayment(Project(db, b), b, id) == HasPayment(db, b, id)
    ensures HasPayment(db, b, id) ==> Project(db, b).payments[id] == db.payments[id]
    ensures HasInvoice(Project(db, b), b, id) == HasInvoice(db, b, id)
    ensures HasInvoice(db, b, id) ==> Project(db, b).invoices[id] == db.invoices[id]
  {}

  // ----- the database's own rules, business by business -----

  lemma PaymentRulesProject(t: map<int, Payment>, b: int)
    requires PaymentRules(t)
    ensures PaymentRules(Mine(t, PAYMENT_OWNER, b))
  {
    var mine := Mine(t, PAYMENT_OWNER, b);
    forall i, j | i in mine && j in mine && i != j ensures !PaymentsClash(mine[i], mine[j]) {
      assert !PaymentsClash(t[i], t[j]);
    }
  }

  lemma InvoiceRulesProject(t: map<int, Invoice>, b: int)
    requires InvoiceRules(t)
    ensures InvoiceRules(Mine(t, INVOICE_OWNER, b))
  {
    var mine := Mine(t, INVOICE_OWNER, b);
    forall i, j | i in mine && j in mine && i != j ensures !InvoicesClash(mine[i], mine[j]) {
      assert !InvoicesClash(t[i], t[j]);
    }
    forall i | i in mine ensures mine[i].total >= 0 && forall x | x in mine[i].items :: x.line.quantity > 0 {
      assert t[i].total >= 0;
    }
  }

  lemma {:induction false} MovementsOfMembers(log: seq<Movement>, b: int)
    ensures forall m :: m in MovementsOf(log, b) <==> m in log && m.biz == b
  {
    if log != [] {
      var earlier, last := log[..|log| - 1], log[|log| - 1];
      MovementsOfMembers(earlier, b);
      assert forall m :: m in log <==> m in earlier || m == last;
    }
  }

  lemma OrderRulesProject(t: map<int, Order>, b: int)
    requires OrderRules(t)
    ensures OrderRules(Mine(t, ORDER_OWNER, b))
  {
    var mine := Mine(t, ORDER_OWNER, b);
    forall i | i in mine ensures PositiveQuantities(mine[i].lines) {
      assert PositiveQuantities(t[i].lines);
    }
  }

  lemma RulesProject(db: DB, b: int)
    requires Constraints(db)
    ensures Constraints(Project(db, b))
  {
    MovementsOfMembers(db.movements, b);
    PaymentRulesProject(db.payments, b);
    InvoiceRulesProject(db.invoices, b);
    OrderRulesProject(db.orders, b);
  }

  /** Everything of other businesses is as it was. */
  ghost predicate OthersSame(db: DB, next: DB, b: int) {
    && (forall i | i in next.inventories && next.inventories[i].biz != b ::
          i in db.inventories && db.inventories[i] == next.inventories[i])
    && (forall m | m in next.movements && m.biz != b :: m in db.movements)
    && (forall i | i in next.orders && next.orders[i].biz != b :: i in db.orders && db.orders[i] == next.orders[i])
    && (forall i | i in next.payments && next.payments[i].biz != b ::
          i in db.payments && db.payments[i] == next.payments[i])
    && (forall i | i in next.invoices && next.invoices[i].biz != b ::
          i in db.invoices && db.invoices[i] == next.invoices[i])
  }

  lemma InventoryRulesJoin(db: DB, next: DB, b: int)
    requires InventoryRules(db.inventories) && OthersSame(db, next, b) && Owned(next)
    requires InventoryRules(Mine(next.inventories, INVENTORY_OWNER, b))
    ensures InventoryRules(next.inventories)
  {
    var mine := Mine(next.inventories, INVENTORY_OWNER, b);
    forall i, j | i in next.inventories && j in next.inventories && i != j
      ensures next.inventories[i].product != next.inventories[j].product
    {
      assert IsProductOf(next, next.inventories[i].biz, next.inventories[i].product);
      assert IsProductOf(next, next.inventories[j].biz, next.inventories[j].product);
      assert i in mine && j in mine ==> mine[i].product != mine[j].product;
    }
    forall i | i in next.inventories ensures next.inventories[i].quantity >= 0 && next.inventories[i].threshold >= 0 {
      assert i in mine ==> mine[i].quantity >= 0 && mine[i].threshold >= 0;
    }
  }

  lemma PaymentRulesJoin(db: DB, next: DB, b: int)
    requires PaymentRules(db.payments) && OthersSame(db, next, b) && Owned(next)
    requires PaymentRules(Mine(next.payments, PAYMENT_OWNER, b))
    ensures PaymentRules(next.payments)
  {
    var mine := Mine(next.payments, PAYMENT_OWNER, b);
    forall i, j | i in next.payments && j in next.payments && i != j
      ensures !PaymentsClash(next.payments[i], next.payments[j])
    {
      assert IsOrderOf(next, next.payments[i].biz, next.payments[i].order);
      assert IsOrderOf(next, next.payments[j].biz, next.payments[j].order);
      assert i in mine && j in mine ==> !PaymentsClash(mine[i], mine[j]);
      assert i in db.payments && j in db.payments ==> !PaymentsClash(db.payments[i], db.payments[j]);
    }
    forall i | i in next.payments ensures next.payments[i].amount > 0 {
      assert i in mine ==> mine[i].amount > 0;
    }
  }

  lemma InvoiceRulesJoin(db: DB, next: DB, b: int)
    requires InvoiceRules(db.invoices) && OthersSame(db, next, b) && Owned(next)
    requires InvoiceRules(Mine(next.invoices, INVOICE_OWNER, b))
    ensures InvoiceRules(next.invoices)
  {
    var mine := Mine(next.invoices, INVOICE_OWNER, b);
    forall i, j | i in next.invoices && j in next.invoices && i != j
      ensures !InvoicesClash(next.invoices[i], next.invoices[j])
    {
      assert IsOrderOf(next, next.invoices[i].biz, next.invoices[i].order);
      assert IsOrderOf(next, next.invoices[j].biz, next.invoices[j].order);
      assert i in mine && j in mine ==> !InvoicesClash(mine[i], mine[j]);
      assert i in db.invoices && j in db.invoices ==> !InvoicesClash(db.invoices[i], db.invoices[j]);
    }
    forall i | i in next.invoices
      ensures next.invoices[i].total >= 0 && forall x | x in next.invoices[i].items :: x.line.quantity > 0
    {
      assert i in mine ==> mine[i].total >= 0;
      assert i in db.invoices ==> db.invoices[i].total >= 0;
    }
  }

  lemma PlainRulesJoin(db: DB, next: DB, b: int)
    requires OrderRules(db.orders) && MovementRules(db.movements) && OthersSame(db, next, b)
    requires OrderRules(Mine(next.orders, ORDER_OWNER, b)) && MovementRules(MovementsOf(next.movements, b))
    ensures OrderRules(next.orders) && MovementRules(next.movements)
  {
    var mine := Mine(next.orders, ORDER_OWNER, b);
    forall i | i in next.orders ensures PositiveQuantities(next.orders[i].lines) {
      assert i in mine ==> PositiveQuantities(mine[i].lines);
      assert i in db.orders ==> PositiveQuantities(db.orders[i].lines);
    }
    MovementsOfMembers(next.movements, b);
  }

  /** The database accepts a business's change exactly when it would accept it with that
      business's rows alone. */
  lemma RulesAgree(db: DB, next: DB, b: int)
    requires Constraints(db) && OthersSame(db, next, b) && Owned(next)
    ensures Constraints(next) <==> Constraints(Project(next, b))
  {
    hide InventoryRules, PaymentRules, InvoiceRules, OrderRules, MovementRules, Owned, OthersSame;
    if Constraints(next) {
      RulesProject(next, b);
    }
    if Constraints(Project(next, b)) {
      InventoryRulesJoin(db, next, b);
      PaymentRulesJoin(db, next, b);
      InvoiceRulesJoin(db, next, b);
      PlainRulesJoin(db, next, b);
    }
  }

  // ----- one call of the business itself -----

  ghost predicate Mirrors(mirror: Outcome, o: Outcome, b: int) {
    && mirror.answer == o.answer && mirror.events == o.events
    && mirror.db == Project(o.db, b)
    && forall e | e in o.events :: e.biz == b
  }

  lemma FinishMirrors(db: DB, next: DB, events: seq<Event>, answer: Answer, fault: Fault, b: int)
    requires Constraints(db) && OthersSame(db, next, b) && Owned(next)
    requires forall e | e in events :: e.biz == b
    ensures Mirrors(Finish(Project(db, b), Project(next, b), events, answer, fault),
                    Finish(db, next, events, answer, fault), b)
  {
    hide Constraints, OthersSame, Owned, Project;
    RulesAgree(db, next, b);
  }

  lemma RefuseMirrors(db: DB, error: Error, b: int)
    ensures Mirrors(Refuse(Project(db, b), error), Refuse(db, error), b)
  {}

  lemma InvFacts(db: DB)
    requires Inv(db)
    ensures Constraints(db) && Owned(db) && OneRowPerProduct(db.inventories)
    ensures PaymentRules(db.payments) && InvoiceRules(db.invoices)
  {}

  lemma OthersSameCatalog(db: DB, next: DB, b: int)
    requires next == db.(products := next.products, customers := next.customers)
    ensures OthersSame(db, next, b)
  {}

  lemma CatalogOwned(db: DB, next: DB)
    requires Owned(db) && next == db.(products := next.products, customers := next.customers)
    requires forall p | p in db.products :: p in next.products && next.products[p].biz == db.products[p].biz
    ensures Owned(next)
  {
    hide Owned;
    SkeletonOwned(db, next);
  }

  lemma SaveProductMirrors(db: DB, id: int, product: Product, fault: Fault, b: int)
    requires Inv(db) && product.biz == b && (id in db.products ==> db.products[id].biz == b)
    ensures Mirrors(SaveProductSpec(Project(db, b), b, id, product, fault),
                    SaveProductSpec(db, b, id, product, fault), b)
  {
    var next := db.(products := db.products[id := product]);
    InvFacts(db);
    hide Inv, Constraints, Owned, OthersSame, Finish, Refuse, Mirrors;
    CatalogOwned(db, next);
    OthersSameCatalog(db, next, b);
    PutMine(db.products, PRODUCT_OWNER, b, id, product);
    FinishMirrors(db, next, [], Ok(id), fault, b);
  }

  lemma SaveCustomerMirrors(db: DB, id: int, customer: Customer, fault: Fault, b: int)
    requires Inv(db) && customer.biz == b && (id in db.customers ==> db.customers[id].biz == b)
    ensures Mirrors(SaveCustomerSpec(Project(db, b), b, id, customer, fault),
                    SaveCustomerSpec(db, b, id, customer, fault), b)
  {
    var next := db.(customers := db.customers[id := customer]);
    InvFacts(db);
    hide Inv, Constraints, Owned, OthersSame, Finish, Refuse, Mirrors;
    CatalogOwned(db, next);
    OthersSameCatalog(db, next, b);
    PutMine(db.customers, CUSTOMER_OWNER, b, id, customer);
    FinishMirrors(db, next, [], Ok(id), fault, b);
  }

  lemma OthersSameInventory(db: DB, next: DB, id: int, b: int)
    requires id in next.inventories && next == db.(inventories := db.inventories[id := next.inventories[id]])
    requires next.inventories[id].biz == b
    ensures OthersSame(db, next, b)
    ensures Project(next, b)
         == Project(db, b).(inventories := Project(db, b).inventories[id := next.inventories[id]])
  {
    PutMine(db.inventories, INVENTORY_OWNER, b, id, next.inventories[id]);
  }

  lemma ShelfMirrors(db: DB, id: int, row: Inventory, fault: Fault, b: int)
    requires Inv(db) && row.biz == b && Owned(db.(inventories := db.inventories[id := row]))
    ensures var mine := Project(db, b);
            var alone := mine.(inventories := mine.inventories[id := row]);
            var next := db.(inventories := db.inventories[id := row]);
            && (Constraints(next) <==> Constraints(alone))
            && Mirrors(Finish(mine, alone, [], Ok(id), fault), Finish(db, next, [], Ok(id), fault), b)
  {
    var next := db.(inventories := db.inventories[id := row]);
    InvFacts(db);
    hide Inv, Constraints, Owned, OthersSame, Finish, Project, Mirrors;
    OthersSameInventory(db, next, id, b);
    RulesAgree(db, next, b);
    FinishMirrors(db, next, [], Ok(id), fault, b);
  }

  lemma ShelfKeysProjected(db: DB, b: int, id: int, product: int)
    requires Inv(db) && (id in db.inventories ==> db.inventories[id].biz == b)
    ensures id in Project(db, b).inventories <==> id in db.inventories
    ensures FindInventory(Project(db, b).inventories, b, product) == FindInventory(db.inventories, b, product)
  {
    FindProjected(db.inventories, b, product);
  }

  lemma CreateInventoryMirrors(db: DB, b: int, product: int, quantity: int, threshold: int, id: int, fault: Fault)
    requires Inv(db) && (id in db.inventories ==> db.inventories[id].biz == b)
    ensures Mirrors(CreateInventorySpec(Project(db, b), b, product, quantity, threshold, id, fault),
                    CreateInventorySpec(db, b, product, quantity, threshold, id, fault), b)
  {
    var row := Inventory(b, product, quantity, threshold);
    InvFacts(db);
    hide Inv, Constraints, Owned, Finish, Refuse, Project, Mirrors;
    LookupsProjected(db, b, product);
    ShelfKeysProjected(db, b, id, product);
    RefuseMirrors(db, NotFound, b);
    RefuseMirrors(db, Conflict, b);
    if HasProduct(db, b, product) && id !in db.inventories {
      InventoryOwned(db, db.(inventories := db.inventories[id := row]), id);
      ShelfMirrors(db, id, row, fault, b);
    }
  }

  lemma ThresholdOwned(db: DB, id: int, threshold: int)
    requires Owned(db) && id in db.inventories
    ensures Owned(db.(inventories := db.inventories[id := db.inventories[id].(threshold := threshold)]))
  {
    hide Owned;
    SkeletonOwned(db, db.(inventories := db.inventories[id := db.inventories[id].(threshold := threshold)]));
  }

  lemma UpdateThresholdMirrors(db: DB, b: int, id: int, threshold: int, fault: Fault)
    requires Inv(db)
    ensures Mirrors(UpdateThresholdSpec(Project(db, b), b, id, threshold, fault),
                    UpdateThresholdSpec(db, b, id, threshold, fault), b)
  {
    InvFacts(db);
    hide Inv, Constraints, Owned, Finish, Refuse, Project, Mirrors;
    LookupsProjected(db, b, id);
    RefuseMirrors(db, NotFound, b);
    RefuseMirrors(db, Validation, b);
    if HasInventory(db, b, id) {
      ThresholdOwned(db, id, threshold);
      ShelfMirrors(db, id, db.inventories[id].(threshold := threshold), fault, b);
    }
  }

  // ----- stock -----

  ghost predicate StagedMirrors(mirror: Staged, r: Staged, b: int) {
    match r
    case Refused(error) => mirror == r
    case Staged(next, lows) =>
      mirror == Staged(Project(next, b), lows) && forall e | e in lows :: e.biz == b
  }

  lemma LogProjected(db: DB, m: Movement, b: int)
    requires m.biz == b
    ensures Project(db.(movements := db.movements + [m]), b)
         == Project(db, b).(movements := Project(db, b).movements + [m])
  {
    MovementsOfLonger(db.movements, m, b);
  }

  lemma MoveMirrors(db: DB, id: int, delta: int, kind: MovementType, actor: Option<int>, b: int)
    requires HasInventory(db, b, id)
    ensures HasInventory(Project(db, b), b, id)
    ensures StagedMirrors(Move(Project(db, b), id, delta, kind, actor), Move(db, id, delta, kind, actor), b)
  {
    hide Project;
    LookupsProjected(db, b, id);
    var r := Move(db, id, delta, kind, actor);
    if r.Staged? {
      var mid := db.(inventories := r.db.inventories);
      OthersSameInventory(db, mid, id, b);
      LogProjected(mid, r.db.movements[|db.movements|], b);
    }
  }

  lemma MoveOthersSame(db: DB, id: int, delta: int, kind: MovementType, actor: Option<int>, b: int)
    requires HasInventory(db, b, id)
    ensures var r := Move(db, id, delta, kind, actor); r.Staged? ==> OthersSame(db, r.db, b)
  {}

  lemma MoveOwned(db: DB, id: int, delta: int, kind: MovementType, actor: Option<int>)
    requires Inv(db) && id in db.inventories && delta != 0
    ensures var r := Move(db, id, delta, kind, actor); r.Staged? ==> Owned(r.db)
  {
    var r := Move(db, id, delta, kind, actor);
    if r.Staged? {
      MovedKeepsInv(db, id, delta, kind, actor);
      InvFacts(r.db);
    }
  }

  lemma AdjustMirrors(db: DB, b: int, id: int, delta: int, kind: MovementType, actor: Option<int>, fault: Fault)
    requires Inv(db)
    ensures Mirrors(AdjustStockSpec(Project(db, b), b, id, delta, kind, actor, fault),
                    AdjustStockSpec(db, b, id, delta, kind, actor, fault), b)
  {
    InvFacts(db);
    hide Inv, Constraints, Owned, OthersSame, Finish, Refuse, Move, Project, Mirrors;
    LookupsProjected(db, b, id);
    RefuseMirrors(db, NotFound, b);
    RefuseMirrors(db, Validation, b);
    if HasInventory(db, b, id) && delta != 0 {
      MoveMirrors(db, id, delta, kind, actor, b);
      MoveOwned(db, id, delta, kind, actor);
      MoveOthersSame(db, id, delta, kind, actor, b);
      var r := Move(db, id, delta, kind, actor);
      if r.Staged? {
        FinishMirrors(db, r.db, r.lows, Ok(id), fault, b);
      } else {
        RefuseMirrors(db, r.error, b);
      }
    }
  }

  lemma AdjustByProductMirrors(db: DB, b: int, product: int, delta: int, kind: MovementType, actor: Option<int>,
                               fault: Fault)
    requires Inv(db)
    ensures Mirrors(AdjustByProductSpec(Project(db, b), b, product, delta, kind, actor, fault),
                    AdjustByProductSpec(db, b, product, delta, kind, actor, fault), b)
  {
    InvFacts(db);
    hide Inv, Constraints, AdjustStockSpec;
    FindProjected(db.inventories, b, product);
    RefuseMirrors(db, NotFound, b);
    var found := FindInventory(db.inventories, b, product);
    if found.Some? {
      AdjustMirrors(db, b, found.value, delta, kind, actor, fault);
    }
  }

  lemma StageMirrors(db: DB, b: int, product: int, delta: int, kind: MovementType, actor: Option<int>)
    requires OneRowPerProduct(db.inventories)
    ensures StagedMirrors(Stage(Project(db, b), b, product, delta, kind, actor),
                          Stage(db, b, product, delta, kind, actor), b)
    ensures var r := Stage(db, b, product, delta, kind, actor); r.Staged? ==> OthersSame(db, r.db, b)
  {
    hide Project, Move, OthersSame;
    FindInProject(db, b, product);
    var found := FindInventory(db.inventories, b, product);
    if found.Some? {
      MoveMirrors(db, found.value, delta, kind, actor, b);
      MoveOthersSame(db, found.value, delta, kind, actor, b);
    }
  }

  lemma {:induction false} StageLinesMirrors(db: DB, b: int, lines: seq<Line>, sign: int, actor: Option<int>)
    requires StockSound(db)
    ensures StagedMirrors(StageLines(Project(db, b), b, lines, sign, actor), StageLines(db, b, lines, sign, actor), b)
    ensures var r := StageLines(db, b, lines, sign, actor); r.Staged? ==> OthersSame(db, r.db, b)
  {
    if lines != [] {
      hide StockSound, Project, Stage, OthersSame;
      var line, shorter := lines[|lines| - 1], lines[..|lines| - 1];
      StageLinesMirrors(db, b, shorter, sign, actor);
      StageLinesKeepsStockSound(db, b, shorter, sign, actor);
      var before := StageLines(db, b, shorter, sign, actor);
      if before.Staged? {
        OneRowWhenSound(before.db);
        var delta := sign * line.quantity;
        StageMirrors(before.db, b, line.product, delta, MovementKind(sign), actor);
        var r := Stage(before.db, b, line.product, delta, MovementKind(sign), actor);
        if r.Staged? {
          OthersSameThrough(db, before.db, r.db, b);
        }
      }
    } else {
      OthersSameNow(db, b);
    }
  }

  lemma OneRowWhenSound(db: DB)
    requires StockSound(db)
    ensures OneRowPerProduct(db.inventories)
  {}

  lemma FindInProject(db: DB, b: int, product: int)
    requires OneRowPerProduct(db.inventories)
    ensures FindInventory(Project(db, b).inventories, b, product) == FindInventory(db.inventories, b, product)
    ensures var r := FindInventory(db.inventories, b, product); r.Some? ==> HasInventory(db, b, r.value)
  {
    FindProjected(db.inventories, b, product);
  }

  lemma OthersSameNow(db: DB, b: int)
    ensures OthersSame(db, db, b)
  {}

  lemma OthersSameThrough(a: DB, m: DB, c: DB, b: int)
    requires OthersSame(a, m, b) && OthersSame(m, c, b)
    ensures OthersSame(a, c, b)
  {}

  // ----- orders -----

  lemma {:induction false} SnapshotProjected(db: DB, b: int, items: seq<ItemIn>)
    ensures Snapshot(Project(db, b), b, items) == Snapshot(db, b, items)
  {
    if items != [] {
      hide Project;
      SnapshotProjected(db, b, items[..|items| - 1]);
      LookupsProjected(db, b, items[|items| - 1].product);
    }
  }

  lemma OthersSameOrder(db: DB, next: DB, id: int, b: int)
    requires id in next.orders && next.orders[id].biz == b
    requires next == db.(orders := db.orders[id := next.orders[id]])
    ensures OthersSame(db, next, b)
    ensures Project(next, b)
         == Project(db, b).(orders := Project(db, b).orders[id := next.orders[id]])
  {
    PutMine(db.orders, ORDER_OWNER, b, id, next.orders[id]);
  }

  lemma OrderKeysProjected(db: DB, b: int, id: int)
    requires id in db.orders ==> db.orders[id].biz == b
    ensures id in Project(db, b).orders <==> id in db.orders
  {}

  lemma InsertOrderMirrors(db: DB, id: int, order: Order, fault: Fault, b: int)
    requires Inv(db) && id !in db.orders && order.biz == b
    requires forall l | l in order.lines :: IsProductOf(db, b, l.product)
    ensures var mine, events := Project(db, b), [OrderCreated(b, id, order.customer)];
            Mirrors(Finish(mine, mine.(orders := mine.orders[id := order]), events, Ok(id), fault),
                    Finish(db, db.(orders := db.orders[id := order]), events, Ok(id), fault), b)
  {
    InvFacts(db);
    hide Inv, Constraints, Owned, OthersSame, Finish, Project, Mirrors;
    var next := db.(orders := db.orders[id := order]);
    OrderOwned(db, next, id);
    OthersSameOrder(db, next, id, b);
    FinishMirrors(db, next, [OrderCreated(b, id, order.customer)], Ok(id), fault, b);
  }

  lemma CreateOrderMirrors(db: DB, b: int, customer: int, items: seq<ItemIn>, rate: real, id: int, fault: Fault)
    requires Inv(db) && (id in db.orders ==> db.orders[id].biz == b)
    ensures Mirrors(CreateOrderSpec(Project(db, b), b, customer, items, rate, id, fault),
                    CreateOrderSpec(db, b, customer, items, rate, id, fault), b)
  {
    InvFacts(db);
    hide Inv, Constraints, Owned, OthersSame, Finish, Refuse, Project, Mirrors, Snapshot, OrderTotals, PricedLines;
    LookupsProjected(db, b, customer);
    SnapshotProjected(db, b, items);
    OrderKeysProjected(db, b, id);
    RefuseMirrors(db, NotFound, b);
    RefuseMirrors(db, Validation, b);
    RefuseMirrors(db, IntegrityError, b);
    var lines := Snapshot(db, b, items);
    if lines.Some? && id !in db.orders {
      SnapshotOwned(db, b, items);
      var t := OrderTotals(PricedLines(lines.value), rate);
      InsertOrderMirrors(db, id, Order(b, customer, Created, t.tax, t.total, lines.value), fault, b);
    }
  }

  lemma EffectMirrors(db: DB, b: int, order: Order, effect: InventoryEffect, actor: Option<int>)
    requires Inv(db) && order.biz == b
    ensures StagedMirrors(ApplyEffect(Project(db, b), order, effect, actor), ApplyEffect(db, order, effect, actor), b)
    ensures var r := ApplyEffect(db, order, effect, actor);
            r.Staged? ==> OthersSame(db, r.db, b) && Owned(r.db) && r.db.orders == db.orders
  {
    InvFacts(db);
    hide Inv, Constraints, Owned, OthersSame, Project, AllFound;
    InvGivesStockSound(db);
    hide StockSound;
    EffectKeepsInv(db, order, effect, actor);
    OthersSameNow(db, b);
    var r := ApplyEffect(db, order, effect, actor);
    if r.Staged? {
      InvFacts(r.db);
    }
    if effect != Unchanged {
      StageLinesMirrors(db, b, order.lines, StockSign(effect), actor);
    }
  }

  lemma StatusMirrors(db: DB, mid: DB, id: int, to: OrderStatus, b: int)
    requires HasOrder(mid, b, id) && Owned(mid) && OthersSame(db, mid, b)
    ensures Owned(WithStatus(mid, id, to)) && OthersSame(db, WithStatus(mid, id, to), b)
    ensures id in Project(mid, b).orders
    ensures Project(WithStatus(mid, id, to), b) == WithStatus(Project(mid, b), id, to)
  {
    var next := WithStatus(mid, id, to);
    hide Owned, OthersSame;
    SkeletonOwned(mid, next);
    OthersSameOrder(mid, next, id, b);
    OthersSameThrough(db, mid, next, b);
  }

  lemma LifecycleOwner(order: Order, id: int, to: OrderStatus)
    ensures forall e | e in LifecycleEvents(order, id, to) :: e.biz == order.biz
  {}

  lemma ConcludeMirrors(db: DB, mid: DB, order: Order, id: int, to: OrderStatus, events: seq<Event>, fault: Fault,
                        b: int)
    requires Constraints(db) && OthersSame(db, mid, b) && Owned(mid)
    requires HasOrder(mid, b, id) && mid.orders[id] == order
    requires forall e | e in events :: e.biz == b
    ensures var mine := Project(mid, b);
            Mirrors(Finish(Project(db, b), mine.(orders := mine.orders[id := order.(status := to)]), events,
                           Ok(id), fault),
                    Finish(db, mid.(orders := mid.orders[id := order.(status := to)]), events, Ok(id), fault), b)
  {
    hide Constraints, Owned, OthersSame, Finish, Project, Mirrors;
    LookupsProjected(mid, b, id);
    StatusMirrors(db, mid, id, to, b);
    FinishMirrors(db, WithStatus(mid, id, to), events, Ok(id), fault, b);
  }

  lemma TransitionMirrors(db: DB, b: int, id: int, event: OrderEvent, actor: Option<int>, fault: Fault)
    requires Inv(db)
    ensures Mirrors(TransitionSpec(Project(db, b), Project(db, b), b, id, event, actor, fault),
                    TransitionSpec(db, db, b, id, event, actor, fault), b)
  {
    InvFacts(db);
    hide Inv, Constraints, Owned, OthersSame, Finish, Refuse, Project, Mirrors, ApplyEffect, Rule, LifecycleEvents;
    LookupsProjected(db, b, id);
    RefuseMirrors(db, NotFound, b);
    RefuseMirrors(db, Conflict, b);
    if HasOrder(db, b, id) && Rule(db.orders[id].status, event).Some? {
      var order := db.orders[id];
      var rule := Rule(order.status, event).value;
      EffectMirrors(db, b, order, rule.effect, actor);
      var staged := ApplyEffect(db, order, rule.effect, actor);
      if staged.Staged? {
        LifecycleOwner(order, id, rule.to);
        ConcludeMirrors(db, staged.db, order, id, rule.to, staged.lows + LifecycleEvents(order, id, rule.to), fault, b);
      } else {
        RefuseMirrors(db, staged.error, b);
      }
    }
  }

  // ----- payments -----

  lemma OthersSamePayment(db: DB, next: DB, id: int, b: int)
    requires id in next.payments && next == SetPayment(db, id, next.payments[id])
    requires next.payments[id].biz == b
    ensures OthersSame(db, next, b)
    ensures Project(next, b) == SetPayment(Project(db, b), id, next.payments[id])
  {
    PutMine(db.payments, PAYMENT_OWNER, b, id, next.payments[id]);
  }

  /** What writing one attempt of the business's own order gives the other lemmas. */
  lemma AttemptMirrors(db: DB, id: int, p: Payment, b: int)
    requires Inv(db) && p.biz == b && HasOrder(db, b, p.order)
    ensures Owned(SetPayment(db, id, p)) && OthersSame(db, SetPayment(db, id, p), b)
    ensures Project(SetPayment(db, id, p), b) == SetPayment(Project(db, b), id, p)
    ensures Constraints(SetPayment(db, id, p)) <==> Constraints(SetPayment(Project(db, b), id, p))
  {
    InvFacts(db);
    hide Inv, Owned, OthersSame, Constraints, Project;
    var next := SetPayment(db, id, p);
    PaymentOwned(db, next, id);
    OthersSamePayment(db, next, id, b);
    RulesAgree(db, next, b);
  }

  lemma PaymentKeysProjected(db: DB, b: int, id: int)
    requires id in db.payments ==> db.payments[id].biz == b
    ensures id in Project(db, b).payments <==> id in db.payments
  {}

  lemma KeyInProject(db: DB, b: int, key: string)
    requires Inv(db)
    ensures FindByKey(Project(db, b).payments, b, key) == FindByKey(db.payments, b, key)
  {
    InvFacts(db);
    hide Inv;
    KeyProjected(db.payments, b, key);
  }

  lemma SameMirrors(db: DB, answer: Answer, b: int)
    ensures Mirrors(Outcome(Project(db, b), [], answer), Outcome(db, [], answer), b)
  {}

  lemma NewPaymentOwner(order: Order, id: int, via: PaymentMethod, key: Option<string>, gateway: Option<string>,
                        currency: string)
    ensures var p := NewPayment(order, id, via, key, gateway, currency); p.biz == order.biz && p.order == id
  {}

  lemma InsertPaymentMirrors(db: DB, id: int, p: Payment, fault: Fault, b: int)
    requires Inv(db) && p.biz == b && HasOrder(db, b, p.order)
    ensures var mine := Project(db, b);
            var alone, next := mine.(payments := mine.payments[id := p]), db.(payments := db.payments[id := p]);
            && (Constraints(next) <==> Constraints(alone))
            && Mirrors(Finish(mine, alone, [], Ok(id), fault), Finish(db, next, [], Ok(id), fault), b)
  {
    InvFacts(db);
    hide Inv, Constraints, Owned, OthersSame, Finish, Project, Mirrors;
    AttemptMirrors(db, id, p, b);
    FinishMirrors(db, SetPayment(db, id, p), [], Ok(id), fault, b);
  }

  lemma InitiateMirrors(db: DB, b: int, order: int, via: PaymentMethod, key: Option<string>,
                        gateway: Option<string>, currency: string, id: int, fault: Fault)
    requires Inv(db) && (id in db.payments ==> db.payments[id].biz == b)
    ensures Mirrors(InitiateSpec(Project(db, b), b, order, via, key, gateway, currency, id, fault),
                    InitiateSpec(db, b, order, via, key, gateway, currency, id, fault), b)
  {
    hide Inv, Constraints, Owned, OthersSame, Finish, Refuse, Project, Mirrors, PaidFor, NewPayment;
    LookupsProjected(db, b, order);
    PaidForProjected(db, b, order);
    PaymentKeysProjected(db, b, id);
    RefuseMirrors(db, NotFound, b);
    RefuseMirrors(db, PaymentState, b);
    RefuseMirrors(db, ProviderUnavailable, b);
    RefuseMirrors(db, Conflict, b);
    if key.Some? {
      KeyInProject(db, b, key.value);
      var existing := FindByKey(db.payments, b, key.value);
      if existing.Some? {
        SameMirrors(db, Ok(existing.value), b);
      }
    }
    if HasOrder(db, b, order) {
      NewPaymentOwner(db.orders[order], order, via, key, gateway, currency);
      InsertPaymentMirrors(db, id, NewPayment(db.orders[order], order, via, key, gateway, currency), fault, b);
    }
  }

  lemma FailMirrors(db: DB, id: int, code: string, fault: Fault, b: int)
    requires Inv(db) && HasPayment(db, b, id) && HasPayment(Project(db, b), b, id)
    ensures Mirrors(FailSpec(Project(db, b), id, code, fault), FailSpec(db, id, code, fault), b)
  {
    AttemptFacts(db, id);
    InvFacts(db);
    hide Inv, Constraints, Owned, OthersSame, Finish, Project, Mirrors;
    LookupsProjected(db, b, id);
    var p := db.payments[id];
    var row := p.(status := Failed, failure := Some(code));
    AttemptMirrors(db, id, row, b);
    FinishMirrors(db, SetPayment(db, id, row), [PaymentFailed(p.biz, p.order, id, code)], Err(PaymentMismatch),
                  fault, b);
  }

  lemma PaidStateProjected(db: DB, id: int, reference: Option<string>, now: int, b: int)
    requires Inv(db) && HasPayment(db, b, id) && HasPayment(Project(db, b), b, id)
    requires HasOrder(db, b, db.payments[id].order)
    ensures HasOrder(Project(db, b), b, Project(db, b).payments[id].order)
    ensures Project(PaidState(db, id, reference, now), b) == PaidState(Project(db, b), id, reference, now)
  {
    var p := db.payments[id];
    var staged := SetPayment(db, id, Succeeded(p, reference, now));
    InvFacts(db);
    hide Inv, Owned, OthersSame, Constraints, Project;
    LookupsProjected(db, b, id);
    LookupsProjected(db, b, p.order);
    AttemptMirrors(db, id, Succeeded(p, reference, now), b);
    StatusMirrors(db, staged, p.order, Paid, b);
  }

  lemma SucceedMirrors(db: DB, id: int, reference: Option<string>, actor: Option<int>, now: int, fault: Fault, b: int)
    requires Inv(db) && Inv(Project(db, b)) && HasPayment(db, b, id) && HasPayment(Project(db, b), b, id)
    requires Verifiable(db.payments[id].status) && HasOrder(db, b, db.payments[id].order)
    requires db.orders[db.payments[id].order].status == Confirmed
    ensures Mirrors(SucceedSpec(Project(db, b), id, reference, actor, now, fault),
                    SucceedSpec(db, id, reference, actor, now, fault), b)
  {
    hide Inv, Constraints, Owned, OthersSame, Project, SucceedSpec, PaidState;
    var p := db.payments[id];
    LookupsProjected(db, b, id);
    LookupsProjected(db, b, p.order);
    SucceedOutcome(db, id, reference, actor, now, fault);
    SucceedOutcome(Project(db, b), id, reference, actor, now, fault);
    AttemptMirrors(db, id, Succeeded(p, reference, now), b);
    PaidStateProjected(db, id, reference, now, b);
  }

  lemma EligibleMirrors(db: DB, b: int, id: int, via: PaymentMethod)
    requires Inv(db)
    ensures match Eligible(db, b, id, via)
            case Some(o) =>
              && Eligible(Project(db, b), b, id, via).Some?
              && Mirrors(Eligible(Project(db, b), b, id, via).value, o, b)
            case None =>
              && Eligible(Project(db, b), b, id, via).None?
              && HasPayment(db, b, id) && HasPayment(Project(db, b), b, id)
              && Project(db, b).payments[id] == db.payments[id]
              && Verifiable(db.payments[id].status) && HasOrder(db, b, db.payments[id].order)
              && db.orders[db.payments[id].order].status == Confirmed
  {
    hide Inv, Project, Mirrors, Refuse;
    LookupsProjected(db, b, id);
    RefuseMirrors(db, NotFound, b);
    RefuseMirrors(db, PaymentState, b);
    SameMirrors(db, Ok(id), b);
    if HasPayment(db, b, id) {
      LookupsProjected(db, b, db.payments[id].order);
    }
  }

  lemma VerifyMirrors(db: DB, b: int, id: int, gateway: Option<Verification>, actor: Option<int>, now: int,
                      fault: Fault)
    requires Inv(db) && Inv(Project(db, b))
    ensures Mirrors(VerifySpec(Project(db, b), b, id, gateway, actor, now, fault),
                    VerifySpec(db, b, id, gateway, actor, now, fault), b)
  {
    InvFacts(db);
    hide Inv, Constraints, Owned, OthersSame, Finish, Refuse, Project, Mirrors,
         Eligible, FailSpec, SucceedSpec, Mismatch;
    EligibleMirrors(db, b, id, Online);
    if Eligible(db, b, id, Online).None? {
      var p := db.payments[id];
      if gateway.None? {
        RefuseMirrors(db, ProviderUnavailable, b);
      } else if gateway.value.status == GatewayPending {
        AttemptMirrors(db, id, p.(status := Pending), b);
        FinishMirrors(db, SetPayment(db, id, p.(status := Pending)), [], Ok(id), fault, b);
      } else if Mismatch(p, gateway.value).Some? {
        FailMirrors(db, id, Mismatch(p, gateway.value).value, fault, b);
      } else {
        SucceedMirrors(db, id, Some(gateway.value.gatewayPayment), actor, now, fault, b);
      }
    }
  }

  lemma ConfirmCodMirrors(db: DB, b: int, id: int, actor: Option<int>, now: int, fault: Fault)
    requires Inv(db) && Inv(Project(db, b))
    ensures Mirrors(ConfirmCodSpec(Project(db, b), b, id, actor, now, fault),
                    ConfirmCodSpec(db, b, id, actor, now, fault), b)
  {
    hide Inv, Constraints, Owned, OthersSame, Project, Mirrors, Eligible, SucceedSpec;
    EligibleMirrors(db, b, id, Cod);
    if Eligible(db, b, id, Cod).None? {
      SucceedMirrors(db, id, None, actor, now, fault, b);
    }
  }

  // ----- invoices -----

  lemma InvoiceKeysProjected(db: DB, b: int, id: int)
    requires id in db.invoices ==> db.invoices[id].biz == b
    ensures id in Project(db, b).invoices <==> id in db.invoices
  {}

  lemma InvoiceInProject(db: DB, b: int, order: int)
    requires Inv(db)
    ensures FindInvoice(Project(db, b).invoices, b, order) == FindInvoice(db.invoices, b, order)
  {
    InvFacts(db);
    hide Inv;
    InvoiceProjected(db.invoices, b, order);
  }

  lemma SuccessInProject(db: DB, b: int, order: int)
    requires Inv(db)
    ensures SuccessOf(Project(db, b), b, order) == SuccessOf(db, b, order)
  {
    InvFacts(db);
    hide Inv;
    SuccessProjected(db.payments, b, order);
  }

  lemma DraftProjected(db: DB, b: int, order: int, paid: Option<Payment>, year: nat, business: string,
                       currency: string, items: seq<InvoiceLine>)
    requires HasOrder(db, b, order)
    ensures HasOrder(Project(db, b), b, order)
    ensures Draft(Project(db, b), order, paid, year, business, currency, items)
         == Draft(db, order, paid, year, business, currency, items)
  {
    hide InvoiceNumber;
    assert NextSequence(Project(db, b).counters, b, year) == NextSequence(db.counters, b, year);
  }

  lemma IssueProjected(db: DB, b: int, id: int, v: Invoice, year: nat)
    requires v.biz == b
    ensures Project(Issue(db, id, v, year), b) == Issue(Project(db, b), id, v, year)
    ensures OthersSame(db, Issue(db, id, v, year), b)
  {
    PutMine(db.invoices, INVOICE_OWNER, b, id, v);
    assert NextSequence(Project(db, b).counters, b, year) == NextSequence(db.counters, b, year);
    assert Project(Issue(db, id, v, year), b).counters == Issue(Project(db, b), id, v, year).counters;
  }

  lemma PdfProjected(db: DB, b: int, id: int, url: Option<string>)
    requires HasInvoice(db, b, id)
    ensures HasInvoice(Project(db, b), b, id)
    ensures Project(AttachPdf(db, id, url), b) == AttachPdf(Project(db, b), id, url)
  {
    hide PdfKey;
    if url.Some? {
      PutMine(db.invoices, INVOICE_OWNER, b, id, AttachPdf(db, id, url).invoices[id]);
    }
  }

  lemma SnapshotSpecMirrors(db: DB, b: int, order: int, year: nat, business: string, currency: string, id: int,
                            fault: Fault)
    requires Inv(db) && (id in db.invoices ==> db.invoices[id].biz == b)
    requires HasOrder(db, b, order) && HasOrder(Project(db, b), b, order)
    ensures Mirrors(SnapshotSpec(Project(db, b), b, order, year, business, currency, id, fault),
                    SnapshotSpec(db, b, order, year, business, currency, id, fault), b)
  {
    InvFacts(db);
    hide Inv, Constraints, Owned, OthersSame, Finish, Project, Mirrors, Draft, Issue, SuccessOf, InvoiceLines;
    LookupsProjected(db, b, order);
    InvoiceKeysProjected(db, b, id);
    SuccessInProject(db, b, order);
    InvoiceInProject(db, b, order);
    SameMirrors(db, Winner(db, b, order), b);
    var items := InvoiceLines(db.orders[order].lines);
    DraftProjected(db, b, order, SuccessOf(db, b, order), year, business, currency, items);
    var v := Draft(db, order, SuccessOf(db, b, order), year, business, currency, items);
    DraftOwner(db, order, SuccessOf(db, b, order), year, business, currency, items);
    IssueProjected(db, b, id, v, year);
    if id !in db.invoices {
      InvoiceOwned(db, id, v, year);
      RulesAgree(db, Issue(db, id, v, year), b);
      FinishMirrors(db, Issue(db, id, v, year), [], Ok(id), fault, b);
    }
  }

  lemma DraftOwner(db: DB, order: int, paid: Option<Payment>, year: nat, business: string, currency: string,
                   items: seq<InvoiceLine>)
    requires order in db.orders
    ensures var v := Draft(db, order, paid, year, business, currency, items);
            v.biz == db.orders[order].biz && v.order == order
  {}

  /** A generation that made an invoice made it for the business asking. */
  lemma SnapshotSpecOwner(db: DB, b: int, order: int, year: nat, business: string, currency: string, id: int,
                          fault: Fault)
    requires HasOrder(db, b, order)
    ensures var o := SnapshotSpec(db, b, order, year, business, currency, id, fault);
            o.answer.Ok? && o.answer.id in o.db.invoices ==> HasInvoice(o.db, b, o.answer.id)
  {
    hide Constraints;
  }

  lemma GenerateMirrors(db: DB, b: int, order: int, year: nat, business: string, currency: string, id: int,
                        url: Option<string>, fault: Fault)
    requires Inv(db) && (id in db.invoices ==> db.invoices[id].biz == b)
    ensures Mirrors(GenerateSpec(Project(db, b), b, order, year, business, currency, id, url, fault),
                    GenerateSpec(db, b, order, year, business, currency, id, url, fault), b)
  {
    hide Inv, Refuse, Project, SnapshotSpec, AttachPdf;
    LookupsProjected(db, b, order);
    InvoiceInProject(db, b, order);
    RefuseMirrors(db, NotFound, b);
    RefuseMirrors(db, Conflict, b);
    if HasOrder(db, b, order) && InSales(db.orders[order].status) {
      var existing := FindInvoice(db.invoices, b, order);
      if existing.Some? {
        SameMirrors(db, Ok(existing.value), b);
      } else {
        SnapshotSpecMirrors(db, b, order, year, business, currency, id, fault);
        SnapshotSpecOwner(db, b, order, year, business, currency, id, fault);
        SnapshotSpecOwner(Project(db, b), b, order, year, business, currency, id, fault);
        var made := SnapshotSpec(db, b, order, year, business, currency, id, fault);
        if made.answer.Ok? && made.answer.id in made.db.invoices {
          PdfProjected(made.db, b, made.answer.id, url);
        } else if made.answer.Ok? {
          LookupsProjected(made.db, b, made.answer.id);
        }
      }
    }
  }

  lemma GetPdfMirrors(db: DB, b: int, id: int, stored: bool, url: Option<string>, fault: Fault)
    ensures Mirrors(GetPdfSpec(Project(db, b), b, id, stored, url, fault), GetPdfSpec(db, b, id, stored, url, fault), b)
  {
    hide Project, AttachPdf, Refuse, Mirrors;
    LookupsProjected(db, b, id);
    RefuseMirrors(db, NotFound, b);
    RefuseMirrors(db, StorageError, b);
    SameMirrors(db, Ok(id), b);
    if HasInvoice(db, b, id) {
      PdfProjected(db, b, id, url);
      SameMirrors(AttachPdf(db, id, url), Ok(id), b);
    }
  }

  /** The id of a new row, where taken at all, is taken by a row of the same business. Row ids come
      from database sequences that never repeat, so they meet this without checking. */
  ghost predicate OwnId(db: DB, call: Call) {
    match call
    case SaveProduct(biz, id, _, _, _, _) => id in db.products ==> db.products[id].biz == biz
    case SaveCustomer(biz, id, _, _, _, _) => id in db.customers ==> db.customers[id].biz == biz
    case CreateInventory(biz, _, _, _, id, _) => id in db.inventories ==> db.inventories[id].biz == biz
    case CreateOrder(biz, _, _, id, _) => id in db.orders ==> db.orders[id].biz == biz
    case Initiate(biz, _, _, _, _, id, _) => id in db.payments ==> db.payments[id].biz == biz
    case Generate(biz, _, _, _, id, _, _) => id in db.invoices ==> db.invoices[id].biz == biz
    case _ => true
  }

  /** A business's call does the same on its own rows alone: same answer, same events, same rows. */
  lemma StepMirrors(config: Config, db: DB, call: Call)
    requires Inv(db) && Inv(Project(db, call.biz)) && OwnId(db, call)
    ensures Mirrors(Step(config, Project(db, call.biz), call), Step(config, db, call), call.biz)
  {
    hide Inv, Project, Mirrors, Finish, Refuse, SaveProductSpec, SaveCustomerSpec, CreateInventorySpec,
         UpdateThresholdSpec, AdjustStockSpec, AdjustByProductSpec, CreateOrderSpec, TransitionSpec, InitiateSpec,
         VerifySpec, ConfirmCodSpec, GenerateSpec, GetPdfSpec;
    match call
    case SaveProduct(biz, id, name, price, deleted, fault) =>
      SaveProductMirrors(db, id, Product(biz, name, price, deleted), fault, biz);
    case SaveCustomer(biz, id, name, phone, deleted, fault) =>
      SaveCustomerMirrors(db, id, Customer(biz, name, phone, deleted), fault, biz);
    case CreateInventory(biz, product, quantity, threshold, id, fault) =>
      CreateInventoryMirrors(db, biz, product, quantity, threshold, id, fault);
    case UpdateThreshold(biz, id, threshold, fault) =>
      UpdateThresholdMirrors(db, biz, id, threshold, fault);
    case AdjustStock(biz, id, delta, kind, actor, fault) =>
      AdjustMirrors(db, biz, id, delta, kind, actor, fault);
    case AdjustByProduct(biz, product, delta, kind, actor, fault) =>
      AdjustByProductMirrors(db, biz, product, delta, kind, actor, fault);
    case CreateOrder(biz, customer, items, id, fault) =>
      CreateOrderMirrors(db, biz, customer, items, config.rate, id, fault);
    case TransitionOrder(biz, id, event, actor, fault) =>
      RefuseMirrors(db, Conflict, biz);
      TransitionMirrors(db, biz, id, event, actor, fault);
    case Initiate(biz, order, via, key, gateway, id, fault) =>
      InitiateMirrors(db, biz, order, via, key, gateway, config.currency, id, fault);
    case Verify(biz, id, answer, actor, now, fault) =>
      VerifyMirrors(db, biz, id, answer, actor, now, fault);
    case ConfirmCod(biz, id, actor, now, fault) =>
      ConfirmCodMirrors(db, biz, id, actor, now, fault);
    case Generate(biz, order, year, business, id, url, fault) =>
      GenerateMirrors(db, biz, order, year, business, config.currency, id, url, fault);
    case GetPdf(biz, id, stored, url, fault) =>
      GetPdfMirrors(db, biz, id, stored, url, fault);
  }

  // ----- a call of another business -----

  lemma FinishElsewhere(db: DB, next: DB, events: seq<Event>, answer: Answer, fault: Fault, b: int)
    requires Project(next, b) == Project(db, b)
    ensures Project(Finish(db, next, events, answer, fault).db, b) == Project(db, b)
  {
    hide Project, Constraints;
  }

  lemma ProductElsewhere(db: DB, id: int, row: Product, b: int)
    requires row.biz != b && (id in db.products ==> db.products[id].biz != b)
    ensures Project(db.(products := db.products[id := row]), b) == Project(db, b)
  {
    PutOthers(db.products, PRODUCT_OWNER, b, id, row);
  }

  lemma CustomerElsewhere(db: DB, id: int, row: Customer, b: int)
    requires row.biz != b && (id in db.customers ==> db.customers[id].biz != b)
    ensures Project(db.(customers := db.customers[id := row]), b) == Project(db, b)
  {
    PutOthers(db.customers, CUSTOMER_OWNER, b, id, row);
  }

  lemma InventoryElsewhere(db: DB, id: int, row: Inventory, b: int)
    requires row.biz != b && (id in db.inventories ==> db.inventories[id].biz != b)
    ensures Project(db.(inventories := db.inventories[id := row]), b) == Project(db, b)
  {
    PutOthers(db.inventories, INVENTORY_OWNER, b, id, row);
  }

  lemma OrderElsewhere(db: DB, id: int, row: Order, b: int)
    requires row.biz != b && (id in db.orders ==> db.orders[id].biz != b)
    ensures Project(db.(orders := db.orders[id := row]), b) == Project(db, b)
  {
    PutOthers(db.orders, ORDER_OWNER, b, id, row);
  }

  lemma PaymentElsewhere(db: DB, id: int, row: Payment, b: int)
    requires row.biz != b && (id in db.payments ==> db.payments[id].biz != b)
    ensures Project(SetPayment(db, id, row), b) == Project(db, b)
  {
    PutOthers(db.payments, PAYMENT_OWNER, b, id, row);
  }

  lemma IssueElsewhere(db: DB, id: int, v: Invoice, year: nat, b: int)
    requires v.biz != b && id !in db.invoices
    ensures Project(Issue(db, id, v, year), b) == Project(db, b)
  {
    PutOthers(db.invoices, INVOICE_OWNER, b, id, v);
    assert Project(Issue(db, id, v, year), b).counters == Project(db, b).counters;
  }

  lemma PdfElsewhere(db: DB, id: int, url: Option<string>, b: int)
    requires id in db.invoices && db.invoices[id].biz != b
    ensures Project(AttachPdf(db, id, url), b) == Project(db, b)
  {
    hide PdfKey;
    if url.Some? {
      PutOthers(db.invoices, INVOICE_OWNER, b, id, AttachPdf(db, id, url).invoices[id]);
    }
  }

  lemma MoveElsewhere(db: DB, id: int, delta: int, kind: MovementType, actor: Option<int>, b: int)
    requires id in db.inventories && db.inventories[id].biz != b
    ensures var r := Move(db, id, delta, kind, actor); r.Staged? ==> Project(r.db, b) == Project(db, b)
  {
    var r := Move(db, id, delta, kind, actor);
    if r.Staged? {
      PutOthers(db.inventories, INVENTORY_OWNER, b, id, r.db.inventories[id]);
      MovementsOfLonger(db.movements, r.db.movements[|db.movements|], b);
    }
  }

  lemma {:induction false} StageLinesElsewhere(db: DB, biz: int, lines: seq<Line>, sign: int, actor: Option<int>,
                                               b: int)
    requires biz != b
    ensures var r := StageLines(db, biz, lines, sign, actor); r.Staged? ==> Project(r.db, b) == Project(db, b)
  {
    if lines != [] {
      hide Project, Move;
      var line, shorter := lines[|lines| - 1], lines[..|lines| - 1];
      StageLinesElsewhere(db, biz, shorter, sign, actor, b);
      var before := StageLines(db, biz, shorter, sign, actor);
      if before.Staged? {
        var found := FindInventory(before.db.inventories, biz, line.product);
        if found.Some? {
          MoveElsewhere(before.db, found.value, sign * line.quantity, MovementKind(sign), actor, b);
        }
      }
    }
  }

  lemma TransitionElsewhere(db: DB, working: DB, biz: int, id: int, event: OrderEvent, actor: Option<int>,
                            fault: Fault, b: int)
    requires biz != b && Project(working, b) == Project(db, b)
    ensures Project(TransitionSpec(db, working, biz, id, event, actor, fault).db, b) == Project(db, b)
  {
    hide Project, Finish, Rule, LifecycleEvents, StageLines;
    if HasOrder(working, biz, id) && Rule(working.orders[id].status, event).Some? {
      var order := working.orders[id];
      var rule := Rule(order.status, event).value;
      StageLinesElsewhere(working, biz, order.lines, StockSign(rule.effect), actor, b);
      StageLinesKeepsOthers(working, biz, order.lines, StockSign(rule.effect), actor);
      var staged := ApplyEffect(working, order, rule.effect, actor);
      if staged.Staged? {
        OrderElsewhere(staged.db, id, order.(status := rule.to), b);
        FinishElsewhere(db, staged.db.(orders := staged.db.orders[id := order.(status := rule.to)]),
                        staged.lows + LifecycleEvents(order, id, rule.to), Ok(id), fault, b);
      }
    }
  }

  lemma SucceedElsewhere(db: DB, id: int, reference: Option<string>, actor: Option<int>, now: int, fault: Fault, b: int)
    requires id in db.payments && db.payments[id].biz != b
    ensures Project(SucceedSpec(db, id, reference, actor, now, fault).db, b) == Project(db, b)
  {
    hide Project, TransitionSpec, Constraints;
    var p := db.payments[id];
    PaymentElsewhere(db, id, Succeeded(p, reference, now), b);
    TransitionElsewhere(db, SetPayment(db, id, Succeeded(p, reference, now)), p.biz, p.order, Pay, actor, fault, b);
  }

  lemma VerifyElsewhere(db: DB, biz: int, id: int, gateway: Option<Verification>, actor: Option<int>, now: int,
                        fault: Fault, b: int)
    requires biz != b
    ensures Project(VerifySpec(db, biz, id, gateway, actor, now, fault).db, b) == Project(db, b)
  {
    hide Project, SucceedSpec, Mismatch, Finish;
    if Eligible(db, biz, id, Online).None? && gateway.Some? {
      var p := db.payments[id];
      if gateway.value.status == GatewayPending {
        PaymentElsewhere(db, id, p.(status := Pending), b);
        FinishElsewhere(db, SetPayment(db, id, p.(status := Pending)), [], Ok(id), fault, b);
      } else if Mismatch(p, gateway.value).Some? {
        var code := Mismatch(p, gateway.value).value;
        var row := p.(status := Failed, failure := Some(code));
        PaymentElsewhere(db, id, row, b);
        FinishElsewhere(db, SetPayment(db, id, row), [PaymentFailed(p.biz, p.order, id, code)], Err(PaymentMismatch),
                        fault, b);
      } else {
        SucceedElsewhere(db, id, Some(gateway.value.gatewayPayment), actor, now, fault, b);
      }
    }
  }

  lemma ConfirmCodElsewhere(db: DB, biz: int, id: int, actor: Option<int>, now: int, fault: Fault, b: int)
    requires biz != b
    ensures Project(ConfirmCodSpec(db, biz, id, actor, now, fault).db, b) == Project(db, b)
  {
    hide Project, SucceedSpec;
    if Eligible(db, biz, id, Cod).None? {
      SucceedElsewhere(db, id, None, actor, now, fault, b);
    }
  }

  lemma InitiateElsewhere(db: DB, biz: int, order: int, via: PaymentMethod, key: Option<string>,
                          gateway: Option<string>, currency: string, id: int, fault: Fault, b: int)
    requires biz != b
    ensures Project(InitiateSpec(db, biz, order, via, key, gateway, currency, id, fault).db, b) == Project(db, b)
  {
    hide Project, Finish, Constraints, PaidFor, FindByKey;
    if HasOrder(db, biz, order) && id !in db.payments {
      var row := NewPayment(db.orders[order], order, via, key, gateway, currency);
      PaymentElsewhere(db, id, row, b);
      FinishElsewhere(db, SetPayment(db, id, row), [], Ok(id), fault, b);
    }
  }

  lemma SnapshotElsewhere(db: DB, biz: int, order: int, year: nat, business: string, currency: string, id: int,
                          fault: Fault, b: int)
    requires biz != b && HasOrder(db, biz, order)
    ensures Project(SnapshotSpec(db, biz, order, year, business, currency, id, fault).db, b) == Project(db, b)
  {
    hide Project, Finish, Constraints, Draft, Issue, SuccessOf, InvoiceLines;
    if id !in db.invoices {
      var items := InvoiceLines(db.orders[order].lines);
      var v := Draft(db, order, SuccessOf(db, biz, order), year, business, currency, items);
      DraftOwner(db, order, SuccessOf(db, biz, order), year, business, currency, items);
      IssueElsewhere(db, id, v, year, b);
      FinishElsewhere(db, Issue(db, id, v, year), [], Ok(id), fault, b);
    }
  }

  lemma GenerateElsewhere(db: DB, biz: int, order: int, year: nat, business: string, currency: string, id: int,
                          url: Option<string>, fault: Fault, b: int)
    requires biz != b
    ensures Project(GenerateSpec(db, biz, order, year, business, currency, id, url, fault).db, b) == Project(db, b)
  {
    hide Project, SnapshotSpec, AttachPdf;
    if HasOrder(db, biz, order) {
      SnapshotElsewhere(db, biz, order, year, business, currency, id, fault, b);
      SnapshotSpecOwner(db, biz, order, year, business, currency, id, fault);
      var made := SnapshotSpec(db, biz, order, year, business, currency, id, fault);
      if made.answer.Ok? && made.answer.id in made.db.invoices {
        PdfElsewhere(made.db, made.answer.id, url, b);
      }
    }
  }

  lemma StockElsewhere(db: DB, biz: int, id: int, delta: int, kind: MovementType, actor: Option<int>, fault: Fault,
                       b: int)
    requires biz != b
    ensures Project(AdjustStockSpec(db, biz, id, delta, kind, actor, fault).db, b) == Project(db, b)
  {
    hide Project, Finish, Move;
    if HasInventory(db, biz, id) {
      MoveElsewhere(db, id, delta, kind, actor, b);
      var r := Move(db, id, delta, kind, actor);
      if r.Staged? {
        FinishElsewhere(db, r.db, r.lows, Ok(id), fault, b);
      }
    }
  }

  lemma CatalogElsewhere(db: DB, biz: int, id: int, product: Product, customer: Customer, fault: Fault, b: int)
    requires biz != b && product.biz == biz && customer.biz == biz
    ensures Project(SaveProductSpec(db, biz, id, product, fault).db, b) == Project(db, b)
    ensures Project(SaveCustomerSpec(db, biz, id, customer, fault).db, b) == Project(db, b)
  {
    hide Project, Finish;
    if id in db.products ==> db.products[id].biz == biz {
      ProductElsewhere(db, id, product, b);
      FinishElsewhere(db, db.(products := db.products[id := product]), [], Ok(id), fault, b);
    }
    if id in db.customers ==> db.customers[id].biz == biz {
      CustomerElsewhere(db, id, customer, b);
      FinishElsewhere(db, db.(customers := db.customers[id := customer]), [], Ok(id), fault, b);
    }
  }

  lemma CreateInventoryElsewhere(db: DB, biz: int, product: int, quantity: int, threshold: int, id: int, fault: Fault,
                                 b: int)
    requires biz != b
    ensures Project(CreateInventorySpec(db, biz, product, quantity, threshold, id, fault).db, b) == Project(db, b)
  {
    hide Project, Finish, Constraints;
    if id !in db.inventories {
      var row := Inventory(biz, product, quantity, threshold);
      InventoryElsewhere(db, id, row, b);
      FinishElsewhere(db, db.(inventories := db.inventories[id := row]), [], Ok(id), fault, b);
    }
  }

  lemma UpdateThresholdElsewhere(db: DB, biz: int, id: int, threshold: int, fault: Fault, b: int)
    requires biz != b
    ensures Project(UpdateThresholdSpec(db, biz, id, threshold, fault).db, b) == Project(db, b)
  {
    hide Project, Finish, Constraints;
    if HasInventory(db, biz, id) {
      var row := db.inventories[id].(threshold := threshold);
      InventoryElsewhere(db, id, row, b);
      FinishElsewhere(db, db.(inventories := db.inventories[id := row]), [], Ok(id), fault, b);
    }
  }

  lemma CreateOrderElsewhere(db: DB, biz: int, customer: int, items: seq<ItemIn>, rate: real, id: int, fault: Fault,
                             b: int)
    requires biz != b
    ensures Project(CreateOrderSpec(db, biz, customer, items, rate, id, fault).db, b) == Project(db, b)
  {
    hide Project, Finish, Constraints, Snapshot, OrderTotals, PricedLines;
    var lines := Snapshot(db, biz, items);
    if lines.Some? && id !in db.orders {
      var t := OrderTotals(PricedLines(lines.value), rate);
      var order := Order(biz, customer, Created, t.tax, t.total, lines.value);
      OrderElsewhere(db, id, order, b);
      FinishElsewhere(db, db.(orders := db.orders[id := order]), [OrderCreated(biz, id, customer)], Ok(id), fault, b);
    }
  }

  /** Another business's call changes no row of this one. */
  lemma StepElsewhere(config: Config, db: DB, call: Call, b: int)
    requires call.biz != b
    ensures Project(Step(config, db, call).db, b) == Project(db, b)
  {
    hide Project, Finish, SaveProductSpec, SaveCustomerSpec, CreateInventorySpec, UpdateThresholdSpec,
         AdjustStockSpec, CreateOrderSpec, TransitionSpec, InitiateSpec, VerifySpec,
         ConfirmCodSpec, GenerateSpec, AttachPdf;
    match call
    case SaveProduct(biz, id, name, price, deleted, fault) =>
      CatalogElsewhere(db, biz, id, Product(biz, name, price, deleted), Customer(biz, name, "", deleted), fault, b);
    case SaveCustomer(biz, id, name, phone, deleted, fault) =>
      CatalogElsewhere(db, biz, id, Product(biz, name, 0, deleted), Customer(biz, name, phone, deleted), fault, b);
    case CreateInventory(biz, product, quantity, threshold, id, fault) =>
      CreateInventoryElsewhere(db, biz, product, quantity, threshold, id, fault, b);
    case UpdateThreshold(biz, id, threshold, fault) =>
      UpdateThresholdElsewhere(db, biz, id, threshold, fault, b);
    case AdjustStock(biz, id, delta, kind, actor, fault) =>
      StockElsewhere(db, biz, id, delta, kind, actor, fault, b);
    case AdjustByProduct(biz, product, delta, kind, actor, fault) =>
      var found := FindInventory(db.inventories, biz, product);
      if found.Some? {
        StockElsewhere(db, biz, found.value, delta, kind, actor, fault, b);
      }
    case CreateOrder(biz, customer, items, id, fault) =>
      CreateOrderElsewhere(db, biz, customer, items, config.rate, id, fault, b);
    case TransitionOrder(biz, id, event, actor, fault) =>
      TransitionElsewhere(db, db, biz, id, event, actor, fault, b);
    case Initiate(biz, order, via, key, gateway, id, fault) =>
      InitiateElsewhere(db, biz, order, via, key, gateway, config.currency, id, fault, b);
    case Verify(biz, id, answer, actor, now, fault) =>
      VerifyElsewhere(db, biz, id, answer, actor, now, fault, b);
    case ConfirmCod(biz, id, actor, now, fault) =>
      ConfirmCodElsewhere(db, biz, id, actor, now, fault, b);
    case Generate(biz, order, year, business, id, url, fault) =>
      GenerateElsewhere(db, biz, order, year, business, config.currency, id, url, fault, b);
    case GetPdf(biz, id, stored, url, fault) =>
      if HasInvoice(db, biz, id) {
        PdfElsewhere(db, id, url, b);
      }
  }

  // ----- runs -----

  ghost predicate IdsApart(config: Config, calls: seq<Call>) {
    calls == []
    || (var earlier := calls[..|calls| - 1];
        IdsApart(config, earlier) && OwnId(Run(config, earlier).db, calls[|calls| - 1]))
  }

  /** What a run answered to the calls of one business. */
  ghost function AnswersTo(config: Config, calls: seq<Call>, b: int): seq<Answer> {
    if calls == [] then []
    else
      var earlier, last := calls[..|calls| - 1], calls[|calls| - 1];
      AnswersTo(config, earlier, b)
        + (if last.biz == b then [Step(config, Run(config, earlier).db, last).answer] else [])
  }

  lemma {:induction false} CallsOfOwn(calls: seq<Call>, b: int)
    ensures forall c | c in CallsOf(calls, b) :: c.biz == b
  {
    if calls != [] {
      CallsOfOwn(calls[..|calls| - 1], b);
    }
  }

  lemma RunLonger(config: Config, calls: seq<Call>, call: Call)
    ensures var before := Run(config, calls);
            var o := Step(config, before.db, call);
            Run(config, calls + [call]) == Trace(o.db, before.log + o.events)
    ensures AnswersTo(config, calls + [call], call.biz)
         == AnswersTo(config, calls, call.biz) + [Step(config, Run(config, calls).db, call).answer]
  {
    assert (calls + [call])[..|calls|] == calls;
    hide Step;
  }

  /** How one more call keeps a run and the business's own run together. */
  lemma LastApart(config: Config, db: DB, log: seq<Event>, call: Call, b: int)
    requires Inv(db) && Inv(Project(db, call.biz)) && OwnId(db, call)
    ensures var o := Step(config, db, call);
            var alone := Step(config, Project(db, b), call);
            && EventsOf(log + o.events, b) == EventsOf(log, b) + (if call.biz == b then alone.events else [])
            && Project(o.db, b) == (if call.biz == b then alone.db else Project(db, b))
            && (call.biz == b ==> alone.answer == o.answer)
  {
    hide Step, Project, Inv, OwnId;
    var o := Step(config, db, call);
    StepMirrors(config, db, call);
    EventsOfConcat(log, o.events, b);
    if call.biz == b {
      EventsAllOf(o.events, b);
    } else {
      StepElsewhere(config, db, call, b);
      EventsNoneOf(o.events, b);
    }
  }

  lemma RunLast(config: Config, calls: seq<Call>, b: int)
    requires calls != [] && IdsApart(config, calls)
    ensures var earlier, last := calls[..|calls| - 1], calls[|calls| - 1];
            var before := Run(config, earlier);
            var o := Step(config, before.db, last);
            && IdsApart(config, earlier) && OwnId(before.db, last)
            && Run(config, calls) == Trace(o.db, before.log + o.events)
            && CallsOf(calls, b) == CallsOf(earlier, b) + (if last.biz == b then [last] else [])
            && AnswersTo(config, calls, b) == AnswersTo(config, earlier, b) + (if last.biz == b then [o.answer] else [])
  {
    hide Step, OwnId;
  }

  ghost predicate Apart(config: Config, calls: seq<Call>, b: int) {
    && Run(config, CallsOf(calls, b)).db == Project(Run(config, calls).db, b)
    && Run(config, CallsOf(calls, b)).log == EventsOf(Run(config, calls).log, b)
    && AnswersTo(config, CallsOf(calls, b), b) == AnswersTo(config, calls, b)
  }

  lemma ApartDatabases(config: Config, calls: seq<Call>, b: int)
    requires Apart(config, calls, b)
    ensures Inv(Run(config, calls).db) && Inv(Project(Run(config, calls).db, b))
  {
    hide Inv, Project, Run;
    RunKeepsInv(config, calls);
    RunKeepsInv(config, CallsOf(calls, b));
  }

  lemma OneMoreApart(config: Config, calls: seq<Call>, b: int)
    requires calls != [] && IdsApart(config, calls)
    requires Apart(config, calls[..|calls| - 1], b) && Apart(config, calls[..|calls| - 1], calls[|calls| - 1].biz)
    ensures Apart(config, calls, b)
  {
    hide Step, Project, Inv, OwnId, Run, CallsOf, AnswersTo, EventsOf, IdsApart;
    var earlier, last := calls[..|calls| - 1], calls[|calls| - 1];
    var before := Run(config, earlier);
    RunLast(config, calls, b);
    ApartDatabases(config, earlier, last.biz);
    LastApart(config, before.db, before.log, last, b);
    if last.biz == b {
      RunLonger(config, CallsOf(earlier, b), last);
    } else {
      assert CallsOf(calls, b) == CallsOf(earlier, b);
      assert AnswersTo(config, calls, b) == AnswersTo(config, earlier, b);
    }
  }

  /** Deleting every other business's calls from a run leaves one business's rows, answers and
      events exactly as they were. */
  lemma {:induction false} TenantsApart(config: Config, calls: seq<Call>, b: int)
    requires IdsApart(config, calls)
    ensures Run(config, CallsOf(calls, b)).db == Project(Run(config, calls).db, b)
    ensures Run(config, CallsOf(calls, b)).log == EventsOf(Run(config, calls).log, b)
    ensures AnswersTo(config, CallsOf(calls, b), b) == AnswersTo(config, calls, b)
  {
    if calls != [] {
      hide Step, Project, Inv, OwnId, Run, CallsOf, AnswersTo, EventsOf, IdsApart;
      var earlier, last := calls[..|calls| - 1], calls[|calls| - 1];
      RunLast(config, calls, b);
      TenantsApart(config, earlier, b);
      TenantsApart(config, earlier, last.biz);
      OneMoreApart(config, calls, b);
    }
  }
}
