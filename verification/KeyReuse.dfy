/** What a repeated idempotency key is answered with (app/payment/service.py). */
module KeyReuse {
  import opened Options
  import opened Lifecycle
  import opened Schema
  import opened Money
  import opened Inventories
  import opened Orders
  import opened Payments
  import opened Api
  import opened Invariant
  import opened Acceptance
  import opened Stock

  /** The attempt that already holds a key, if the call brings one. */
  ghost function Holder(db: DB, biz: int, key: Option<string>): Option<int> {
    if key.None? then None else FindByKey(db.payments, biz, key.value)
  }

  /** An accepted call answers with an attempt of the order it was made for exactly when its key is new to
      the business or held by an attempt of that same order. */
  lemma AnswersForTheOrderExactly(db: DB, biz: int, order: int, via: PaymentMethod, key: Option<string>,
                                  gateway: Option<string>, currency: string, id: int, fault: Fault)
    requires Inv(db)
    requires InitiateSpec(db, biz, order, via, key, gateway, currency, id, fault).answer.Ok?
    ensures var o := InitiateSpec(db, biz, order, via, key, gateway, currency, id, fault);
            var holder := Holder(db, biz, key);
            && o.answer.id in o.db.payments
            && (o.db.payments[o.answer.id].order == order
                <==> (holder.None? || db.payments[holder.value].order == order))
  {
    hide Inv, Constraints, PaidFor;
  }

  // ----- a run in which one key is sent for two orders -----

  const CONFIG: Config := Config(0.0, "INR")

  const TEA: Line := Line(5, "Tea", 100, 1)

  const PRODUCT: Call := SaveProduct(1, 5, "Tea", 100, false, NoFault)
  const CUSTOMER: Call := SaveCustomer(1, 3, "Ann", "", false, NoFault)
  const SHELF: Call := CreateInventory(1, 5, 10, 0, 4, NoFault)
  const SHOP: seq<Call> := [PRODUCT, CUSTOMER, SHELF]

  function Order1(id: int): Call {
    CreateOrder(1, 3, [ItemIn(5, 1)], id, NoFault)
  }

  function Confirm1(id: int): Call {
    TransitionOrder(1, id, Confirm, None, NoFault)
  }

  /** Cash on delivery for an order, always under the same key. */
  function Pay1(order: int, id: int): Call {
    Initiate(1, order, Cod, Some("k"), None, id, NoFault)
  }

  const ORDERED: seq<Call> := SHOP + [Order1(11), Order1(12)]
  const CONFIRMED: seq<Call> := ORDERED + [Confirm1(11), Confirm1(12)]
  const PAYING: seq<Call> := CONFIRMED + [Pay1(11, 21)]

  lemma RunThen(calls: seq<Call>, call: Call)
    ensures Run(CONFIG, calls + [call]).db == Step(CONFIG, Run(CONFIG, calls).db, call).db
    ensures Inv(Run(CONFIG, calls).db)
  {
    assert (calls + [call])[..|calls|] == calls;
    RunKeepsInv(CONFIG, calls);
    hide Step, Inv;
  }

  const CATALOG: DB :=
    EMPTY.(products := map[5 := Product(1, "Tea", 100, false)], customers := map[3 := Customer(1, "Ann", "", false)])

  /** What each kind of call is, without the others in view. */
  lemma CallsOfTheRun(db: DB, id: int)
    ensures Step(CONFIG, db, SHELF) == CreateInventorySpec(db, 1, 5, 10, 0, 4, NoFault)
    ensures Step(CONFIG, db, Order1(id)) == CreateOrderSpec(db, 1, 3, [ItemIn(5, 1)], 0.0, id, NoFault)
    ensures Step(CONFIG, db, Confirm1(id)) == TransitionSpec(db, db, 1, id, Confirm, None, NoFault)
  {
    hide CreateInventorySpec, CreateOrderSpec, TransitionSpec;
  }

  lemma CatalogRules(products: map<int, Product>, customers: map<int, Customer>)
    ensures Constraints(EMPTY.(products := products, customers := customers))
  {}

  lemma CatalogCalls(db: DB, product: Product, customer: Customer)
    requires db == EMPTY.(products := db.products, customers := db.customers)
    requires db.products == map[] || db.customers == map[]
    ensures db.products == map[] ==>
              SaveProductSpec(db, 1, 5, product, NoFault).db == db.(products := map[5 := product])
    ensures db.customers == map[] ==>
              SaveCustomerSpec(db, 1, 3, customer, NoFault).db == db.(customers := map[3 := customer])
  {
    CatalogRules(db.products[5 := product], db.customers);
    CatalogRules(db.products, db.customers[3 := customer]);
    hide Constraints;
  }

  lemma NothingYet()
    ensures Run(CONFIG, []).db == EMPTY
  {
    hide Step;
  }

  lemma CatalogSaved()
    ensures Run(CONFIG, [PRODUCT, CUSTOMER]).db == CATALOG
  {
    hide Run, Step, SaveProductSpec, SaveCustomerSpec, Inv;
    var tea, ann := Product(1, "Tea", 100, false), Customer(1, "Ann", "", false);
    NothingYet();
    CatalogCalls(EMPTY, tea, ann);
    CatalogCalls(EMPTY.(products := map[5 := tea]), tea, ann);
    SavesOfTheRun(EMPTY, tea, ann);
    SavesOfTheRun(EMPTY.(products := map[5 := tea]), tea, ann);
    RunThen([], PRODUCT);
    RunThen([PRODUCT], CUSTOMER);
    assert [] + [PRODUCT] == [PRODUCT] && [PRODUCT] + [CUSTOMER] == [PRODUCT, CUSTOMER];
  }

  lemma SavesOfTheRun(db: DB, product: Product, customer: Customer)
    ensures product == Product(1, "Tea", 100, false) ==>
              Step(CONFIG, db, PRODUCT) == SaveProductSpec(db, 1, 5, product, NoFault)
    ensures customer == Customer(1, "Ann", "", false) ==>
              Step(CONFIG, db, CUSTOMER) == SaveCustomerSpec(db, 1, 3, customer, NoFault)
  {
    hide SaveProductSpec, SaveCustomerSpec;
  }

  lemma ShopOpened()
    ensures var db := Run(CONFIG, SHOP).db;
            && HasProduct(db, 1, 5) && db.products[5] == Product(1, "Tea", 100, false) && HasCustomer(db, 1, 3)
            && Units(db, 1, 5) == 10 && db.orders == map[] && db.payments == map[]
  {
    hide Run, Step, Inv;
    CatalogSaved();
    RunThen([PRODUCT, CUSTOMER], SHELF);
    assert [PRODUCT, CUSTOMER] + [SHELF] == SHOP;
    CallsOfTheRun(CATALOG, 0);
    InventoryOpenedExactly(CATALOG, 1, 5, 10, 0, 4);
    hide CreateInventorySpec, Constraints;
    InventoryAlone(Run(CONFIG, SHOP).db.inventories);
  }

  lemma InventoryAlone(t: map<int, Inventory>)
    requires t == map[4 := Inventory(1, 5, 10, 0)]
    ensures FindInventory(t, 1, 5) == Some(4)
  {
    assert IsInventoryOf(t[4], 1, 5);
  }

  ghost predicate Sells(db: DB, units: int) {
    && HasProduct(db, 1, 5) && db.products[5] == Product(1, "Tea", 100, false) && HasCustomer(db, 1, 3)
    && Units(db, 1, 5) == units && db.payments == map[]
  }

  ghost predicate IsTeaOrder(db: DB, id: int, status: OrderStatus) {
    && HasOrder(db, 1, id) && db.orders[id].status == status
    && db.orders[id].lines == [TEA] && db.orders[id].total == 100
  }

  lemma NoTax()
    ensures LinesValue([TEA]) == 100 && Share(100, 0.0) == 0
  {
    assert LinesValue([TEA][..0]) == 0;
  }

  lemma TeaOrdered(db: DB, id: int, units: int)
    requires Inv(db) && Sells(db, units) && id !in db.orders
    ensures var next := Step(CONFIG, db, Order1(id)).db;
            && Sells(next, units) && IsTeaOrder(next, id, Created) && next.orders == db.orders[id := next.orders[id]]
  {
    NoTax();
    hide Inv, Step, CreateOrderSpec, LinesValue, Share;
    CallsOfTheRun(db, id);
    OrderAcceptedExactly(db, 1, 3, [ItemIn(5, 1)], 0.0, id);
    var next := Step(CONFIG, db, Order1(id)).db;
    assert next.orders[id].lines == [TEA];
  }

  lemma TeaEnough(db: DB, units: int)
    requires Sells(db, units) && units >= 1
    ensures Demand([TEA], 5) == 1 && Enough(db, 1, [TEA])
  {
    assert Demand([TEA][..0], 5) == 0;
    assert forall l | l in [TEA] :: l == TEA;
  }

  lemma TeaConfirmed(db: DB, id: int, units: int)
    requires Inv(db) && Sells(db, units) && units >= 1 && IsTeaOrder(db, id, Created)
    ensures var next := Step(CONFIG, db, Confirm1(id)).db;
            && Sells(next, units - 1) && IsTeaOrder(next, id, Confirmed)
            && next.orders == db.orders[id := next.orders[id]]
  {
    hide Inv, Step, TransitionSpec, Demand, Enough, Units, Threshold, LastLow;
    CallsOfTheRun(db, id);
    TeaEnough(db, units);
    ConfirmExact(db, 1, id, None, NoFault);
  }

  lemma BothConfirmed()
    ensures var db := Run(CONFIG, CONFIRMED).db;
            Sells(db, 8) && IsTeaOrder(db, 11, Confirmed) && IsTeaOrder(db, 12, Confirmed)
  {
    hide Step, Run, Inv, Sells;
    var more := [Order1(11), Order1(12), Confirm1(11), Confirm1(12)];
    assert ORDERED == SHOP + [more[0]] + [more[1]] && CONFIRMED == ORDERED + [more[2]] + [more[3]];
    ShopSells();
    RunThen(SHOP, more[0]);
    RunThen(SHOP + [more[0]], more[1]);
    RunThen(ORDERED, more[2]);
    RunThen(ORDERED + [more[2]], more[3]);
    TeaOrdered(Run(CONFIG, SHOP).db, 11, 10);
    TeaOrdered(Run(CONFIG, SHOP + [more[0]]).db, 12, 10);
    TeaConfirmed(Run(CONFIG, ORDERED).db, 11, 10);
    TeaConfirmed(Run(CONFIG, ORDERED + [more[2]]).db, 12, 9);
  }

  lemma ShopSells()
    ensures Sells(Run(CONFIG, SHOP).db, 10) && Run(CONFIG, SHOP).db.orders == map[]
  {
    ShopOpened();
    hide Run;
  }

  /** Two confirmed orders of one business, the same key for both: the second call is answered with the
      first order's attempt, and the second order gets none. */
  lemma KeyAnswersForAnotherOrder()
    ensures var db := Run(CONFIG, PAYING).db;
            var o := Step(CONFIG, db, Pay1(12, 22));
            && IsTeaOrder(db, 11, Confirmed) && IsTeaOrder(db, 12, Confirmed)
            && o.answer == Ok(21) && o.db == db
            && 21 in db.payments && db.payments[21].order == 11
            && forall p | p in o.db.payments :: o.db.payments[p].order != 12
  {
    BothConfirmed();
    RunThen(CONFIRMED, Pay1(11, 21));
    RunThen(PAYING, Pay1(12, 22));
    hide Run, Inv;
    var before, db := Run(CONFIG, CONFIRMED).db, Run(CONFIG, PAYING).db;
    InitiateAcceptedExactly(before, 1, 11, Cod, Some("k"), None, "INR", 21);
    assert FindByKey(before.payments, 1, "k").None?;
    assert db.payments.Keys == {21} && KeyedBy(db.payments[21], 1, "k");
    InitiateAcceptedExactly(db, 1, 12, Cod, Some("k"), None, "INR", 22);
    assert FindByKey(db.payments, 1, "k") == Some(21);
  }
}
