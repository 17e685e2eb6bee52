/** Stock conservation over every run of calls. */
module Conservation {
  import opened Options
  import opened Lifecycle
  import opened Schema
  import opened MapSums
  import opened Inventories
  import opened Orders
  import opened Payments
  import opened Invoices
  import opened Api
  import opened Invariant
  import opened Acceptance
  import opened Stock

  ghost function HeldBy(biz: int, product: int): Order -> int {
    (o: Order) => if o.biz == biz && HoldsStock(o.status) then Demand(o.lines, product) else 0
  }

  /** Units of a product sitting in orders that have taken stock. */
  ghost function Held(db: DB, biz: int, product: int): int {
    Sum(db.orders, HeldBy(biz, product))
  }

  ghost function Balance(db: DB, biz: int, product: int): int {
    Units(db, biz, product) + Held(db, biz, product)
  }

  /** What an effective call puts on a product's shelf from outside the order flow: the opening
      quantity of a new row, or a direct adjustment. */
  ghost function Direct(db: DB, call: Call, biz: int, product: int): int {
    match call
    case CreateInventory(b, p, quantity, _, _, _) => if b == biz && p == product then quantity else 0
    case AdjustStock(b, id, delta, _, _, _) =>
      if id in db.inventories && IsInventoryOf(db.inventories[id], biz, product) then delta else 0
    case AdjustByProduct(b, p, delta, _, _, _) => if b == biz && p == product then delta else 0
    case _ => 0
  }

  /** The guards of a direct call, and its commit: what is checked before anything is written. */
  ghost predicate TakesEffect(db: DB, call: Call) {
    match call
    case CreateInventory(b, p, quantity, threshold, id, fault) =>
      && HasProduct(db, b, p) && FindInventory(db.inventories, b, p).None? && id !in db.inventories
      && quantity >= 0 && threshold >= 0 && fault != AtCommit
    case AdjustStock(b, id, delta, _, _, fault) =>
      && HasInventory(db, b, id) && delta != 0 && db.inventories[id].quantity + delta >= 0 && fault != AtCommit
    case AdjustByProduct(b, p, delta, _, _, fault) =>
      && FindInventory(db.inventories, b, p).Some? && delta != 0
      && Units(db, b, p) + delta >= 0 && fault != AtCommit
    case _ => false
  }

  ghost function EffectiveDirect(db: DB, call: Call, biz: int, product: int): int {
    if TakesEffect(db, call) then Direct(db, call, biz, product) else 0
  }

  ghost function DirectTotal(config: Config, calls: seq<Call>, biz: int, product: int): int {
    if calls == [] then 0
    else
      var earlier := calls[..|calls| - 1];
      DirectTotal(config, earlier, biz, product)
        + EffectiveDirect(Run(config, earlier).db, calls[|calls| - 1], biz, product)
  }

  // ----- per kind of change -----

  lemma SameStockSameBalance(a: DB, b: DB, biz: int, product: int)
    requires a.inventories == b.inventories && a.orders == b.orders
    ensures Balance(a, biz, product) == Balance(b, biz, product)
  {}

  lemma NewRowBalance(db: DB, id: int, row: Inventory, biz: int, product: int)
    requires Inv(db) && id !in db.inventories
    requires FindInventory(db.inventories, row.biz, row.product).None?
    requires OneRowPerProduct(db.inventories[id := row])
    ensures var next := db.(inventories := db.inventories[id := row]);
            Balance(next, biz, product)
            == Balance(db, biz, product) + (if IsInventoryOf(row, biz, product) then row.quantity else 0)
  {
    var next := db.(inventories := db.inventories[id := row]);
    var before := FindInventory(db.inventories, biz, product);
    if IsInventoryOf(row, biz, product) {
      InventoryFound(next.inventories, biz, product, id);
    } else if before.Some? {
      InventoryFound(next.inventories, biz, product, before.value);
    }
  }

  lemma ThresholdBalance(db: DB, id: int, threshold: int, biz: int, product: int)
    requires Inv(db) && id in db.inventories
    ensures var next := db.(inventories := db.inventories[id := db.inventories[id].(threshold := threshold)]);
            Balance(next, biz, product) == Balance(db, biz, product)
  {
    var next := db.(inventories := db.inventories[id := db.inventories[id].(threshold := threshold)]);
    LookupsAgree(db.inventories, next.inventories, biz, product);
  }

  lemma MoveBalance(db: DB, id: int, delta: int, kind: MovementType, actor: Option<int>, biz: int, product: int)
    requires Inv(db) && id in db.inventories && delta != 0
    ensures var r := Move(db, id, delta, kind, actor);
            r.Staged? ==>
              && Balance(r.db, biz, product)
                 == Balance(db, biz, product) + (if IsInventoryOf(db.inventories[id], biz, product) then delta else 0)
              && r.db != db
  {
    InvGivesStockSound(db);
    hide Inv, StockSound, Units;
    MoveUnits(db, id, delta, kind, actor, biz, product);
  }

  /** Summing over the orders after one of them changed status. */
  lemma StatusHeld(db: DB, id: int, to: OrderStatus, biz: int, product: int)
    requires id in db.orders
    ensures Held(WithStatus(db, id, to), biz, product)
         == Held(db, biz, product)
            + (if db.orders[id].biz == biz
               then (HeldUnits(to) - HeldUnits(db.orders[id].status)) * Demand(db.orders[id].lines, product) else 0)
  {
    SumPut(db.orders, HeldBy(biz, product), id, db.orders[id].(status := to));
  }

  lemma EffectSigns(status: OrderStatus, event: OrderEvent)
    ensures match Rule(status, event)
            case None => true
            case Some(rule) => HeldUnits(rule.to) - HeldUnits(status) == -StockSign(rule.effect)
  {}

  lemma EffectUnits(db: DB, order: Order, effect: InventoryEffect, actor: Option<int>, biz: int, product: int)
    requires Inv(db)
    ensures var r := ApplyEffect(db, order, effect, actor);
            r.Staged? ==>
              && Units(r.db, biz, product)
                 == Units(db, biz, product)
                    + (if order.biz == biz then StockSign(effect) * Demand(order.lines, product) else 0)
              && r.db.orders == db.orders
  {
    InvGivesStockSound(db);
    hide Inv, StockSound, Units;
    if effect != Unchanged {
      StagedUnits(db, order.biz, order.lines, StockSign(effect), actor, biz, product);
      StageLinesKeepsStockSound(db, order.biz, order.lines, StockSign(effect), actor);
    }
  }

  lemma EffectBalance(db: DB, order: Order, effect: InventoryEffect, actor: Option<int>, biz: int, product: int)
    requires Inv(db)
    ensures var r := ApplyEffect(db, order, effect, actor);
            r.Staged? ==>
              && Balance(r.db, biz, product)
                 == Balance(db, biz, product)
                    + (if order.biz == biz then StockSign(effect) * Demand(order.lines, product) else 0)
              && r.db.orders == db.orders
  {
    hide Inv, Units, Held, ApplyEffect;
    var r := ApplyEffect(db, order, effect, actor);
    EffectUnits(db, order, effect, actor, biz, product);
    if r.Staged? {
      HeldOfOrders(db, r.db, biz, product);
    }
  }

  lemma StatusBalance(db: DB, id: int, to: OrderStatus, biz: int, product: int)
    requires id in db.orders
    ensures Balance(WithStatus(db, id, to), biz, product)
         == Balance(db, biz, product)
            + (if db.orders[id].biz == biz
               then (HeldUnits(to) - HeldUnits(db.orders[id].status)) * Demand(db.orders[id].lines, product) else 0)
  {
    hide Units, Held;
    StatusHeld(db, id, to, biz, product);
    UnitsOfStock(db, WithStatus(db, id, to), biz, product);
  }

  lemma Cancels(sign: int, change: int, demand: int)
    requires change == -sign
    ensures sign * demand + change * demand == 0
  {}

  lemma TransitionBalance(db: DB, biz: int, id: int, event: OrderEvent, actor: Option<int>, fault: Fault,
                          b: int, product: int)
    requires Inv(db)
    ensures var o := TransitionSpec(db, db, biz, id, event, actor, fault);
            Balance(o.db, b, product) == Balance(db, b, product)
  {
    hide Inv, Balance, Constraints, ApplyEffect, HeldUnits, StockSign, Demand, LifecycleEvents;
    if HasOrder(db, biz, id) && Rule(db.orders[id].status, event).Some? {
      var order := db.orders[id];
      var rule := Rule(order.status, event).value;
      hide Rule;
      var staged := ApplyEffect(db, order, rule.effect, actor);
      EffectSigns(order.status, event);
      if staged.Staged? {
        EffectBalance(db, order, rule.effect, actor, b, product);
        StatusBalance(staged.db, id, rule.to, b, product);
        Cancels(StockSign(rule.effect), HeldUnits(rule.to) - HeldUnits(order.status), Demand(order.lines, product));
      }
    }
  }

  lemma HeldOfOrders(a: DB, b: DB, biz: int, product: int)
    requires a.orders == b.orders
    ensures Held(a, biz, product) == Held(b, biz, product)
  {}

  lemma NewOrderBalance(db: DB, id: int, order: Order, biz: int, product: int)
    requires id !in db.orders && order.status == Created
    ensures Balance(db.(orders := db.orders[id := order]), biz, product) == Balance(db, biz, product)
  {
    SumPut(db.orders, HeldBy(biz, product), id, order);
  }

  lemma PaidBalance(db: DB, id: int, reference: Option<string>, now: int, biz: int, product: int)
    requires id in db.payments && db.payments[id].order in db.orders
    requires db.orders[db.payments[id].order].status == Confirmed
    ensures Balance(PaidState(db, id, reference, now), biz, product) == Balance(db, biz, product)
  {
    var staged := SetPayment(db, id, Succeeded(db.payments[id], reference, now));
    StatusHeld(staged, db.payments[id].order, Paid, biz, product);
    SameStockSameBalance(db, staged, biz, product);
    UnitsOfStock(staged, PaidState(db, id, reference, now), biz, product);
  }

  lemma SucceedBalance(db: DB, id: int, reference: Option<string>, actor: Option<int>, now: int, fault: Fault,
                       biz: int, product: int)
    requires Inv(db) && id in db.payments && Verifiable(db.payments[id].status)
    requires IsOrderOf(db, db.payments[id].biz, db.payments[id].order)
    requires db.orders[db.payments[id].order].status == Confirmed
    ensures Balance(SucceedSpec(db, id, reference, actor, now, fault).db, biz, product) == Balance(db, biz, product)
  {
    hide Inv, Balance, Constraints, SucceedSpec;
    SucceedOutcome(db, id, reference, actor, now, fault);
    PaidBalance(db, id, reference, now, biz, product);
  }

  // ----- every call -----

  lemma OpeningBalance(db: DB, row: Inventory, id: int, fault: Fault, biz: int, product: int)
    requires Inv(db)
    ensures var call := CreateInventory(row.biz, row.product, row.quantity, row.threshold, id, fault);
            var o := CreateInventorySpec(db, row.biz, row.product, row.quantity, row.threshold, id, fault);
            Balance(o.db, biz, product) == Balance(db, biz, product) + EffectiveDirect(db, call, biz, product)
  {
    hide Inv, Balance, Constraints;
    if HasProduct(db, row.biz, row.product) && FindInventory(db.inventories, row.biz, row.product).None?
       && id !in db.inventories
    {
      NewShelfRules(db, id, row);
      if Constraints(db.(inventories := db.inventories[id := row])) {
        RulesGiveOneRow(db.(inventories := db.inventories[id := row]));
        NewRowBalance(db, id, row, biz, product);
      }
    }
  }

  lemma AdjustBalance(db: DB, b: int, id: int, delta: int, kind: MovementType, actor: Option<int>, fault: Fault,
                      biz: int, product: int)
    requires Inv(db)
    ensures Balance(AdjustStockSpec(db, b, id, delta, kind, actor, fault).db, biz, product)
         == Balance(db, biz, product)
            + EffectiveDirect(db, AdjustStock(b, id, delta, kind, actor, fault), biz, product)
  {
    hide Inv, Balance, Constraints;
    if HasInventory(db, b, id) && delta != 0 {
      MoveBalance(db, id, delta, kind, actor, biz, product);
      MovedKeepsInv(db, id, delta, kind, actor);
      var r := Move(db, id, delta, kind, actor);
      if r.Staged? {
        InvGivesRules(r.db);
      }
    }
  }

  lemma StockCallsBalance(config: Config, db: DB, call: Call, biz: int, product: int)
    requires Inv(db)
    requires call.CreateInventory? || call.UpdateThreshold? || call.AdjustStock? || call.AdjustByProduct?
    ensures Balance(Step(config, db, call).db, biz, product)
         == Balance(db, biz, product) + EffectiveDirect(db, call, biz, product)
  {
    hide Inv, Balance, Constraints, CreateInventorySpec, AdjustStockSpec;
    match call
    case CreateInventory(b, p, quantity, threshold, id, fault) =>
      OpeningBalance(db, Inventory(b, p, quantity, threshold), id, fault, biz, product);
    case UpdateThreshold(b, id, threshold, fault) =>
      if HasInventory(db, b, id) {
        ThresholdBalance(db, id, threshold, biz, product);
      }
    case AdjustStock(b, id, delta, kind, actor, fault) =>
      AdjustBalance(db, b, id, delta, kind, actor, fault, biz, product);
    case AdjustByProduct(b, p, delta, kind, actor, fault) =>
      var found := FindInventory(db.inventories, b, p);
      if found.Some? {
        AdjustBalance(db, b, found.value, delta, kind, actor, fault, biz, product);
      }
  }

  lemma PaymentCallsBalance(db: DB, biz: int, id: int, answer: Option<Verification>, actor: Option<int>, now: int,
                            fault: Fault, b: int, product: int)
    requires Inv(db)
    ensures Balance(VerifySpec(db, biz, id, answer, actor, now, fault).db, b, product) == Balance(db, b, product)
    ensures Balance(ConfirmCodSpec(db, biz, id, actor, now, fault).db, b, product) == Balance(db, b, product)
  {
    hide Inv, Balance, Constraints, SucceedSpec, FailSpec;
    if Eligible(db, biz, id, Online).None? && answer.Some? {
      AttemptFacts(db, id);
      SucceedBalance(db, id, Some(answer.value.gatewayPayment), actor, now, fault, b, product);
      SameStockSameBalance(db, SetPayment(db, id, db.payments[id].(status := Pending)), b, product);
      if Mismatch(db.payments[id], answer.value).Some? {
        FailBalance(db, id, Mismatch(db.payments[id], answer.value).value, fault, b, product);
      }
    }
    if Eligible(db, biz, id, Cod).None? {
      AttemptFacts(db, id);
      SucceedBalance(db, id, None, actor, now, fault, b, product);
    }
  }

  lemma FailBalance(db: DB, id: int, code: string, fault: Fault, biz: int, product: int)
    requires id in db.payments
    ensures Balance(FailSpec(db, id, code, fault).db, biz, product) == Balance(db, biz, product)
  {
    hide Balance, Constraints;
    SameStockSameBalance(db, FailSpec(db, id, code, fault).db, biz, product);
  }

  lemma CreateOrderBalance(db: DB, biz: int, customer: int, items: seq<ItemIn>, rate: real, id: int, fault: Fault,
                           b: int, product: int)
    ensures Balance(CreateOrderSpec(db, biz, customer, items, rate, id, fault).db, b, product)
         == Balance(db, b, product)
  {
    hide Balance, Constraints;
    var next := CreateOrderSpec(db, biz, customer, items, rate, id, fault).db;
    if id !in db.orders && id in next.orders {
      NewOrderBalance(db, id, next.orders[id], b, product);
    }
  }

  lemma StepConserves(config: Config, db: DB, call: Call, biz: int, product: int)
    requires Inv(db)
    ensures Balance(Step(config, db, call).db, biz, product)
         == Balance(db, biz, product) + EffectiveDirect(db, call, biz, product)
  {
    hide Inv, Balance, Constraints, TransitionSpec, VerifySpec, ConfirmCodSpec, CreateOrderSpec;
    match call
    case CreateOrder(b, customer, items, id, fault) =>
      CreateOrderBalance(db, b, customer, items, config.rate, id, fault, biz, product);
    case TransitionOrder(b, id, event, actor, fault) =>
      TransitionBalance(db, b, id, event, actor, fault, biz, product);
    case Verify(b, id, answer, actor, now, fault) =>
      PaymentCallsBalance(db, b, id, answer, actor, now, fault, biz, product);
    case ConfirmCod(b, id, actor, now, fault) =>
      PaymentCallsBalance(db, b, id, None, actor, now, fault, biz, product);
    case CreateInventory(_, _, _, _, _, _) => StockCallsBalance(config, db, call, biz, product);
    case UpdateThreshold(_, _, _, _) => StockCallsBalance(config, db, call, biz, product);
    case AdjustStock(_, _, _, _, _, _) => StockCallsBalance(config, db, call, biz, product);
    case AdjustByProduct(_, _, _, _, _, _) => StockCallsBalance(config, db, call, biz, product);
    case _ => QuietCallsBalance(config, db, call, biz, product);
  }

  lemma SnapshotKeepsStock(db: DB, biz: int, order: int, year: nat, business: string, currency: string, id: int,
                           fault: Fault)
    requires order in db.orders
    ensures var next := SnapshotSpec(db, biz, order, year, business, currency, id, fault).db;
            && next.inventories == db.inventories && next.movements == db.movements
            && next.orders == db.orders && next.payments == db.payments
  {
    hide Constraints, Draft, InvoiceLines, NextSequence, FindSuccess;
  }

  lemma GenerateKeepsStock(db: DB, biz: int, order: int, year: nat, business: string, currency: string,
                           id: int, url: Option<string>, fault: Fault)
    ensures var next := GenerateSpec(db, biz, order, year, business, currency, id, url, fault).db;
            && next.inventories == db.inventories && next.movements == db.movements
            && next.orders == db.orders && next.payments == db.payments
  {
    hide SnapshotSpec, PdfKey;
    if HasOrder(db, biz, order) {
      SnapshotKeepsStock(db, biz, order, year, business, currency, id, fault);
    }
  }

  lemma InitiateKeepsStock(db: DB, biz: int, order: int, via: PaymentMethod, key: Option<string>,
                           gateway: Option<string>, currency: string, id: int, fault: Fault)
    ensures var next := InitiateSpec(db, biz, order, via, key, gateway, currency, id, fault).db;
            next.inventories == db.inventories && next.movements == db.movements && next.orders == db.orders
  {
    hide Constraints, NewPayment, PaidFor, FindByKey;
  }

  lemma QuietCallsBalance(config: Config, db: DB, call: Call, biz: int, product: int)
    requires call.SaveProduct? || call.SaveCustomer? || call.Initiate? || call.Generate? || call.GetPdf?
    ensures Balance(Step(config, db, call).db, biz, product) == Balance(db, biz, product)
  {
    hide Balance, Constraints, GenerateSpec, InitiateSpec, PdfKey;
    if call.Generate? {
      GenerateKeepsStock(db, call.biz, call.order, call.year, call.business, config.currency, call.id, call.url,
                         call.fault);
    } else if call.Initiate? {
      InitiateKeepsStock(db, call.biz, call.order, call.via, call.key, call.gateway, config.currency, call.id,
                         call.fault);
    }
    SameStockSameBalance(db, Step(config, db, call).db, biz, product);
  }

  /** Over every run from the empty database, whatever fails on the way: for each product, units on
      the shelf plus units in orders now holding stock equal what was put in directly. */
  lemma {:induction false} RunConserves(config: Config, calls: seq<Call>, biz: int, product: int)
    ensures var db := Run(config, calls).db;
            && Units(db, biz, product) + Held(db, biz, product) == DirectTotal(config, calls, biz, product)
            && Units(db, biz, product) >= 0
  {
    RunKeepsInv(config, calls);
    InvGivesStockSound(Run(config, calls).db);
    UnitsNonNegative(Run(config, calls).db, biz, product);
    if calls == [] {
      SumZero(EMPTY.orders, HeldBy(biz, product));
    } else {
      var earlier := calls[..|calls| - 1];
      RunKeepsInv(config, earlier);
      hide Inv, Step, Units, Held;
      RunConserves(config, earlier, biz, product);
      StepConserves(config, Run(config, earlier).db, calls[|calls| - 1], biz, product);
    }
  }
}
