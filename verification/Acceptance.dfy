/** When exactly the operations are accepted in a reachable state, and what an accepted one records. */
module Acceptance {
  import opened Options
  import opened Lifecycle
  import opened Schema
  import opened Money
  import opened Decimals
  import opened InvoiceNumbers
  import opened Inventories
  import opened Orders
  import opened Payments
  import opened Invoices
  import opened Api
  import opened Invariant

  // ----- catalog rows -----

  /** A product is saved as given, unless its id is another business's; so is a customer. */
  lemma CatalogSavedExactly(config: Config, db: DB, biz: int, id: int, name: string, price: int, phone: string,
                            deleted: bool)
    requires Inv(db)
    ensures Step(config, db, SaveProduct(biz, id, name, price, deleted, NoFault))
         == if id in db.products && db.products[id].biz != biz then Outcome(db, [], Err(NotFound))
            else Outcome(db.(products := db.products[id := Product(biz, name, price, deleted)]), [], Ok(id))
    ensures Step(config, db, SaveCustomer(biz, id, name, phone, deleted, NoFault))
         == if id in db.customers && db.customers[id].biz != biz then Outcome(db, [], Err(NotFound))
            else Outcome(db.(customers := db.customers[id := Customer(biz, name, phone, deleted)]), [], Ok(id))
  {
    InvGivesRules(db);
    hide Inv;
  }

  // ----- stock -----

  lemma NewShelfRules(db: DB, id: int, row: Inventory)
    requires Inv(db) && id !in db.inventories && IsProductOf(db, row.biz, row.product)
    requires FindInventory(db.inventories, row.biz, row.product).None?
    ensures Constraints(db.(inventories := db.inventories[id := row])) <==> row.quantity >= 0 && row.threshold >= 0
  {
    var next := db.(inventories := db.inventories[id := row]);
    forall i | i in db.inventories ensures db.inventories[i].product != row.product {
      assert IsProductOf(db, db.inventories[i].biz, db.inventories[i].product);
      assert !IsInventoryOf(db.inventories[i], row.biz, row.product);
    }
    assert next.inventories[id] == row && forall i | i in db.inventories :: next.inventories[i] == db.inventories[i];
  }

  /** A stock row is opened exactly for an active product that has none, with a quantity and a threshold
      that are not negative; the refusals come in that order. */
  lemma InventoryOpenedExactly(db: DB, biz: int, product: int, quantity: int, threshold: int, id: int)
    requires Inv(db) && id !in db.inventories
    ensures var o := CreateInventorySpec(db, biz, product, quantity, threshold, id, NoFault);
            if product !in db.products || db.products[product].biz != biz || db.products[product].deleted
            then o == Outcome(db, [], Err(NotFound))
            else if exists i | i in db.inventories ::
                      db.inventories[i].biz == biz && db.inventories[i].product == product
            then o == Outcome(db, [], Err(Conflict))
            else if quantity < 0 || threshold < 0 then o == Outcome(db, [], Err(Conflict))
            else o == Outcome(
                        db.(inventories := db.inventories[id := Inventory(biz, product, quantity, threshold)]),
                        [], Ok(id))
  {
    FoundExactly(db, biz, product);
    hide Inv, Constraints;
    if HasProduct(db, biz, product) && FindInventory(db.inventories, biz, product).None? {
      NewShelfRules(db, id, Inventory(biz, product, quantity, threshold));
    }
  }

  lemma FoundExactly(db: DB, biz: int, product: int)
    ensures FindInventory(db.inventories, biz, product).Some?
            <==> exists i | i in db.inventories ::
                   db.inventories[i].biz == biz && db.inventories[i].product == product
  {
    var found := FindInventory(db.inventories, biz, product);
    if i :| i in db.inventories && db.inventories[i].biz == biz && db.inventories[i].product == product {
      assert IsInventoryOf(db.inventories[i], biz, product);
    }
  }

  /** A threshold is set exactly on a row of the business and never to a negative number. */
  lemma ThresholdSetExactly(db: DB, biz: int, id: int, threshold: int)
    requires Inv(db)
    ensures var o := UpdateThresholdSpec(db, biz, id, threshold, NoFault);
            if threshold < 0 then o == Outcome(db, [], Err(Validation))
            else if id !in db.inventories || db.inventories[id].biz != biz then o == Outcome(db, [], Err(NotFound))
            else o == Outcome(
                        db.(inventories := db.inventories[id := db.inventories[id].(threshold := threshold)]),
                        [], Ok(id))
  {
    InvGivesRules(db);
    if HasInventory(db, biz, id) && threshold >= 0 {
      var next := db.(inventories := db.inventories[id := db.inventories[id].(threshold := threshold)]);
      assert InventoryRules(next.inventories);
    }
    hide Inv;
  }

  /** A row moved by a delta, the movement that says so, and the warning when it ends low. */
  ghost predicate MovedAndRecorded(db: DB, o: Outcome, id: int, delta: int, kind: MovementType, actor: Option<int>)
    requires id in db.inventories
  {
    var row := db.inventories[id];
    var left := row.quantity + delta;
    o == Outcome(
           db.(inventories := db.inventories[id := Inventory(row.biz, row.product, left, row.threshold)],
               movements := db.movements + [Movement(row.biz, id, row.product, delta, left, kind, actor)]),
           if left <= row.threshold then [LowStock(row.biz, row.product, left, row.threshold)] else [], Ok(id))
  }

  /** A direct adjustment is accepted exactly when the row is the business's, the delta is not zero and
      stock stays non-negative; it then moves that row alone and records one movement saying so. */
  lemma AdjustAcceptedExactly(db: DB, biz: int, id: int, delta: int, kind: MovementType, actor: Option<int>)
    requires Inv(db)
    ensures var o := AdjustStockSpec(db, biz, id, delta, kind, actor, NoFault);
            if delta == 0 then o == Outcome(db, [], Err(Validation))
            else if id !in db.inventories || db.inventories[id].biz != biz then o == Outcome(db, [], Err(NotFound))
            else if db.inventories[id].quantity + delta < 0 then o == Outcome(db, [], Err(InsufficientStock))
            else MovedAndRecorded(db, o, id, delta, kind, actor)
  {
    hide Inv, Constraints;
    if HasInventory(db, biz, id) && delta != 0 {
      MovedKeepsInv(db, id, delta, kind, actor);
      var r := Move(db, id, delta, kind, actor);
      if r.Staged? {
        InvGivesRules(r.db);
      }
    }
  }

  /** The product-keyed entry: a product without a row is refused before the delta is looked at, any other
      moves the one row it has. */
  lemma AdjustByProductExactly(db: DB, biz: int, product: int, delta: int, kind: MovementType, actor: Option<int>)
    requires Inv(db)
    ensures var o := AdjustByProductSpec(db, biz, product, delta, kind, actor, NoFault);
            && ((forall i | i in db.inventories ::
                   db.inventories[i].biz != biz || db.inventories[i].product != product) ==>
                  o == Outcome(db, [], Err(NotFound)))
            && forall i | i in db.inventories && db.inventories[i].biz == biz && db.inventories[i].product == product ::
                 if delta == 0 then o == Outcome(db, [], Err(Validation))
                 else if db.inventories[i].quantity + delta < 0 then o == Outcome(db, [], Err(InsufficientStock))
                 else MovedAndRecorded(db, o, i, delta, kind, actor)
  {
    FoundExactly(db, biz, product);
    InvGivesRules(db);
    RulesGiveOneRow(db);
    hide Inv, Constraints, AdjustStockSpec, MovedAndRecorded;
    var found := FindInventory(db.inventories, biz, product);
    if found.Some? {
      AdjustAcceptedExactly(db, biz, found.value, delta, kind, actor);
    }
    forall i | i in db.inventories && db.inventories[i].biz == biz && db.inventories[i].product == product
      ensures found == Some(i)
    {
      InventoryFound(db.inventories, biz, product, i);
    }
  }

  // ----- orders -----

  /** What the order keeps of the catalog: one line per requested item, with the product's name and
      price of that moment. */
  lemma {:induction false} SnapshotLines(db: DB, biz: int, items: seq<ItemIn>)
    ensures var r := Snapshot(db, biz, items);
            && (r.Some? <==> forall i | i in items :: HasProduct(db, biz, i.product))
            && (r.Some? ==>
                  && |r.value| == |items|
                  && forall k | 0 <= k < |items| ::
                       r.value[k] == Line(items[k].product, db.products[items[k].product].name,
                                          db.products[items[k].product].price, items[k].quantity))
  {
    if items != [] {
      var n := |items| - 1;
      SnapshotLines(db, biz, items[..n]);
      assert forall i | i in items :: i == items[n] || i in items[..n];
      assert items[n] in items && forall i | i in items[..n] :: i in items;
    }
  }

  lemma LinesPositive(items: seq<ItemIn>, lines: seq<Line>)
    requires |lines| == |items| && forall k | 0 <= k < |items| :: lines[k].quantity == items[k].quantity
    requires forall i | i in items :: i.quantity > 0
    ensures PositiveQuantities(lines)
  {
    forall l | l in lines ensures l.quantity > 0 {
      var k :| 0 <= k < |lines| && lines[k] == l;
      assert items[k] in items;
    }
  }

  lemma NewOrderRules(db: DB, id: int, order: Order)
    requires Constraints(db) && id !in db.orders && PositiveQuantities(order.lines)
    ensures Constraints(db.(orders := db.orders[id := order]))
  {}

  /** An order is accepted exactly when its customer and every product are active rows of the
      business; its total is the value of its lines plus the tax on it, rounded once. */
  lemma OrderAcceptedExactly(db: DB, biz: int, customer: int, items: seq<ItemIn>, rate: real, id: int)
    requires Inv(db) && id !in db.orders && forall i | i in items :: i.quantity > 0
    ensures var o := CreateOrderSpec(db, biz, customer, items, rate, id, NoFault);
            if customer !in db.customers || db.customers[customer].biz != biz || db.customers[customer].deleted
            then o == Outcome(db, [], Err(NotFound))
            else if exists i | i in items ::
                      i.product !in db.products || db.products[i.product].biz != biz || db.products[i.product].deleted
            then o == Outcome(db, [], Err(Validation))
            else
              && id in o.db.orders
              && o.db == db.(orders := db.orders[id := o.db.orders[id]])
              && o.events == [OrderCreated(biz, id, customer)] && o.answer == Ok(id)
              && var order := o.db.orders[id];
              && order.biz == biz && order.customer == customer && order.status == Created
              && |order.lines| == |items|
              && (forall k | 0 <= k < |items| ::
                    order.lines[k] == Line(items[k].product, db.products[items[k].product].name,
                                           db.products[items[k].product].price, items[k].quantity))
              && NearestAwayFromZero(Times(LinesValue(order.lines) as real, rate), order.tax)
              && order.total == LinesValue(order.lines) + order.tax
  {
    InvGivesRules(db);
    SnapshotLines(db, biz, items);
    hide Inv, Constraints, Share, Snapshot, Goods, NearestAwayFromZero, Times, LinesValue;
    var lines := Snapshot(db, biz, items);
    if lines.Some? {
      LinesPositive(items, lines.value);
      GoodsOfLines(lines.value);
      var t := OrderTotals(PricedLines(lines.value), rate);
      ShareIsNearest(LinesValue(lines.value), LinesValue(lines.value) as real, rate);
      NewOrderRules(db, id, Order(biz, customer, Created, t.tax, t.total, lines.value));
    }
  }

  /** The status of one order changes and nothing else, with these events. */
  ghost predicate MovesOn(db: DB, o: Outcome, id: int, to: OrderStatus, events: seq<Event>)
    requires id in db.orders
  {
    o == Outcome(db.(orders := db.orders[id := db.orders[id].(status := to)]), events, Ok(id))
  }

  /** Every transition that leaves stock alone, and every refusal of one. Only a cancellation among them is
      announced. */
  lemma PlainTransitionExactly(db: DB, biz: int, id: int, event: OrderEvent, actor: Option<int>)
    requires Inv(db)
    ensures var o := TransitionSpec(db, db, biz, id, event, actor, NoFault);
            if id !in db.orders || db.orders[id].biz != biz then o == Outcome(db, [], Err(NotFound))
            else match (db.orders[id].status, event)
                 case (Created, Confirm) => true
                 case (Confirmed, Cancel) => true
                 case (Created, Cancel) =>
                   MovesOn(db, o, id, Cancelled, [OrderCancelled(biz, id, db.orders[id].customer)])
                 case (Confirmed, Pay) => MovesOn(db, o, id, Paid, [])
                 case (Paid, Pack) => MovesOn(db, o, id, Packed, [])
                 case (Packed, Ship) => MovesOn(db, o, id, Shipped, [])
                 case (Shipped, Deliver) => MovesOn(db, o, id, Delivered, [])
                 case (Delivered, Close) => MovesOn(db, o, id, Completed, [])
                 case _ => o == Outcome(db, [], Err(Conflict))
  {
    if HasOrder(db, biz, id) {
      TransitionByRule(db, biz, id, event, actor);
    }
    hide Inv, TransitionSpec;
    if !HasOrder(db, biz, id) {
      NoSuchOrder(db, biz, id, event, actor);
    }
  }

  lemma NoSuchOrder(db: DB, biz: int, id: int, event: OrderEvent, actor: Option<int>)
    requires !HasOrder(db, biz, id)
    ensures TransitionSpec(db, db, biz, id, event, actor, NoFault) == Outcome(db, [], Err(NotFound))
  {}

  lemma TransitionByRule(db: DB, biz: int, id: int, event: OrderEvent, actor: Option<int>)
    requires Inv(db) && HasOrder(db, biz, id)
    ensures var o := TransitionSpec(db, db, biz, id, event, actor, NoFault);
            match Rule(db.orders[id].status, event)
            case None => o == Outcome(db, [], Err(Conflict))
            case Some(rule) =>
              rule.effect == Unchanged ==> MovesOn(db, o, id, rule.to, LifecycleEvents(db.orders[id], id, rule.to))
  {
    InvGivesRules(db);
    hide Inv, Constraints, LifecycleEvents, Rule, StageLines;
    var rule := Rule(db.orders[id].status, event);
    if rule.Some? && rule.value.effect == Unchanged {
      StatusKeepsRules(db, id, rule.value.to);
    }
  }

  /** A client can never bring about PAY; everything else it asks for is the transition itself. */
  lemma ClientCannotPay(db: DB, biz: int, id: int, event: OrderEvent, actor: Option<int>, fault: Fault)
    ensures var o := ClientTransitionSpec(db, biz, id, event, actor, fault);
            && (event == Pay ==> o == Outcome(db, [], Err(Conflict)))
            && (event != Pay ==> o == TransitionSpec(db, db, biz, id, event, actor, fault))
            && (forall i | i in o.db.orders && o.db.orders[i].status == Paid ::
                  i in db.orders && db.orders[i].status == Paid)
  {
    if event != Pay {
      OnlyPayPays(db, biz, id, event, actor, fault);
    }
    hide TransitionSpec;
  }

  lemma OnlyPayPays(db: DB, biz: int, id: int, event: OrderEvent, actor: Option<int>, fault: Fault)
    requires event != Pay
    ensures var o := TransitionSpec(db, db, biz, id, event, actor, fault);
            forall i | i in o.db.orders && o.db.orders[i].status == Paid ::
              i in db.orders && db.orders[i].status == Paid
  {
    hide Constraints, ApplyEffect;
    if HasOrder(db, biz, id) && Rule(db.orders[id].status, event).Some? {
      EffectKeepsOrders(db, db.orders[id], Rule(db.orders[id].status, event).value.effect, actor);
    }
  }

  lemma EffectKeepsOrders(db: DB, order: Order, effect: InventoryEffect, actor: Option<int>)
    ensures var r := ApplyEffect(db, order, effect, actor); r.Staged? ==> r.db.orders == db.orders
  {
    hide StageLines;
    StageLinesKeepsOthers(db, order.biz, order.lines, StockSign(effect), actor);
  }

  // ----- opening an attempt -----

  lemma NewAttemptRules(db: DB, id: int, p: Payment)
    requires Constraints(db) && id !in db.payments
    requires p.status != Success && p.gatewayPayment.None?
    requires p.key.Some? ==> FindByKey(db.payments, p.biz, p.key.value).None?
    ensures Constraints(SetPayment(db, id, p)) <==> p.amount > 0
  {
    var next := SetPayment(db, id, p);
    forall i, j | i in next.payments && j in next.payments && i != j
      ensures !PaymentsClash(next.payments[i], next.payments[j])
    {
      if i in db.payments && j in db.payments {
        assert !PaymentsClash(db.payments[i], db.payments[j]);
      } else if p.key.Some? {
        assert i in db.payments ==> !KeyedBy(db.payments[i], p.biz, p.key.value);
        assert j in db.payments ==> !KeyedBy(db.payments[j], p.biz, p.key.value);
      }
    }
    assert PaymentRules(next.payments) <==> p.amount > 0 by {
      assert forall i | i in db.payments :: next.payments[i] == db.payments[i];
      assert next.payments[id] == p;
    }
  }

  /** A new attempt is opened exactly when the order awaits payment, has a positive total and, for an
      online payment, the gateway could be reached; a known idempotency key gets its old attempt. */
  lemma InitiateAcceptedExactly(db: DB, biz: int, order: int, via: PaymentMethod, key: Option<string>,
                                gateway: Option<string>, currency: string, id: int)
    requires Inv(db) && id !in db.payments
    ensures var o := InitiateSpec(db, biz, order, via, key, gateway, currency, id, NoFault);
            if order !in db.orders || db.orders[order].biz != biz then o == Outcome(db, [], Err(NotFound))
            else if db.orders[order].status != Confirmed then o == Outcome(db, [], Err(PaymentState))
            else
              && (forall i | i in db.payments && db.payments[i].biz == biz && key.Some? && db.payments[i].key == key ::
                    o == Outcome(db, [], Ok(i)))
              && ((forall i | i in db.payments && db.payments[i].biz == biz ::
                     key.None? || db.payments[i].key != key) ==>
                    if via == Online && gateway.None? then o == Outcome(db, [], Err(ProviderUnavailable))
                    else if db.orders[order].total <= 0 then o == Outcome(db, [], Err(Conflict))
                    else o == Outcome(
                                db.(payments := db.payments[id :=
                                  Payment(biz, order, via, db.orders[order].total, currency, Initiated,
                                          if via == Online then gateway else None, None, key, None, None)]),
                                [], Ok(id)))
  {
    InvGivesRules(db);
    assert order in db.orders ==> PaidExactly(db, order);
    assert PaymentRules(db.payments);
    hide Inv, Constraints, PaidFor, PaymentRules;
    if key.Some? {
      forall i | i in db.payments && db.payments[i].biz == biz && db.payments[i].key == key
        ensures FindByKey(db.payments, biz, key.value) == Some(i)
      {
        KeyFound(db.payments, biz, key.value, i);
      }
    }
    if order in db.orders && (key.Some? ==> FindByKey(db.payments, biz, key.value).None?) {
      var row := NewPayment(db.orders[order], order, via, key, gateway, currency);
      if row.biz == biz {
        NewAttemptRules(db, id, row);
      }
    }
  }

  // ----- paying -----

  /** No other payment of the business is backed by the gateway reference. */
  ghost predicate ReferenceFree(db: DB, id: int, reference: Option<string>)
    requires id in db.payments
  {
    reference.Some? ==>
      forall q | q in db.payments && q != id && db.payments[q].biz == db.payments[id].biz ::
        db.payments[q].gatewayPayment != reference
  }

  lemma SuccessRules(db: DB, id: int, reference: Option<string>, now: int)
    requires Constraints(db) && id in db.payments && !PaidFor(db, db.payments[id].biz, db.payments[id].order)
    requires forall q | q in db.payments && db.payments[q].order == db.payments[id].order ::
               db.payments[q].biz == db.payments[id].biz
    ensures Constraints(SetPayment(db, id, Succeeded(db.payments[id], reference, now)))
            <==> ReferenceFree(db, id, reference)
  {
    var p := db.payments[id];
    var next := SetPayment(db, id, Succeeded(p, reference, now));
    if ReferenceFree(db, id, reference) {
      forall i, j | i in next.payments && j in next.payments && i != j
        ensures !PaymentsClash(next.payments[i], next.payments[j])
      {
        assert !PaymentsClash(db.payments[i], db.payments[j]);
        assert !SucceededFor(db.payments[i], p.biz, p.order) && !SucceededFor(db.payments[j], p.biz, p.order);
      }
      assert forall i | i in next.payments :: next.payments[i].amount == db.payments[i].amount;
    } else {
      var q :| q in db.payments && q != id && db.payments[q].biz == p.biz && db.payments[q].gatewayPayment == reference;
      assert PaymentsClash(next.payments[id], next.payments[q]);
    }
  }

  /** One commit: the attempt is SUCCESS with its reference and time, its order PAID, and nothing else. */
  ghost predicate Pays(db: DB, o: Outcome, id: int, reference: Option<string>, now: int)
    requires id in db.payments && db.payments[id].order in db.orders
  {
    var p := db.payments[id];
    o == Outcome(
           db.(payments := db.payments[id :=
                 p.(status := Success, gatewayPayment := reference, verifiedAt := Some(now))],
               orders := db.orders[p.order := db.orders[p.order].(status := Paid)]),
           [PaymentSucceeded(p.biz, p.order, id)], Ok(id))
  }

  /** The attempt is FAILED for the reason given, which the event repeats, and the order waits on. */
  ghost predicate Fails(db: DB, o: Outcome, id: int, reason: string)
    requires id in db.payments
  {
    var p := db.payments[id];
    o == Outcome(db.(payments := db.payments[id := p.(status := Failed, failure := Some(reason))]),
                 [PaymentFailed(p.biz, p.order, id, reason)], Err(PaymentMismatch))
  }

  /** An attempt that passed the checks pays its order exactly when its gateway reference backs no
      other payment; otherwise nothing changes and the caller gets a payment-state error. */
  lemma PayAcceptedExactly(db: DB, id: int, reference: Option<string>, actor: Option<int>, now: int)
    requires Inv(db) && id in db.payments && Verifiable(db.payments[id].status)
    requires IsOrderOf(db, db.payments[id].biz, db.payments[id].order)
    requires db.orders[db.payments[id].order].status == Confirmed
    ensures var o := SucceedSpec(db, id, reference, actor, now, NoFault);
            if ReferenceFree(db, id, reference) then Pays(db, o, id, reference, now)
            else o == Outcome(db, [], Err(PaymentState))
  {
    var p := db.payments[id];
    InvGivesRules(db);
    assert PaidExactly(db, p.order);
    forall q | q in db.payments && db.payments[q].order == p.order ensures db.payments[q].biz == p.biz {
      AttemptFacts(db, q);
    }
    hide Inv, Constraints, PaidFor, SucceedSpec;
    SuccessRules(db, id, reference, now);
    SucceedOutcome(db, id, reference, actor, now, NoFault);
  }

  /** An online verification in every case: the refusals in their order; a pending answer is recorded; a
      success that matches the attempt's reference, amount and currency pays, if the reference is free;
      everything else fails the attempt for the first reason found and leaves the order alone. */
  lemma VerifyExactly(db: DB, biz: int, id: int, gateway: Option<Verification>, actor: Option<int>, now: int)
    requires Inv(db)
    ensures var o := VerifySpec(db, biz, id, gateway, actor, now, NoFault);
            if id !in db.payments || db.payments[id].biz != biz then o == Outcome(db, [], Err(NotFound))
            else
              var p := db.payments[id];
              if p.via != Online then o == Outcome(db, [], Err(PaymentState))
              else if p.status == Success then o == Outcome(db, [], Ok(id))
              else if p.status == Failed || p.status == Abandoned then o == Outcome(db, [], Err(PaymentState))
              else if p.order !in db.orders then false
              else if db.orders[p.order].status != Confirmed then o == Outcome(db, [], Err(PaymentState))
              else match gateway
                   case None => o == Outcome(db, [], Err(ProviderUnavailable))
                   case Some(v) =>
                     match v.status
                     case GatewayPending =>
                       o == Outcome(db.(payments := db.payments[id := p.(status := Pending)]), [], Ok(id))
                     case GatewayFailed => Fails(db, o, id, "provider_failed")
                     case GatewaySuccess =>
                       if v.gatewayOrder != (match p.gatewayOrder case None => "" case Some(r) => r)
                       then Fails(db, o, id, "reference_mismatch")
                       else if v.amount != p.amount then Fails(db, o, id, "amount_mismatch")
                       else if v.currency != p.currency then Fails(db, o, id, "currency_mismatch")
                       else if ReferenceFree(db, id, Some(v.gatewayPayment))
                       then Pays(db, o, id, Some(v.gatewayPayment), now)
                       else o == Outcome(db, [], Err(PaymentState))
  {
    if id in db.payments {
      AttemptFacts(db, id);
    }
    if id in db.payments && Verifiable(db.payments[id].status) && gateway.Some? {
      AnsweredExactly(db, biz, id, gateway.value, actor, now);
    }
    hide Inv, Constraints, SucceedSpec, ReferenceFree, FailSpec, Mismatch;
  }

  lemma AnsweredExactly(db: DB, biz: int, id: int, v: Verification, actor: Option<int>, now: int)
    requires Inv(db) && id in db.payments && Verifiable(db.payments[id].status)
    requires IsOrderOf(db, db.payments[id].biz, db.payments[id].order)
    ensures var p := db.payments[id];
            Eligible(db, biz, id, Online).None? ==>
              var o := VerifySpec(db, biz, id, Some(v), actor, now, NoFault);
              match v.status
              case GatewayPending => o == Outcome(db.(payments := db.payments[id := p.(status := Pending)]), [], Ok(id))
              case GatewayFailed => Fails(db, o, id, "provider_failed")
              case GatewaySuccess =>
                if v.gatewayOrder != (match p.gatewayOrder case None => "" case Some(r) => r)
                then Fails(db, o, id, "reference_mismatch")
                else if v.amount != p.amount then Fails(db, o, id, "amount_mismatch")
                else if v.currency != p.currency then Fails(db, o, id, "currency_mismatch")
                else if ReferenceFree(db, id, Some(v.gatewayPayment))
                then Pays(db, o, id, Some(v.gatewayPayment), now)
                else o == Outcome(db, [], Err(PaymentState))
  {
    var p := db.payments[id];
    OpenAttemptRules(db, id, p.(status := Pending));
    hide Inv, Constraints, SucceedSpec, Pays, ReferenceFree;
    if Eligible(db, biz, id, Online).None? && v.status != GatewayPending {
      if Mismatch(p, v).None? {
        PayAcceptedExactly(db, id, Some(v.gatewayPayment), actor, now);
      } else {
        OpenAttemptRules(db, id, p.(status := Failed, failure := Mismatch(p, v)));
      }
    }
  }

  /** A cash confirmation in every case: it acts on an open COD attempt of an order awaiting payment and on
      nothing else, needs no gateway and leaves no reference. */
  lemma ConfirmCodExactly(db: DB, biz: int, id: int, actor: Option<int>, now: int)
    requires Inv(db)
    ensures var o := ConfirmCodSpec(db, biz, id, actor, now, NoFault);
            if id !in db.payments || db.payments[id].biz != biz then o == Outcome(db, [], Err(NotFound))
            else
              var p := db.payments[id];
              if p.via != Cod then o == Outcome(db, [], Err(PaymentState))
              else if p.status == Success then o == Outcome(db, [], Ok(id))
              else if p.status == Failed || p.status == Abandoned then o == Outcome(db, [], Err(PaymentState))
              else if p.order !in db.orders then false
              else if db.orders[p.order].status != Confirmed then o == Outcome(db, [], Err(PaymentState))
              else Pays(db, o, id, None, now)
  {
    hide Constraints, SucceedSpec, Pays;
    if id in db.payments {
      AttemptFacts(db, id);
    }
    hide Inv;
    if Eligible(db, biz, id, Cod).None? {
      PayAcceptedExactly(db, id, None, actor, now);
    }
  }

  /** Writing a status other than SUCCESS to an attempt breaks no index. */
  lemma OpenAttemptRules(db: DB, id: int, p: Payment)
    requires Inv(db) && id in db.payments && p.status != Success
    requires p == db.payments[id].(status := p.status, failure := p.failure)
    ensures Constraints(SetPayment(db, id, p))
  {
    var next := SetPayment(db, id, p);
    forall i, j | i in next.payments && j in next.payments && i != j
      ensures !PaymentsClash(next.payments[i], next.payments[j])
    {
      assert !PaymentsClash(db.payments[i], db.payments[j]);
    }
    assert forall i | i in next.payments :: next.payments[i].amount == db.payments[i].amount;
  }

  // ----- invoicing -----

  lemma FreshInvoiceClashesNot(db: DB, v: Invoice, w: int, sequence: nat)
    requires Inv(db) && w in db.invoices && IsOrderOf(db, v.biz, v.order)
    requires FindInvoice(db.invoices, v.biz, v.order).None?
    requires v.number == InvoiceNumber(v.year, sequence) && sequence == NextSequence(db.counters, v.biz, v.year)
    ensures !InvoicesClash(v, db.invoices[w]) && !InvoicesClash(db.invoices[w], v)
  {
    var other := db.invoices[w];
    assert Faithful(db, other) && IsOrderOf(db, other.biz, other.order);
    assert !InvoiceFor(other, v.biz, v.order);
    hide Inv, Faithful, Parse, InvoiceNumber;
    ParseRoundTrip(v.year, sequence);
    FaithfulNumber(db, other);
  }

  lemma FaithfulNumber(db: DB, v: Invoice)
    requires Faithful(db, v)
    ensures Numbered(db, v)
  {}

  lemma IssueRules(db: DB, id: int, v: Invoice, year: nat)
    requires Constraints(db) && id !in db.invoices && v.total >= 0
    requires forall x | x in v.items :: x.line.quantity > 0
    requires forall w | w in db.invoices :: !InvoicesClash(v, db.invoices[w]) && !InvoicesClash(db.invoices[w], v)
    ensures Constraints(Issue(db, id, v, year))
  {
    var next := Issue(db, id, v, year);
    forall i, j | i in next.invoices && j in next.invoices && i != j
      ensures !InvoicesClash(next.invoices[i], next.invoices[j])
    {
      assert i in db.invoices && j in db.invoices ==> !InvoicesClash(db.invoices[i], db.invoices[j]);
    }
    forall i | i in next.invoices
      ensures next.invoices[i].total >= 0 && forall x | x in next.invoices[i].items :: x.line.quantity > 0
    {
      assert i in db.invoices ==> db.invoices[i].total >= 0;
    }
  }

  lemma SoldOrderFacts(db: DB, order: int)
    requires Inv(db) && order in db.orders && InSales(db.orders[order].status)
    ensures db.orders[order].total > 0 && PositiveQuantities(db.orders[order].lines)
  {
    assert PaidExactly(db, order);
    var p :| p in db.payments && SucceededFor(db.payments[p], db.orders[order].biz, order);
    AttemptFacts(db, p);
  }

  /** The database accepts the first invoice of every paid order: neither the number nor anything else
      in it can make the insert fail. */
  lemma PaidOrdersGetInvoices(db: DB, biz: int, order: int, year: nat, business: string, currency: string, id: int)
    requires Inv(db) && HasOrder(db, biz, order) && InSales(db.orders[order].status)
    requires FindInvoice(db.invoices, biz, order).None? && id !in db.invoices
    ensures var v := Draft(db, order, SuccessOf(db, biz, order), year, business, currency,
                           InvoiceLines(db.orders[order].lines));
            Constraints(Issue(db, id, v, year))
  {
    var v := Draft(db, order, SuccessOf(db, biz, order), year, business, currency,
                   InvoiceLines(db.orders[order].lines));
    InvGivesRules(db);
    SoldOrderFacts(db, order);
    assert IsOrderOf(db, v.biz, v.order);
    assert forall x | x in v.items :: x.line in db.orders[order].lines;
    hide Inv, Constraints;
    forall w | w in db.invoices ensures !InvoicesClash(v, db.invoices[w]) && !InvoicesClash(db.invoices[w], v) {
      FreshInvoiceClashesNot(db, v, w, NextSequence(db.counters, biz, year));
    }
    IssueRules(db, id, v, year);
  }

  /** The invoice shows the order, its customer (also a deleted one), the business and the successful
      payment as they are at issuance. */
  ghost predicate Snapshotted(db: DB, biz: int, order: int, year: nat, business: string, v: Invoice)
    requires order in db.orders
  {
    var o := db.orders[order];
    var known := o.customer in db.customers && db.customers[o.customer].biz == biz;
    var n: nat := if (biz, year) in db.counters then db.counters[(biz, year)] + 1 else 1;
    && (exists p | p in db.payments && db.payments[p].biz == biz && db.payments[p].order == order ::
          && db.payments[p].status == Success
          && v == Invoice(biz, order, InvoiceNumber(year, n), year, db.payments[p].currency,
                          o.total - o.tax, o.tax, o.total,
                          if known then db.customers[o.customer].name else "",
                          if known then db.customers[o.customer].phone else "",
                          business, Some(db.payments[p].via), db.payments[p].gatewayPayment, v.items, v.pdf))
    && |v.items| == |o.lines|
    && forall k | 0 <= k < |o.lines| :: v.items[k] == InvoiceLine(o.lines[k], o.lines[k].price * o.lines[k].quantity)
  }

  /** The one row that is new, its document if it has one, and its counter. */
  ghost predicate Issued(db: DB, next: DB, biz: int, order: int, year: nat, business: string, id: int,
                         url: Option<string>)
    requires order in db.orders
  {
    && id in next.invoices
    && next == db.(invoices := db.invoices[id := next.invoices[id]],
                   counters := db.counters[(biz, year) := if (biz, year) in db.counters
                                                          then db.counters[(biz, year)] + 1 else 1])
    && Snapshotted(db, biz, order, year, business, next.invoices[id])
    && next.invoices[id].pdf == match url
                                case None => None
                                case Some(place) =>
                                  Some(Pdf("invoices/" + Text(biz) + "/" + Text(id) + "/invoice.pdf", place))
  }

  lemma DraftSnapshotted(db: DB, biz: int, order: int, year: nat, business: string, currency: string)
    requires Inv(db) && HasOrder(db, biz, order) && InSales(db.orders[order].status)
    ensures var v := Draft(db, order, SuccessOf(db, biz, order), year, business, currency,
                           InvoiceLines(db.orders[order].lines));
            Snapshotted(db, biz, order, year, business, v) && v.biz == biz && v.pdf == None
  {
    assert PaidExactly(db, order);
    hide Inv, InvoiceNumber;
    var found := FindSuccess(db.payments, biz, order);
    assert found.Some? && SucceededFor(db.payments[found.value], biz, order);
  }

  lemma DraftIssued(db: DB, biz: int, order: int, year: nat, business: string, v: Invoice, id: int,
                    url: Option<string>)
    requires order in db.orders && Snapshotted(db, biz, order, year, business, v) && v.biz == biz && v.pdf == None
    ensures var next := Issue(db, id, v, year);
            && id in next.invoices && next.invoices[id] == v
            && Issued(db, AttachPdf(next, id, url), biz, order, year, business, id, url)
            && Issued(db, next, biz, order, year, business, id, None)
  {
    hide Text, InvoiceNumber;
  }

  lemma FirstSnapshot(db: DB, biz: int, order: int, year: nat, business: string, currency: string, id: int,
                      url: Option<string>, fault: Fault)
    requires Inv(db) && id !in db.invoices && HasOrder(db, biz, order) && InSales(db.orders[order].status)
    requires FindInvoice(db.invoices, biz, order).None?
    ensures var made := SnapshotSpec(db, biz, order, year, business, currency, id, fault);
            && made.events == []
            && match fault
               case AtCommit => made.db == db && made.answer == Err(DatabaseError)
               case AfterCommit =>
                 Issued(db, made.db, biz, order, year, business, id, None) && made.answer == Err(DatabaseError)
               case NoFault =>
                 && made.answer == Ok(id) && id in made.db.invoices
                 && Issued(db, AttachPdf(made.db, id, url), biz, order, year, business, id, url)
  {
    hide Inv, Constraints, Snapshotted, Issued, Issue, AttachPdf, Draft, SuccessOf;
    PaidOrdersGetInvoices(db, biz, order, year, business, currency, id);
    DraftSnapshotted(db, biz, order, year, business, currency);
    var v := Draft(db, order, SuccessOf(db, biz, order), year, business, currency,
                   InvoiceLines(db.orders[order].lines));
    DraftIssued(db, biz, order, year, business, v, id, url);
  }

  lemma FirstGeneration(db: DB, biz: int, order: int, year: nat, business: string, currency: string, id: int,
                        url: Option<string>, fault: Fault)
    requires Inv(db) && id !in db.invoices && HasOrder(db, biz, order) && InSales(db.orders[order].status)
    requires FindInvoice(db.invoices, biz, order).None?
    ensures var o := GenerateSpec(db, biz, order, year, business, currency, id, url, fault);
            && o.events == []
            && match fault
               case AtCommit => o.db == db && o.answer == Err(DatabaseError)
               case AfterCommit =>
                 Issued(db, o.db, biz, order, year, business, id, None) && o.answer == Err(DatabaseError)
               case NoFault => Issued(db, o.db, biz, order, year, business, id, url) && o.answer == Ok(id)
  {
    hide Inv, Issued, SnapshotSpec, AttachPdf;
    FirstSnapshot(db, biz, order, year, business, currency, id, url, fault);
  }

  /** A generation in every case: an order that is not paid gets no invoice, one that has an invoice gets that
      one, and the first invoice of a paid order fails at its commit alone. */
  lemma GenerateAcceptedExactly(db: DB, biz: int, order: int, year: nat, business: string, currency: string, id: int,
                                url: Option<string>, fault: Fault)
    requires Inv(db) && id !in db.invoices
    ensures var o := GenerateSpec(db, biz, order, year, business, currency, id, url, fault);
            if order !in db.orders || db.orders[order].biz != biz then o == Outcome(db, [], Err(NotFound))
            else if db.orders[order].status in {Created, Confirmed, Cancelled} then o == Outcome(db, [], Err(Conflict))
            else
              && (forall i | i in db.invoices && db.invoices[i].biz == biz && db.invoices[i].order == order ::
                    o == Outcome(db, [], Ok(i)))
              && ((forall i | i in db.invoices && db.invoices[i].biz == biz :: db.invoices[i].order != order) ==>
                    && o.events == []
                    && match fault
                       case AtCommit => o.db == db && o.answer == Err(DatabaseError)
                       case AfterCommit =>
                         Issued(db, o.db, biz, order, year, business, id, None) && o.answer == Err(DatabaseError)
                       case NoFault =>
                         Issued(db, o.db, biz, order, year, business, id, url) && o.answer == Ok(id))
  {
    InvGivesRules(db);
    assert InvoiceRules(db.invoices);
    hide Inv, Constraints, InvoiceRules, Issued, SnapshotSpec, AttachPdf;
    if HasOrder(db, biz, order) && InSales(db.orders[order].status) {
      forall i | i in db.invoices && db.invoices[i].biz == biz && db.invoices[i].order == order
        ensures FindInvoice(db.invoices, biz, order) == Some(i)
      {
        InvoiceFound(db.invoices, biz, order, i);
      }
      if FindInvoice(db.invoices, biz, order).None? {
        FirstGeneration(db, biz, order, year, business, currency, id, url, fault);
      }
    }
  }

  /** A document is served as it is, or stored again under the invoice's own key; a commit that fails then
      costs the reference and not the answer. */
  lemma GetPdfExactly(db: DB, biz: int, id: int, stored: bool, url: Option<string>, fault: Fault)
    ensures var o := GetPdfSpec(db, biz, id, stored, url, fault);
            if id !in db.invoices || db.invoices[id].biz != biz then o == Outcome(db, [], Err(NotFound))
            else if stored && db.invoices[id].pdf.Some? then o == Outcome(db, [], Ok(id))
            else match url
                 case None => o == Outcome(db, [], Err(StorageError))
                 case Some(place) =>
                   var pdf := Some(Pdf("invoices/" + Text(biz) + "/" + Text(id) + "/invoice.pdf", place));
                   o == Outcome(if fault == AtCommit then db
                                else db.(invoices := db.invoices[id := db.invoices[id].(pdf := pdf)]), [], Ok(id))
  {}
}
