/** Order creation and the guarded lifecycle (app/order/service.py). */
module Orders {
  import opened Options
  import opened Lifecycle
  import opened Schema
  import opened Money
  import opened Sessions
  import opened Events
  import opened Inventories

  // ----- what each operation does to the tables -----

  datatype ItemIn = ItemIn(product: int, quantity: int)

  /** The catalog snapshot of every requested item, or none when a product is unavailable. */
  function Snapshot(db: DB, biz: int, items: seq<ItemIn>): Option<seq<Line>> {
    if items == [] then Some([])
    else
      var item := items[|items| - 1];
      match Snapshot(db, biz, items[..|items| - 1])
      case None => None
      case Some(lines) =>
        if !HasProduct(db, biz, item.product) then None
        else
          var product := db.products[item.product];
          Some(lines + [Line(item.product, product.name, product.price, item.quantity)])
  }

  function Priced(line: Line): PricedLine {
    PricedLine(line.price as real / 100.0, line.quantity)
  }

  function PricedLines(lines: seq<Line>): seq<PricedLine> {
    seq(|lines|, i requires 0 <= i < |lines| => Priced(lines[i]))
  }

  ghost function CreateOrderSpec(db: DB, biz: int, customer: int, items: seq<ItemIn>, rate: real,
                                 id: int, fault: Fault): Outcome
  {
    if !HasCustomer(db, biz, customer) then Refuse(db, NotFound)
    else match Snapshot(db, biz, items)
         case None => Refuse(db, Validation)
         case Some(lines) =>
           if id in db.orders then Refuse(db, IntegrityError)
           else
             var t := OrderTotals(PricedLines(lines), rate);
             var order := Order(biz, customer, Created, t.tax, t.total, lines);
             Finish(db, db.(orders := db.orders[id := order]), [OrderCreated(biz, id, customer)], Ok(id), fault)
  }

  function MovementKind(sign: int): MovementType {
    if sign < 0 then Sale else Restock
  }

  /** `_apply_inventory`: one staged movement per line, in line order; the first refusal stops it. */
  ghost function StageLines(db: DB, biz: int, lines: seq<Line>, sign: int, actor: Option<int>): Staged {
    if lines == [] then Staged(db, [])
    else
      var line := lines[|lines| - 1];
      match StageLines(db, biz, lines[..|lines| - 1], sign, actor)
      case Refused(error) => Refused(error)
      case Staged(mid, lows) =>
        match Stage(mid, biz, line.product, sign * line.quantity, MovementKind(sign), actor)
        case Refused(error) => Refused(error)
        case Staged(next, more) => Staged(next, lows + more)
  }

  lemma {:induction false} RefusalPersists(db: DB, biz: int, lines: seq<Line>, n: nat, sign: int,
                                           actor: Option<int>)
    requires n <= |lines| && StageLines(db, biz, lines[..n], sign, actor).Refused?
    ensures StageLines(db, biz, lines, sign, actor) == StageLines(db, biz, lines[..n], sign, actor)
    decreases |lines|
  {
    if n < |lines| {
      var shorter := lines[..|lines| - 1];
      assert shorter[..n] == lines[..n];
      RefusalPersists(db, biz, shorter, n, sign, actor);
    } else {
      assert lines[..n] == lines;
    }
  }

  ghost function ApplyEffect(db: DB, order: Order, effect: InventoryEffect, actor: Option<int>): Staged {
    if effect == Unchanged then Staged(db, [])
    else StageLines(db, order.biz, order.lines, StockSign(effect), actor)
  }

  /** `_publish_lifecycle` */
  function LifecycleEvents(order: Order, id: int, to: OrderStatus): seq<Event> {
    match to
    case Confirmed => [OrderConfirmed(order.biz, id, order.customer)]
    case Cancelled => [OrderCancelled(order.biz, id, order.customer)]
    case _ => []
  }

  /** `transition`, on a session that may already carry staged rows of its caller. */
  ghost function TransitionSpec(committed: DB, working: DB, biz: int, id: int, event: OrderEvent,
                                actor: Option<int>, fault: Fault): Outcome
  {
    if !HasOrder(working, biz, id) then Refuse(committed, NotFound)
    else
      var order := working.orders[id];
      match Rule(order.status, event)
      case None => Refuse(committed, Conflict)
      case Some(rule) =>
        match ApplyEffect(working, order, rule.effect, actor)
        case Refused(error) => Refuse(committed, error)
        case Staged(mid, lows) =>
          Finish(committed, mid.(orders := mid.orders[id := order.(status := rule.to)]),
                 lows + LifecycleEvents(order, id, rule.to), Ok(id), fault)
  }

  /** The HTTP surface refuses PAY; only the payment service reaches it (app/order/router.py). */
  ghost function ClientTransitionSpec(db: DB, biz: int, id: int, event: OrderEvent, actor: Option<int>,
                                      fault: Fault): Outcome
  {
    if event == Pay then Refuse(db, Conflict) else TransitionSpec(db, db, biz, id, event, actor, fault)
  }

  lemma {:induction false} StageLinesKeepsOthers(db: DB, biz: int, lines: seq<Line>, sign: int, actor: Option<int>)
    ensures var r := StageLines(db, biz, lines, sign, actor);
            r.Staged? ==>
              && r.db == db.(inventories := r.db.inventories, movements := r.db.movements)
              && r.db.inventories.Keys == db.inventories.Keys
              && (forall i | i in db.inventories ::
                    r.db.inventories[i] == db.inventories[i].(quantity := r.db.inventories[i].quantity))
              && (OneRowPerProduct(db.inventories) ==> OneRowPerProduct(r.db.inventories))
  {
    if lines != [] {
      StageLinesKeepsOthers(db, biz, lines[..|lines| - 1], sign, actor);
    }
  }

  // ----- the service -----

  class OrderService {
    const session: Session
    const bus: EventBus
    const inventory: InventoryService
    const rate: real

    constructor (session: Session, bus: EventBus, inventory: InventoryService, rate: real)
      ensures this.session == session && this.bus == bus && this.inventory == inventory && this.rate == rate
    {
      this.session, this.bus, this.inventory, this.rate := session, bus, inventory, rate;
    }

    method CreateOrder(biz: int, customer: int, items: seq<ItemIn>, id: int, fault: Fault) returns (answer: Answer)
      requires session.Clean()
      modifies session, bus
      ensures session.Clean()
      ensures var spec := CreateOrderSpec(old(session.committed), biz, customer, items, rate, id, fault);
              && session.committed == spec.db && answer == spec.answer
              && bus.published == old(bus.published) + spec.events
    {
      if !HasCustomer(session.working, biz, customer) {
        return Err(NotFound);
      }
      var lines, priced := [], [];
      for i := 0 to |items|
        invariant Snapshot(session.working, biz, items[..i]) == Some(lines)
        invariant priced == PricedLines(lines)
      {
        var item := items[i];
        assert items[..i + 1][..i] == items[..i];
        if !HasProduct(session.working, biz, item.product) {
          SnapshotRefused(session.working, biz, items, i + 1);
          return Err(Validation);
        }
        var product := session.working.products[item.product];
        var line := Line(item.product, product.name, product.price, item.quantity);
        lines := lines + [line];
        priced := priced + [Priced(line)];
      }
      assert items[..|items|] == items;
      var totals := ComputeOrderTotals(priced, rate);
      if id in session.working.orders {
        session.Rollback();
        return Err(IntegrityError);
      }
      session.working := session.working.(
        orders := session.working.orders[id := Order(biz, customer, Created, totals.tax, totals.total, lines)]);
      var error := session.Commit(fault);
      if error.Some? {
        session.Rollback();
        return Err(error.value);
      }
      var ok := session.Refresh(fault);
      if !ok {
        return Err(DatabaseError);
      }
      bus.Publish(OrderCreated(biz, id, customer));
      answer := Ok(id);
    }

    /** `_apply_inventory`: stages every line; on a refusal the session keeps whatever was staged
        so far, for the caller to roll back. */
    method ApplyInventory(biz: int, lines: seq<Line>, sign: int, actor: Option<int>) returns (r: StageResult)
      requires session.Valid() && inventory.session == session
      modifies session`working
      ensures session.Valid()
      ensures match StageLines(old(session.working), biz, lines, sign, actor)
              case Refused(error) => r == StageError(error)
              case Staged(next, lows) => r == StagedLow(lows) && session.working == next
    {
      var lows := [];
      for i := 0 to |lines|
        invariant session.Valid()
        invariant StageLines(old(session.working), biz, lines[..i], sign, actor) == Staged(session.working, lows)
      {
        assert lines[..i + 1][..i] == lines[..i];
        var staged := inventory.StageAdjustment(biz, lines[i].product, sign * lines[i].quantity, MovementKind(sign),
                                                actor);
        if staged.StageError? {
          RefusalPersists(old(session.working), biz, lines, i + 1, sign, actor);
          return staged;
        }
        lows := lows + staged.low;
      }
      assert lines[..|lines|] == lines;
      r := StagedLow(lows);
    }

    method Transition(biz: int, id: int, event: OrderEvent, actor: Option<int>, fault: Fault) returns (answer: Answer)
      requires session.Valid() && inventory.session == session
      modifies session, bus
      ensures session.Valid()
      ensures var spec := TransitionSpec(old(session.committed), old(session.working), biz, id, event, actor, fault);
              && session.committed == spec.db && answer == spec.answer
              && bus.published == old(bus.published) + spec.events
      ensures answer !in {Err(NotFound), Err(Conflict)} || old(session.Clean()) ==> session.Clean()
    {
      if !HasOrder(session.working, biz, id) {
        return Err(NotFound);
      }
      var order := session.working.orders[id];
      var rule := Rule(order.status, event);
      if rule.None? {
        return Err(Conflict);
      }
      var pending := [];
      if rule.value.effect != Unchanged {
        var staged := ApplyInventory(biz, order.lines, StockSign(rule.value.effect), actor);
        if staged.StageError? {
          session.Rollback();
          return Err(staged.error);
        }
        pending := staged.low;
      }
      StageLinesKeepsOthers(old(session.working), biz, order.lines, StockSign(rule.value.effect), actor);
      session.working := session.working.(
        orders := session.working.orders[id := order.(status := rule.value.to)]);
      answer := Conclude(order, id, rule.value.to, pending, fault);
    }

    /** The end of `transition`: commit once, then publish what the committed change calls for. */
    method Conclude(order: Order, id: int, to: OrderStatus, pending: seq<Event>, fault: Fault) returns (answer: Answer)
      requires session.Valid()
      modifies session, bus
      ensures session.Clean()
      ensures var spec := Finish(old(session.committed), old(session.working),
                                 pending + LifecycleEvents(order, id, to), Ok(id), fault);
              && session.committed == spec.db && answer == spec.answer
              && bus.published == old(bus.published) + spec.events
    {
      var error := session.Commit(fault);
      if error.Some? {
        session.Rollback();
        return Err(error.value);
      }
      var ok := session.Refresh(fault);
      if !ok {
        return Err(DatabaseError);
      }
      PublishAll(pending);
      PublishLifecycle(order, id, to);
      answer := Ok(id);
    }

    method PublishAll(events: seq<Event>)
      modifies bus
      ensures bus.published == old(bus.published) + events
    {
      for i := 0 to |events|
        invariant bus.published == old(bus.published) + events[..i]
      {
        bus.Publish(events[i]);
      }
    }

    method PublishLifecycle(order: Order, id: int, to: OrderStatus)
      modifies bus
      ensures bus.published == old(bus.published) + LifecycleEvents(order, id, to)
    {
      if to == Confirmed {
        bus.Publish(OrderConfirmed(order.biz, id, order.customer));
      } else if to == Cancelled {
        bus.Publish(OrderCancelled(order.biz, id, order.customer));
      }
    }
  }

  lemma {:induction false} SnapshotRefused(db: DB, biz: int, items: seq<ItemIn>, n: nat)
    requires n <= |items| && Snapshot(db, biz, items[..n]).None?
    ensures Snapshot(db, biz, items).None?
    decreases |items|
  {
    if n < |items| {
      var shorter := items[..|items| - 1];
      assert shorter[..n] == items[..n];
      SnapshotRefused(db, biz, shorter, n);
    } else {
      assert items[..n] == items;
    }
  }
}
