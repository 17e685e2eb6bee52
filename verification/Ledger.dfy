/** The movement log as an audit trail: every stock row's movements lead from its opening quantity to
    its current one. */
module Ledger {
  import opened Options
  import opened Lifecycle
  import opened Schema
  import opened Inventories
  import opened Orders
  import opened Payments
  import opened Invoices
  import opened Api
  import opened Invariant
  import opened Conservation

  /** `list_for_inventory` */
  function MovementsFor(log: seq<Movement>, id: int): seq<Movement> {
    if log == [] then []
    else
      var m := log[|log| - 1];
      MovementsFor(log[..|log| - 1], id) + (if m.inventory == id then [m] else [])
  }

  function Net(rows: seq<Movement>): int {
    if rows == [] then 0 else Net(rows[..|rows| - 1]) + rows[|rows| - 1].delta
  }

  /** Each resulting quantity is the one before it, or the opening one, plus the delta; the last is `end`. */
  predicate Leads(start: int, rows: seq<Movement>, end: int) {
    if rows == [] then start == end
    else rows[|rows| - 1].resulting == end && Leads(start, rows[..|rows| - 1], end - rows[|rows| - 1].delta)
  }

  /** What the row must have held before its first movement. */
  function Opening(db: DB, id: int): int
    requires id in db.inventories
  {
    db.inventories[id].quantity - Net(MovementsFor(db.movements, id))
  }

  predicate Accounted(db: DB, id: int)
    requires id in db.inventories
  {
    Opening(db, id) >= 0 && Leads(Opening(db, id), MovementsFor(db.movements, id), db.inventories[id].quantity)
  }

  /** The rows stay, with their opening quantities, and stay accounted for. */
  ghost predicate LedgerKept(db: DB, next: DB) {
    forall i | i in db.inventories ::
      && i in next.inventories
      && Opening(next, i) == Opening(db, i)
      && (Accounted(db, i) ==> Accounted(next, i))
  }

  ghost predicate AllAccounted(db: DB) {
    forall i | i in db.inventories :: Accounted(db, i)
  }

  lemma KeptThrough(a: DB, b: DB, c: DB)
    requires LedgerKept(a, b) && LedgerKept(b, c)
    ensures LedgerKept(a, c)
  {
    hide Opening, Accounted;
  }

  lemma MovementsForLonger(log: seq<Movement>, m: Movement, id: int)
    ensures MovementsFor(log + [m], id)
         == if m.inventory == id then MovementsFor(log, id) + [m] else MovementsFor(log, id)
  {
    assert (log + [m])[..|log|] == log;
  }

  lemma OneMoreMovement(start: int, rows: seq<Movement>, end: int, m: Movement)
    requires m.resulting == end + m.delta
    ensures Net(rows + [m]) == Net(rows) + m.delta
    ensures Leads(start, rows, end) ==> Leads(start, rows + [m], m.resulting)
  {
    assert (rows + [m])[..|rows|] == rows;
  }

  lemma MoveLedger(db: DB, id: int, delta: int, kind: MovementType, actor: Option<int>)
    requires id in db.inventories
    ensures var r := Move(db, id, delta, kind, actor);
            r.Staged? ==> LedgerKept(db, r.db) && r.db.inventories.Keys == db.inventories.Keys
  {
    hide MovementsFor, Net, Leads;
    var r := Move(db, id, delta, kind, actor);
    if r.Staged? {
      var m := r.db.movements[|db.movements|];
      forall i | i in db.inventories
        ensures Opening(r.db, i) == Opening(db, i) && (Accounted(db, i) ==> Accounted(r.db, i))
      {
        MovementsForLonger(db.movements, m, i);
        OneMoreMovement(Opening(db, i), MovementsFor(db.movements, i), db.inventories[id].quantity, m);
      }
    }
  }

  lemma NothingMoved(db: DB, next: DB)
    requires next.movements == db.movements && next.inventories.Keys == db.inventories.Keys
    requires forall i | i in db.inventories :: next.inventories[i].quantity == db.inventories[i].quantity
    ensures LedgerKept(db, next)
  {}

  lemma {:induction false} StageLinesLedger(db: DB, biz: int, lines: seq<Line>, sign: int, actor: Option<int>)
    ensures var r := StageLines(db, biz, lines, sign, actor);
            r.Staged? ==> LedgerKept(db, r.db) && r.db.inventories.Keys == db.inventories.Keys
  {
    hide LedgerKept, Move;
    if lines == [] {
      NothingMoved(db, db);
    } else {
      var line, shorter := lines[|lines| - 1], lines[..|lines| - 1];
      StageLinesLedger(db, biz, shorter, sign, actor);
      var before := StageLines(db, biz, shorter, sign, actor);
      if before.Staged? {
        var found := FindInventory(before.db.inventories, biz, line.product);
        if found.Some? {
          MoveLedger(before.db, found.value, sign * line.quantity, MovementKind(sign), actor);
          var r := Move(before.db, found.value, sign * line.quantity, MovementKind(sign), actor);
          if r.Staged? {
            KeptThrough(db, before.db, r.db);
          }
        }
      }
    }
  }

  // ----- every call -----

  lemma {:induction false} NoneFor(log: seq<Movement>, id: int)
    requires forall m | m in log :: m.inventory != id
    ensures MovementsFor(log, id) == []
  {
    if log != [] {
      NoneFor(log[..|log| - 1], id);
    }
  }

  /** A new row has no movements yet: its opening quantity is the one it was created with. */
  lemma NewRowLedger(db: DB, id: int, row: Inventory)
    requires Inv(db) && id !in db.inventories && row.quantity >= 0
    ensures var next := db.(inventories := db.inventories[id := row]);
            LedgerKept(db, next) && Opening(next, id) == row.quantity && Accounted(next, id)
  {
    assert forall m | m in db.movements :: MovementOwned(db, m);
    NoneFor(db.movements, id);
  }

  lemma TransitionLedger(committed: DB, db: DB, biz: int, id: int, event: OrderEvent, actor: Option<int>, fault: Fault)
    requires LedgerKept(committed, db) && LedgerKept(committed, committed)
    requires db.inventories.Keys == committed.inventories.Keys
    ensures var o := TransitionSpec(committed, db, biz, id, event, actor, fault);
            LedgerKept(committed, o.db) && o.db.inventories.Keys == committed.inventories.Keys
  {
    hide LedgerKept, Rule, Constraints, StageLines, LifecycleEvents;
    if HasOrder(db, biz, id) && Rule(db.orders[id].status, event).Some? {
      var order := db.orders[id];
      var rule := Rule(order.status, event).value;
      NothingMoved(db, db);
      StageLinesLedger(db, order.biz, order.lines, StockSign(rule.effect), actor);
      StageLinesKeepsOthers(db, order.biz, order.lines, StockSign(rule.effect), actor);
      var staged := ApplyEffect(db, order, rule.effect, actor);
      if staged.Staged? {
        NothingMoved(staged.db, staged.db.(orders := staged.db.orders[id := order.(status := rule.to)]));
        KeptThrough(committed, db, staged.db);
        KeptThrough(committed, staged.db, staged.db.(orders := staged.db.orders[id := order.(status := rule.to)]));
      }
    }
  }

  lemma SucceedLedger(db: DB, id: int, reference: Option<string>, actor: Option<int>, now: int, fault: Fault)
    requires id in db.payments
    ensures var o := SucceedSpec(db, id, reference, actor, now, fault);
            LedgerKept(db, o.db) && o.db.inventories.Keys == db.inventories.Keys
  {
    hide LedgerKept, Constraints, TransitionSpec;
    var p := db.payments[id];
    var staged := SetPayment(db, id, Succeeded(p, reference, now));
    NothingMoved(db, db);
    NothingMoved(db, staged);
    TransitionLedger(db, staged, p.biz, p.order, Pay, actor, fault);
  }

  lemma VerifyLedger(db: DB, biz: int, id: int, gateway: Option<Verification>, actor: Option<int>, now: int,
                     fault: Fault)
    ensures var o := VerifySpec(db, biz, id, gateway, actor, now, fault);
            LedgerKept(db, o.db) && o.db.inventories.Keys == db.inventories.Keys
  {
    hide LedgerKept, Constraints, SucceedSpec, Mismatch;
    NothingMoved(db, db);
    if HasPayment(db, biz, id) && gateway.Some? {
      var p := db.payments[id];
      NothingMoved(db, SetPayment(db, id, p.(status := Pending)));
      SucceedLedger(db, id, Some(gateway.value.gatewayPayment), actor, now, fault);
      NothingMoved(db, SetPayment(db, id, p.(status := Failed, failure := Mismatch(p, gateway.value))));
    }
  }

  lemma ConfirmCodLedger(db: DB, biz: int, id: int, actor: Option<int>, now: int, fault: Fault)
    ensures var o := ConfirmCodSpec(db, biz, id, actor, now, fault);
            LedgerKept(db, o.db) && o.db.inventories.Keys == db.inventories.Keys
  {
    hide LedgerKept, SucceedSpec;
    NothingMoved(db, db);
    if HasPayment(db, biz, id) {
      SucceedLedger(db, id, None, actor, now, fault);
    }
  }

  lemma StockCallsLedger(config: Config, db: DB, call: Call)
    requires Inv(db) && AllAccounted(db)
    requires call.CreateInventory? || call.UpdateThreshold? || call.AdjustStock? || call.AdjustByProduct?
    ensures LedgerKept(db, Step(config, db, call).db) && AllAccounted(Step(config, db, call).db)
  {
    hide Inv, Constraints, LedgerKept, Move, Accounted;
    NothingMoved(db, db);
    match call
    case CreateInventory(b, p, quantity, threshold, id, fault) =>
      var row := Inventory(b, p, quantity, threshold);
      if id !in db.inventories && Constraints(db.(inventories := db.inventories[id := row])) {
        NewRowNonNegative(db, id, row);
        NewRowLedger(db, id, row);
        KeptAccounted(db, db.(inventories := db.inventories[id := row]), id);
      }
    case UpdateThreshold(b, id, threshold, fault) =>
      if HasInventory(db, b, id) {
        var next := db.(inventories := db.inventories[id := db.inventories[id].(threshold := threshold)]);
        NothingMoved(db, next);
        KeptAccounted(db, next, id);
      }
    case AdjustStock(b, id, delta, kind, actor, fault) =>
      if HasInventory(db, b, id) {
        MovedAccounted(db, id, delta, kind, actor);
      }
    case AdjustByProduct(b, p, delta, kind, actor, fault) =>
      var found := FindInventory(db.inventories, b, p);
      if found.Some? {
        MovedAccounted(db, found.value, delta, kind, actor);
      }
  }

  lemma NewRowNonNegative(db: DB, id: int, row: Inventory)
    requires Constraints(db.(inventories := db.inventories[id := row]))
    ensures row.quantity >= 0
  {
    assert db.inventories[id := row][id] == row;
  }

  lemma KeptAccounted(db: DB, next: DB, id: int)
    requires AllAccounted(db) && LedgerKept(db, next)
    requires next.inventories.Keys <= db.inventories.Keys + {id}
    requires id in next.inventories && (id in db.inventories || Accounted(next, id))
    ensures AllAccounted(next)
  {
    hide Accounted;
  }

  lemma MovedAccounted(db: DB, id: int, delta: int, kind: MovementType, actor: Option<int>)
    requires AllAccounted(db) && id in db.inventories
    ensures var r := Move(db, id, delta, kind, actor); r.Staged? ==> LedgerKept(db, r.db) && AllAccounted(r.db)
  {
    hide Accounted, Opening, Move;
    MoveLedger(db, id, delta, kind, actor);
  }

  lemma CreateOrderLedger(db: DB, biz: int, customer: int, items: seq<ItemIn>, rate: real, id: int, fault: Fault)
    ensures var next := CreateOrderSpec(db, biz, customer, items, rate, id, fault).db;
            next.inventories == db.inventories && next.movements == db.movements
  {
    hide Constraints, Snapshot, PricedLines;
  }

  lemma QuietCallsLedger(config: Config, db: DB, call: Call)
    requires || call.SaveProduct? || call.SaveCustomer? || call.CreateOrder?
             || call.Initiate? || call.Generate? || call.GetPdf?
    ensures var next := Step(config, db, call).db;
            next.inventories == db.inventories && next.movements == db.movements
  {
    hide Constraints, GenerateSpec, InitiateSpec, CreateOrderSpec, PdfKey;
    match call
    case CreateOrder(b, customer, items, id, fault) =>
      CreateOrderLedger(db, b, customer, items, config.rate, id, fault);
    case Initiate(b, order, via, key, gateway, id, fault) =>
      InitiateKeepsStock(db, b, order, via, key, gateway, config.currency, id, fault);
    case Generate(b, order, year, business, id, url, fault) =>
      GenerateKeepsStock(db, b, order, year, business, config.currency, id, url, fault);
    case _ => {}
  }

  lemma StepLedger(config: Config, db: DB, call: Call)
    requires Inv(db) && AllAccounted(db)
    ensures LedgerKept(db, Step(config, db, call).db) && AllAccounted(Step(config, db, call).db)
  {
    hide Inv, Accounted, Opening, TransitionSpec, VerifySpec, ConfirmCodSpec;
    if call.CreateInventory? || call.UpdateThreshold? || call.AdjustStock? || call.AdjustByProduct? {
      StockCallsLedger(config, db, call);
    } else if call.TransitionOrder? {
      NothingMoved(db, db);
      TransitionLedger(db, db, call.biz, call.id, call.event, call.actor, call.fault);
    } else if call.Verify? {
      VerifyLedger(db, call.biz, call.id, call.answer, call.actor, call.now, call.fault);
    } else if call.ConfirmCod? {
      ConfirmCodLedger(db, call.biz, call.id, call.actor, call.now, call.fault);
    } else {
      QuietCallsLedger(config, db, call);
      hide Step;
      NothingMoved(db, Step(config, db, call).db);
    }
  }

  /** After every run each stock row's movements form a chain from a non-negative opening quantity to the
      current one: no quantity was ever changed without a movement that says so. */
  lemma {:induction false} RunAccounted(config: Config, calls: seq<Call>)
    ensures AllAccounted(Run(config, calls).db)
  {
    hide Step, Inv, Accounted;
    if calls != [] {
      RunKeepsInv(config, calls[..|calls| - 1]);
      RunAccounted(config, calls[..|calls| - 1]);
      StepLedger(config, Run(config, calls[..|calls| - 1]).db, calls[|calls| - 1]);
    }
  }

  /** The opening quantity a row's history starts from is the same at every later time. */
  lemma {:induction false} OpeningFixed(config: Config, calls: seq<Call>, more: seq<Call>)
    ensures LedgerKept(Run(config, calls).db, Run(config, calls + more).db)
  {
    hide Step, Inv, LedgerKept, AllAccounted;
    if more == [] {
      assert calls + more == calls;
      NothingMoved(Run(config, calls).db, Run(config, calls).db);
    } else {
      var fewer := more[..|more| - 1];
      assert (calls + more)[..|calls + more| - 1] == calls + fewer;
      OpeningFixed(config, calls, fewer);
      RunKeepsInv(config, calls + fewer);
      RunAccounted(config, calls + fewer);
      StepLedger(config, Run(config, calls + fewer).db, more[|more| - 1]);
      KeptThrough(Run(config, calls).db, Run(config, calls + fewer).db, Run(config, calls + more).db);
    }
  }
}
