/** Money carried unchanged from order to payment to invoice, through any later calls. */
module MoneyTrail {
  import opened Options
  import opened Lifecycle
  import opened Schema
  import opened Inventories
  import opened Orders
  import opened Payments
  import opened Invoices
  import opened Api
  import opened Invariant
  import opened Reconciliation

  function ItemsValue(items: seq<InvoiceLine>): int {
    if items == [] then 0 else ItemsValue(items[..|items| - 1]) + items[|items| - 1].total
  }

  lemma {:induction false} ItemsOfLines(lines: seq<Line>)
    ensures ItemsValue(InvoiceLines(lines)) == LinesValue(lines)
  {
    if lines != [] {
      var shorter, items := lines[..|lines| - 1], InvoiceLines(lines);
      ItemsOfLines(shorter);
      assert items[..|items| - 1] == InvoiceLines(shorter);
    }
  }

  /** In every reachable state an invoice's line totals sum to its subtotal, subtotal plus tax is its
      total, and that total is both the order's and the successful payment's. */
  lemma InvoiceBalances(db: DB, v: int)
    requires Inv(db) && v in db.invoices
    ensures var invoice := db.invoices[v];
            && ItemsValue(invoice.items) == invoice.subtotal
            && invoice.subtotal + invoice.tax == invoice.total
            && invoice.order in db.orders && invoice.total == db.orders[invoice.order].total
            && exists p | p in db.payments ::
                 && SucceededFor(db.payments[p], invoice.biz, invoice.order)
                 && db.payments[p].amount == invoice.total
                 && invoice.reference == db.payments[p].gatewayPayment
  {
    var invoice := db.invoices[v];
    assert Faithful(db, invoice);
    var order := db.orders[invoice.order];
    assert Billed(order);
    ItemsOfLines(order.lines);
    var p :| && p in db.payments && SucceededFor(db.payments[p], invoice.biz, invoice.order)
             && invoice.currency == db.payments[p].currency
             && invoice.via == Some(db.payments[p].via) && invoice.reference == db.payments[p].gatewayPayment;
    assert AmountMatches(db, db.payments[p]);
  }

  // ----- what no call ever changes -----

  ghost predicate SameAttempt(p: Payment, q: Payment) {
    && q == p.(status := q.status, gatewayPayment := q.gatewayPayment, failure := q.failure, verifiedAt := q.verifiedAt)
    && (!Verifiable(p.status) ==> q == p)
  }

  ghost predicate SameOrder(a: Order, b: Order) {
    && b == a.(status := b.status)
    && (b.status == a.status || Rank(b.status) > Rank(a.status))
  }

  /** Orders keep everything but a status that only rises, attempts their terms and any final status, invoices
      everything but the document, and the movement log only grows. */
  ghost predicate Frozen(db: DB, next: DB) {
    && (forall o | o in db.orders :: o in next.orders && SameOrder(db.orders[o], next.orders[o]))
    && (forall p | p in db.payments :: p in next.payments && SameAttempt(db.payments[p], next.payments[p]))
    && (forall v | v in db.invoices ::
          v in next.invoices && next.invoices[v] == db.invoices[v].(pdf := next.invoices[v].pdf))
    && db.movements <= next.movements
  }

  lemma FrozenTransitive(a: DB, b: DB, c: DB)
    requires Frozen(a, b) && Frozen(b, c)
    ensures Frozen(a, c)
  {
    forall p | p in a.payments ensures p in c.payments && SameAttempt(a.payments[p], c.payments[p]) {
      assert SameAttempt(a.payments[p], b.payments[p]) && SameAttempt(b.payments[p], c.payments[p]);
    }
    forall v | v in a.invoices ensures v in c.invoices && c.invoices[v] == a.invoices[v].(pdf := c.invoices[v].pdf) {
      assert b.invoices[v] == a.invoices[v].(pdf := b.invoices[v].pdf);
      assert c.invoices[v] == b.invoices[v].(pdf := c.invoices[v].pdf);
    }
    forall o | o in a.orders ensures o in c.orders && SameOrder(a.orders[o], c.orders[o]) {
      assert SameOrder(a.orders[o], b.orders[o]) && SameOrder(b.orders[o], c.orders[o]);
    }
  }

  lemma {:induction false} StagingAppends(db: DB, biz: int, lines: seq<Line>, sign: int, actor: Option<int>)
    ensures var r := StageLines(db, biz, lines, sign, actor);
            r.Staged? ==>
              && db.movements <= r.db.movements
              && r.db == db.(inventories := r.db.inventories, movements := r.db.movements)
  {
    hide FindInventory;
    if lines != [] {
      StagingAppends(db, biz, lines[..|lines| - 1], sign, actor);
    }
  }

  lemma EffectAppends(db: DB, order: Order, effect: InventoryEffect, actor: Option<int>)
    ensures var r := ApplyEffect(db, order, effect, actor);
            r.Staged? ==>
              && db.movements <= r.db.movements
              && r.db == db.(inventories := r.db.inventories, movements := r.db.movements)
  {
    StagingAppends(db, order.biz, order.lines, StockSign(effect), actor);
  }

  lemma TransitionFreezes(committed: DB, working: DB, biz: int, id: int, event: OrderEvent, actor: Option<int>,
                          fault: Fault)
    requires Frozen(committed, committed) && Frozen(committed, working)
    ensures Frozen(committed, TransitionSpec(committed, working, biz, id, event, actor, fault).db)
  {
    if HasOrder(working, biz, id) && Rule(working.orders[id].status, event).Some? {
      var order := working.orders[id];
      var rule := Rule(order.status, event).value;
      hide Constraints, LifecycleEvents, Frozen, ApplyEffect, Rule;
      RankRises(order.status, event);
      EffectAppends(working, order, rule.effect, actor);
      var staged := ApplyEffect(working, order, rule.effect, actor);
      if staged.Staged? {
        StatusFreezes(working, staged.db, id, rule.to);
        FrozenTransitive(committed, working, WithStatus(staged.db, id, rule.to));
      }
    }
  }

  lemma StatusFreezes(db: DB, mid: DB, id: int, to: OrderStatus)
    requires mid == db.(inventories := mid.inventories, movements := mid.movements) && db.movements <= mid.movements
    requires id in db.orders && Rank(to) > Rank(db.orders[id].status)
    ensures Frozen(db, WithStatus(mid, id, to))
  {}

  lemma RankRises(status: OrderStatus, event: OrderEvent)
    ensures match Rule(status, event)
            case None => true
            case Some(rule) => Rank(rule.to) > Rank(status)
  {}

  lemma AttemptFreezes(db: DB, id: int, p: Payment)
    requires id in db.payments ==> SameAttempt(db.payments[id], p)
    ensures Frozen(db, SetPayment(db, id, p))
  {}

  lemma NothingFreezes(db: DB)
    ensures Frozen(db, db)
  {}

  lemma SucceedFreezes(db: DB, id: int, reference: Option<string>, actor: Option<int>, now: int, fault: Fault)
    requires id in db.payments && Verifiable(db.payments[id].status)
    ensures Frozen(db, SucceedSpec(db, id, reference, actor, now, fault).db)
  {
    hide Frozen, Constraints, TransitionSpec;
    var p := db.payments[id];
    var staged := SetPayment(db, id, Succeeded(p, reference, now));
    NothingFreezes(db);
    AttemptFreezes(db, id, Succeeded(p, reference, now));
    TransitionFreezes(db, staged, p.biz, p.order, Pay, actor, fault);
  }

  lemma PaymentCallsFreeze(db: DB, biz: int, id: int, answer: Option<Verification>, actor: Option<int>, now: int,
                           fault: Fault)
    ensures Frozen(db, VerifySpec(db, biz, id, answer, actor, now, fault).db)
    ensures Frozen(db, ConfirmCodSpec(db, biz, id, actor, now, fault).db)
  {
    hide Frozen, Constraints, SucceedSpec;
    NothingFreezes(db);
    if Eligible(db, biz, id, Online).None? && answer.Some? {
      var p := db.payments[id];
      SucceedFreezes(db, id, Some(answer.value.gatewayPayment), actor, now, fault);
      AttemptFreezes(db, id, p.(status := Pending));
      AttemptFreezes(db, id, p.(status := Failed, failure := Mismatch(p, answer.value)));
    }
    if Eligible(db, biz, id, Cod).None? {
      SucceedFreezes(db, id, None, actor, now, fault);
    }
  }

  lemma IssueFreezes(db: DB, id: int, v: Invoice, year: nat)
    requires id !in db.invoices
    ensures Frozen(db, Issue(db, id, v, year))
  {}

  lemma PdfFreezes(db: DB, id: int, url: Option<string>)
    requires id in db.invoices
    ensures Frozen(db, AttachPdf(db, id, url))
  {
    hide PdfKey;
  }

  lemma SnapshotFreezes(db: DB, biz: int, order: int, year: nat, business: string, currency: string, id: int,
                        fault: Fault)
    requires order in db.orders
    ensures Frozen(db, SnapshotSpec(db, biz, order, year, business, currency, id, fault).db)
  {
    hide Frozen, Constraints, Draft, InvoiceLines, Issue;
    NothingFreezes(db);
    if id !in db.invoices {
      IssueFreezes(db, id, Draft(db, order, SuccessOf(db, biz, order), year, business, currency,
                                 InvoiceLines(db.orders[order].lines)), year);
    }
  }

  lemma GenerateFreezes(db: DB, biz: int, order: int, year: nat, business: string, currency: string, id: int,
                        url: Option<string>, fault: Fault)
    ensures Frozen(db, GenerateSpec(db, biz, order, year, business, currency, id, url, fault).db)
  {
    hide Frozen, SnapshotSpec, AttachPdf;
    NothingFreezes(db);
    if HasOrder(db, biz, order) {
      SnapshotFreezes(db, biz, order, year, business, currency, id, fault);
      var made := SnapshotSpec(db, biz, order, year, business, currency, id, fault);
      if made.answer.Ok? && made.answer.id in made.db.invoices {
        PdfFreezes(made.db, made.answer.id, url);
        FrozenTransitive(db, made.db, AttachPdf(made.db, made.answer.id, url));
      }
    }
  }

  lemma GetPdfFreezes(db: DB, biz: int, id: int, stored: bool, url: Option<string>, fault: Fault)
    ensures Frozen(db, GetPdfSpec(db, biz, id, stored, url, fault).db)
  {
    hide Frozen, AttachPdf;
    NothingFreezes(db);
    if HasInvoice(db, biz, id) {
      PdfFreezes(db, id, url);
    }
  }

  lemma CreateOrderFreezes(db: DB, biz: int, customer: int, items: seq<ItemIn>, rate: real, id: int, fault: Fault)
    ensures Frozen(db, CreateOrderSpec(db, biz, customer, items, rate, id, fault).db)
  {
    hide Constraints, PricedLines;
  }

  lemma QuietFreezes(db: DB, next: DB)
    requires next.orders == db.orders && next.payments == db.payments && next.invoices == db.invoices
    requires db.movements <= next.movements
    ensures Frozen(db, next)
  {}

  lemma MoveFreezes(db: DB, id: int, delta: int, kind: MovementType, actor: Option<int>)
    requires id in db.inventories
    ensures var r := Move(db, id, delta, kind, actor); r.Staged? ==> Frozen(db, r.db)
  {
    hide Frozen;
    var r := Move(db, id, delta, kind, actor);
    if r.Staged? {
      QuietFreezes(db, r.db);
    }
  }

  lemma AdjustFreezes(db: DB, biz: int, id: int, delta: int, kind: MovementType, actor: Option<int>, fault: Fault)
    ensures Frozen(db, AdjustStockSpec(db, biz, id, delta, kind, actor, fault).db)
  {
    hide Constraints, Frozen, Move;
    NothingFreezes(db);
    if HasInventory(db, biz, id) {
      MoveFreezes(db, id, delta, kind, actor);
    }
  }

  lemma CatalogFreezes(db: DB, products: map<int, Product>, customers: map<int, Customer>)
    ensures Frozen(db, db.(products := products)) && Frozen(db, db.(customers := customers))
  {
    hide Frozen;
    QuietFreezes(db, db.(products := products));
    QuietFreezes(db, db.(customers := customers));
  }

  lemma SavesFreeze(db: DB, biz: int, id: int, product: Product, customer: Customer, fault: Fault)
    ensures Frozen(db, SaveProductSpec(db, biz, id, product, fault).db)
    ensures Frozen(db, SaveCustomerSpec(db, biz, id, customer, fault).db)
  {
    hide Constraints, Frozen;
    NothingFreezes(db);
    CatalogFreezes(db, db.products[id := product], db.customers[id := customer]);
  }

  lemma ShelfFreezes(db: DB, id: int, row: Inventory)
    ensures Frozen(db, db.(inventories := db.inventories[id := row]))
  {
    hide Frozen;
    QuietFreezes(db, db.(inventories := db.inventories[id := row]));
  }

  lemma ShelvesFreeze(config: Config, db: DB, call: Call)
    requires call.CreateInventory? || call.UpdateThreshold?
    ensures Frozen(db, Step(config, db, call).db)
  {
    hide Constraints, Frozen, FindInventory, HasProduct;
    NothingFreezes(db);
    if call.CreateInventory? {
      ShelfFreezes(db, call.id, Inventory(call.biz, call.product, call.quantity, call.threshold));
    } else if HasInventory(db, call.biz, call.id) {
      ShelfFreezes(db, call.id, db.inventories[call.id].(threshold := call.threshold));
    }
  }

  lemma InitiateFreezes(db: DB, biz: int, order: int, via: PaymentMethod, key: Option<string>,
                        gateway: Option<string>, currency: string, id: int, fault: Fault)
    ensures Frozen(db, InitiateSpec(db, biz, order, via, key, gateway, currency, id, fault).db)
  {
    hide Constraints, Frozen, NewPayment;
    NothingFreezes(db);
    if HasOrder(db, biz, order) && id !in db.payments {
      AttemptFreezes(db, id, NewPayment(db.orders[order], order, via, key, gateway, currency));
    }
  }

  lemma StepFreezes(config: Config, db: DB, call: Call)
    ensures Frozen(db, Step(config, db, call).db)
  {
    hide Frozen, SaveProductSpec, SaveCustomerSpec, TransitionSpec, VerifySpec, ConfirmCodSpec, CreateOrderSpec,
         InitiateSpec, GenerateSpec, GetPdfSpec, AdjustStockSpec;
    NothingFreezes(db);
    match call
    case TransitionOrder(b, id, event, actor, fault) =>
      TransitionFreezes(db, db, b, id, event, actor, fault);
    case Initiate(b, order, via, key, gateway, id, fault) =>
      InitiateFreezes(db, b, order, via, key, gateway, config.currency, id, fault);
    case Verify(b, id, answer, actor, now, fault) =>
      PaymentCallsFreeze(db, b, id, answer, actor, now, fault);
    case ConfirmCod(b, id, actor, now, fault) =>
      PaymentCallsFreeze(db, b, id, None, actor, now, fault);
    case Generate(b, order, year, business, id, url, fault) =>
      GenerateFreezes(db, b, order, year, business, config.currency, id, url, fault);
    case GetPdf(b, id, stored, url, fault) =>
      GetPdfFreezes(db, b, id, stored, url, fault);
    case AdjustStock(b, id, delta, kind, actor, fault) =>
      AdjustFreezes(db, b, id, delta, kind, actor, fault);
    case AdjustByProduct(b, product, delta, kind, actor, fault) =>
      var found := FindInventory(db.inventories, b, product);
      if found.Some? {
        AdjustFreezes(db, b, found.value, delta, kind, actor, fault);
      }
    case CreateOrder(b, customer, items, id, fault) =>
      CreateOrderFreezes(db, b, customer, items, config.rate, id, fault);
    case SaveProduct(b, id, name, price, deleted, fault) =>
      SavesFreeze(db, b, id, Product(b, name, price, deleted), Customer(b, name, "", deleted), fault);
    case SaveCustomer(b, id, name, phone, deleted, fault) =>
      SavesFreeze(db, b, id, Product(b, name, 0, deleted), Customer(b, name, phone, deleted), fault);
    case CreateInventory(_, _, _, _, _, _) => ShelvesFreeze(config, db, call);
    case UpdateThreshold(_, _, _, _) => ShelvesFreeze(config, db, call);
  }

  /** Whatever calls follow, including catalog and customer edits and failing ones. */
  lemma {:induction false} RunFreezes(config: Config, calls: seq<Call>, more: seq<Call>)
    ensures Frozen(Run(config, calls).db, Run(config, calls + more).db)
  {
    hide Frozen, Step;
    if more == [] {
      assert calls + more == calls;
      NothingFreezes(Run(config, calls).db);
    } else {
      var fewer := more[..|more| - 1];
      assert (calls + more)[..|calls + more| - 1] == calls + fewer;
      RunFreezes(config, calls, fewer);
      StepFreezes(config, Run(config, calls + fewer).db, more[|more| - 1]);
      FrozenTransitive(Run(config, calls).db, Run(config, calls + fewer).db, Run(config, calls + more).db);
    }
  }

  ghost function StatusAfter(config: Config, calls: seq<Call>, o: int): Option<OrderStatus> {
    var db := Run(config, calls).db;
    if o in db.orders then Some(db.orders[o].status) else None
  }

  /** How often a run has changed the status of an existing order. */
  ghost function StatusChanges(config: Config, calls: seq<Call>, o: int): nat {
    if calls == [] then 0
    else
      var earlier := calls[..|calls| - 1];
      var before, after := StatusAfter(config, earlier, o), StatusAfter(config, calls, o);
      StatusChanges(config, earlier, o) + (if before.Some? && before != after then 1 else 0)
  }

  lemma StatusRises(config: Config, calls: seq<Call>, o: int)
    requires calls != []
    ensures var before, after := StatusAfter(config, calls[..|calls| - 1], o), StatusAfter(config, calls, o);
            before.Some? ==> after.Some? && (after == before || Rank(after.value) > Rank(before.value))
  {
    hide Step;
    StepFreezes(config, Run(config, calls[..|calls| - 1]).db, calls[|calls| - 1]);
  }

  /** No run changes an order's status more than six times. */
  lemma {:induction false} SixChangesAtMost(config: Config, calls: seq<Call>, o: int)
    ensures StatusChanges(config, calls, o) <= 6
    ensures match StatusAfter(config, calls, o)
            case None => StatusChanges(config, calls, o) == 0
            case Some(s) => StatusChanges(config, calls, o) <= Rank(s)
  {
    hide StatusAfter;
    if calls == [] {
      NoOrderAtFirst(config, o);
    } else {
      SixChangesAtMost(config, calls[..|calls| - 1], o);
      StatusRises(config, calls, o);
    }
  }

  lemma NoOrderAtFirst(config: Config, o: int)
    ensures StatusAfter(config, [], o) == None
  {}

  /** Once an order has its invoice, every later generation returns that one and changes nothing,
      whatever happened in between and whichever year it is asked in. */
  lemma GenerateReturnsTheInvoice(config: Config, calls: seq<Call>, more: seq<Call>, v: int, year: nat,
                                  business: string, id: int, url: Option<string>, fault: Fault)
    requires v in Run(config, calls).db.invoices
    ensures var db := Run(config, calls + more).db;
            var invoice := Run(config, calls).db.invoices[v];
            Step(config, db, Generate(invoice.biz, invoice.order, year, business, id, url, fault))
            == Outcome(db, [], Ok(v))
  {
    var db := Run(config, calls + more).db;
    RunFreezes(config, calls, more);
    RunKeepsInv(config, calls + more);
    hide Inv, SnapshotSpec, Run;
    InvoiceStillThere(db, v);
    InvGivesInvoiceRules(db);
    InvoiceFound(db.invoices, db.invoices[v].biz, db.invoices[v].order, v);
  }

  lemma InvGivesInvoiceRules(db: DB)
    requires Inv(db)
    ensures InvoiceRules(db.invoices)
  {}

  lemma InvoiceStillThere(db: DB, v: int)
    requires Inv(db) && v in db.invoices
    ensures HasOrder(db, db.invoices[v].biz, db.invoices[v].order)
    ensures InSales(db.orders[db.invoices[v].order].status)
  {
    assert Faithful(db, db.invoices[v]);
    assert IsOrderOf(db, db.invoices[v].biz, db.invoices[v].order);
  }

  /** The amount a buyer was quoted at creation is the amount paid and the amount invoiced, whatever calls
      come in between. */
  lemma QuotedPaidInvoiced(config: Config, calls: seq<Call>, more: seq<Call>)
    ensures var before, after := Run(config, calls).db, Run(config, calls + more).db;
            forall v | v in after.invoices && after.invoices[v].order in before.orders ::
              && after.invoices[v].total == before.orders[after.invoices[v].order].total
              && exists p | p in after.payments ::
                   && SucceededFor(after.payments[p], after.invoices[v].biz, after.invoices[v].order)
                   && after.payments[p].amount == after.invoices[v].total
  {
    RunFreezes(config, calls, more);
    RunKeepsInv(config, calls + more);
    hide Inv, Run;
    forall v | v in Run(config, calls + more).db.invoices {
      InvoiceBalances(Run(config, calls + more).db, v);
    }
  }
}
