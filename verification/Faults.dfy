/** What a fault can do to a call, said once for every call of the HTTP surface. */
module Faults {
  import opened Options
  import opened Lifecycle
  import opened Schema
  import opened Inventories
  import opened Orders
  import opened Payments
  import opened Invoices
  import opened InvoiceNumbers
  import opened Api
  import opened Invariant
  import opened Acceptance

  /** The same call in an environment that does this to it. */
  function Under(call: Call, fault: Fault): Call {
    match call
    case SaveProduct(biz, id, name, price, deleted, _) => SaveProduct(biz, id, name, price, deleted, fault)
    case SaveCustomer(biz, id, name, phone, deleted, _) => SaveCustomer(biz, id, name, phone, deleted, fault)
    case CreateInventory(biz, product, quantity, threshold, id, _) =>
      CreateInventory(biz, product, quantity, threshold, id, fault)
    case UpdateThreshold(biz, id, threshold, _) => UpdateThreshold(biz, id, threshold, fault)
    case AdjustStock(biz, id, delta, kind, actor, _) => AdjustStock(biz, id, delta, kind, actor, fault)
    case AdjustByProduct(biz, product, delta, kind, actor, _) =>
      AdjustByProduct(biz, product, delta, kind, actor, fault)
    case CreateOrder(biz, customer, items, id, _) => CreateOrder(biz, customer, items, id, fault)
    case TransitionOrder(biz, id, event, actor, _) => TransitionOrder(biz, id, event, actor, fault)
    case Initiate(biz, order, via, key, gateway, id, _) => Initiate(biz, order, via, key, gateway, id, fault)
    case Verify(biz, id, answer, actor, now, _) => Verify(biz, id, answer, actor, now, fault)
    case ConfirmCod(biz, id, actor, now, _) => ConfirmCod(biz, id, actor, now, fault)
    case Generate(biz, order, year, business, id, url, _) => Generate(biz, order, year, business, id, url, fault)
    case GetPdf(biz, id, stored, url, _) => GetPdf(biz, id, stored, url, fault)
  }

  /** How one call ends without a fault, with one at the commit and with one after it. */
  datatype Endings = Endings(plain: Outcome, failed: Outcome, lost: Outcome)

  ghost function EndingsOf(config: Config, db: DB, call: Call): Endings {
    Endings(Step(config, db, Under(call, NoFault)), Step(config, db, Under(call, AtCommit)),
            Step(config, db, Under(call, AfterCommit)))
  }

  /** The call has nothing to commit, so no fault reaches it. */
  ghost predicate Unreached(db: DB, e: Endings) {
    e.plain.db == db && e.plain.events == [] && e.failed == e.plain && e.lost == e.plain
  }

  /** A fault at the commit leaves nothing behind. One after it leaves the tables as without it, with no event
      published. Either way the caller sees an error. */
  ghost predicate Struck(db: DB, e: Endings) {
    && e.failed == Outcome(db, [], Err(DatabaseError))
    && e.lost == Outcome(e.plain.db, [], Err(DatabaseError))
  }

  /** The call reaches its commit: it changes something, or writes what is there already. */
  ghost predicate Commits(db: DB, call: Call, plain: Outcome) {
    || plain.db != db
    || (plain.answer.Ok? && (call.SaveProduct? || call.SaveCustomer? || call.UpdateThreshold?))
    || (plain.answer.Ok? && call.Verify? && call.id in db.payments && db.payments[call.id].status == Pending)
  }

  /** Only the document of the invoice is missing. */
  ghost predicate WithoutDocument(plain: DB, lost: DB, id: int) {
    id in plain.invoices && lost == plain.(invoices := plain.invoices[id := plain.invoices[id].(pdf := None)])
  }

  ghost predicate Handled(db: DB, call: Call, e: Endings) {
    match call
    case GetPdf(_, _, _, _, _) => e.failed == Outcome(db, [], e.plain.answer) && e.lost == e.plain
    case Generate(_, _, _, _, id, _, _) =>
      if e.plain.db == db then Unreached(db, e)
      else
        && e.failed == Outcome(db, [], Err(DatabaseError))
        && e.lost == Outcome(e.lost.db, [], Err(DatabaseError))
        && WithoutDocument(e.plain.db, e.lost.db, id)
    case _ => if Commits(db, call, e.plain) then Struck(db, e) else Unreached(db, e)
  }

  lemma ShelfCallsHandled(config: Config, db: DB, call: Call)
    requires call.CreateInventory? || call.UpdateThreshold?
    ensures Handled(db, call, EndingsOf(config, db, call))
  {
    hide Constraints;
  }

  lemma AdjustHandled(db: DB, biz: int, id: int, delta: int, kind: MovementType, actor: Option<int>)
    ensures var e := Endings(AdjustStockSpec(db, biz, id, delta, kind, actor, NoFault),
                             AdjustStockSpec(db, biz, id, delta, kind, actor, AtCommit),
                             AdjustStockSpec(db, biz, id, delta, kind, actor, AfterCommit));
            if e.plain.db != db then Struck(db, e) else Unreached(db, e)
  {
    hide Constraints;
  }

  lemma AdjustCallsHandled(config: Config, db: DB, call: Call)
    requires call.AdjustStock? || call.AdjustByProduct?
    ensures Handled(db, call, EndingsOf(config, db, call))
  {
    hide AdjustStockSpec;
    if call.AdjustStock? {
      AdjustHandled(db, call.biz, call.id, call.delta, call.kind, call.actor);
    } else if FindInventory(db.inventories, call.biz, call.product).Some? {
      AdjustHandled(db, call.biz, FindInventory(db.inventories, call.biz, call.product).value, call.delta, call.kind,
                    call.actor);
    }
  }

  lemma CatalogCallsHandled(config: Config, db: DB, call: Call)
    requires Inv(db) && (call.SaveProduct? || call.SaveCustomer?)
    ensures Handled(db, call, EndingsOf(config, db, call))
  {
    hide Constraints, Inv;
  }

  lemma CreateOrderHandled(config: Config, db: DB, call: Call)
    requires call.CreateOrder?
    ensures Handled(db, call, EndingsOf(config, db, call))
  {
    hide Constraints, Snapshot;
  }

  lemma TransitionHandled(config: Config, db: DB, call: Call)
    requires call.TransitionOrder?
    ensures Handled(db, call, EndingsOf(config, db, call))
  {
    hide Constraints, ApplyEffect;
  }

  lemma InitiateHandled(config: Config, db: DB, call: Call)
    requires call.Initiate?
    ensures Handled(db, call, EndingsOf(config, db, call))
  {
    hide Constraints;
  }

  lemma SucceedHandled(db: DB, id: int, reference: Option<string>, actor: Option<int>, now: int)
    requires Inv(db) && id in db.payments && Verifiable(db.payments[id].status)
    requires IsOrderOf(db, db.payments[id].biz, db.payments[id].order)
    requires db.orders[db.payments[id].order].status == Confirmed
    ensures var e := Endings(SucceedSpec(db, id, reference, actor, now, NoFault),
                             SucceedSpec(db, id, reference, actor, now, AtCommit),
                             SucceedSpec(db, id, reference, actor, now, AfterCommit));
            if e.plain.answer.Ok? then e.plain.db != db && Struck(db, e) else Unreached(db, e)
  {
    hide Inv, Constraints, SucceedSpec;
    SucceedOutcome(db, id, reference, actor, now, NoFault);
    SucceedOutcome(db, id, reference, actor, now, AtCommit);
    SucceedOutcome(db, id, reference, actor, now, AfterCommit);
  }

  /** Writing an attempt's row in one commit. */
  lemma WriteHandled(db: DB, id: int, p: Payment, events: seq<Event>, answer: Answer)
    requires Constraints(SetPayment(db, id, p))
    ensures var e := Endings(Finish(db, SetPayment(db, id, p), events, answer, NoFault),
                             Finish(db, SetPayment(db, id, p), events, answer, AtCommit),
                             Finish(db, SetPayment(db, id, p), events, answer, AfterCommit));
            Struck(db, e) && e.plain == Outcome(SetPayment(db, id, p), events, answer)
  {
    hide Constraints;
  }

  lemma AnsweredHandled(db: DB, biz: int, id: int, v: Verification, actor: Option<int>, now: int)
    requires Inv(db) && Eligible(db, biz, id, Online).None?
    ensures var e := Endings(VerifySpec(db, biz, id, Some(v), actor, now, NoFault),
                             VerifySpec(db, biz, id, Some(v), actor, now, AtCommit),
                             VerifySpec(db, biz, id, Some(v), actor, now, AfterCommit));
            if v.status == GatewayPending then
              Struck(db, e) && e.plain.answer.Ok? && (e.plain.db != db || db.payments[id].status == Pending)
            else if e.plain.db == db then Unreached(db, e) && e.plain.answer.Err?
            else Struck(db, e)
  {
    hide Inv, Constraints, SucceedSpec, Mismatch, Finish, Struck;
    var p := db.payments[id];
    AttemptFacts(db, id);
    if v.status == GatewayPending {
      var pending := p.(status := Pending);
      OpenAttemptRules(db, id, pending);
      WriteHandled(db, id, pending, [], Ok(id));
    } else if Mismatch(p, v).Some? {
      var failed := p.(status := Failed, failure := Mismatch(p, v));
      OpenAttemptRules(db, id, failed);
      WriteHandled(db, id, failed, [PaymentFailed(p.biz, p.order, id, Mismatch(p, v).value)], Err(PaymentMismatch));
    } else {
      SucceedHandled(db, id, Some(v.gatewayPayment), actor, now);
    }
  }

  lemma VerifyHandled(config: Config, db: DB, call: Call)
    requires Inv(db) && call.Verify?
    ensures Handled(db, call, EndingsOf(config, db, call))
  {
    if Eligible(db, call.biz, call.id, Online).None? && call.answer.Some? {
      AnsweredHandled(db, call.biz, call.id, call.answer.value, call.actor, call.now);
    } else {
      SettledHandled(db, call.biz, call.id, call.answer, call.actor, call.now);
    }
    hide Inv, VerifySpec;
  }

  lemma SettledHandled(db: DB, biz: int, id: int, gateway: Option<Verification>, actor: Option<int>, now: int)
    requires Eligible(db, biz, id, Online).Some? || gateway.None?
    ensures var e := Endings(VerifySpec(db, biz, id, gateway, actor, now, NoFault),
                             VerifySpec(db, biz, id, gateway, actor, now, AtCommit),
                             VerifySpec(db, biz, id, gateway, actor, now, AfterCommit));
            Unreached(db, e) && (e.plain.answer.Ok? ==> id in db.payments && db.payments[id].status == Success)
  {}

  lemma ConfirmCodHandled(config: Config, db: DB, call: Call)
    requires Inv(db) && call.ConfirmCod?
    ensures Handled(db, call, EndingsOf(config, db, call))
  {
    hide Inv, Constraints, SucceedSpec;
    if Eligible(db, call.biz, call.id, Cod).None? {
      AttemptFacts(db, call.id);
      SucceedHandled(db, call.id, None, call.actor, call.now);
    }
  }

  lemma NewInvoiceDocument(db: DB, order: int, paid: Option<Payment>, year: nat, business: string, currency: string,
                           items: seq<InvoiceLine>, id: int, url: Option<string>)
    requires order in db.orders && id !in db.invoices
    ensures var v := Draft(db, order, paid, year, business, currency, items);
            var next := Issue(db, id, v, year);
            && id in next.invoices && next != db && AttachPdf(next, id, url) != db
            && WithoutDocument(AttachPdf(next, id, url), next, id)
  {
    var v := Draft(db, order, paid, year, business, currency, items);
    var next := Issue(db, id, v, year);
    assert next.invoices[id] == v && v.pdf == None;
    assert AttachPdf(next, id, url).invoices.Keys == next.invoices.Keys;
    hide InvoiceNumber;
  }

  lemma GenerateHandled(config: Config, db: DB, call: Call)
    requires call.Generate?
    ensures Handled(db, call, EndingsOf(config, db, call))
  {
    hide Constraints, Draft, Issue, AttachPdf, WithoutDocument, SuccessOf;
    if HasOrder(db, call.biz, call.order) && call.id !in db.invoices {
      NewInvoiceDocument(db, call.order, SuccessOf(db, call.biz, call.order), call.year, call.business, config.currency,
                         InvoiceLines(db.orders[call.order].lines), call.id, call.url);
    }
  }

  lemma GetPdfHandled(config: Config, db: DB, call: Call)
    requires call.GetPdf?
    ensures Handled(db, call, EndingsOf(config, db, call))
  {}

  /** Every call of every reachable state: a fault at its commit leaves the tables as they were and publishes
      nothing; one after its commit loses the events, the document of a new invoice and the answer, and no
      row; and a call that commits nothing is beyond any fault. */
  lemma EveryFaultHandled(config: Config, db: DB, call: Call)
    requires Inv(db)
    ensures Handled(db, call, EndingsOf(config, db, call))
  {
    hide Inv, Step, Handled;
    match call
    case SaveProduct(_, _, _, _, _, _) => CatalogCallsHandled(config, db, call);
    case SaveCustomer(_, _, _, _, _, _) => CatalogCallsHandled(config, db, call);
    case CreateInventory(_, _, _, _, _, _) => ShelfCallsHandled(config, db, call);
    case UpdateThreshold(_, _, _, _) => ShelfCallsHandled(config, db, call);
    case AdjustStock(_, _, _, _, _, _) => AdjustCallsHandled(config, db, call);
    case AdjustByProduct(_, _, _, _, _, _) => AdjustCallsHandled(config, db, call);
    case CreateOrder(_, _, _, _, _) => CreateOrderHandled(config, db, call);
    case TransitionOrder(_, _, _, _, _) => TransitionHandled(config, db, call);
    case Initiate(_, _, _, _, _, _, _) => InitiateHandled(config, db, call);
    case Verify(_, _, _, _, _, _) => VerifyHandled(config, db, call);
    case ConfirmCod(_, _, _, _, _) => ConfirmCodHandled(config, db, call);
    case Generate(_, _, _, _, _, _, _) => GenerateHandled(config, db, call);
    case GetPdf(_, _, _, _, _) => GetPdfHandled(config, db, call);
  }
}
