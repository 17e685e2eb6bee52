/** Every write the HTTP surface offers, as one call on the shared database, and runs of calls.
    Ids, the clock, gateway answers and faults are inputs of a call. */
module Api {
  import opened Options
  import opened Lifecycle
  import opened Schema
  import opened Inventories
  import opened Orders
  import opened Payments
  import opened Invoices

  datatype Config = Config(rate: real, currency: string)

  datatype Call =
    | SaveProduct(biz: int, id: int, name: string, price: int, deleted: bool, fault: Fault)
    | SaveCustomer(biz: int, id: int, name: string, phone: string, deleted: bool, fault: Fault)
    | CreateInventory(biz: int, product: int, quantity: int, threshold: int, id: int, fault: Fault)
    | UpdateThreshold(biz: int, id: int, threshold: int, fault: Fault)
    | AdjustStock(biz: int, id: int, delta: int, kind: MovementType, actor: Option<int>, fault: Fault)
    | AdjustByProduct(biz: int, product: int, delta: int, kind: MovementType, actor: Option<int>, fault: Fault)
    | CreateOrder(biz: int, customer: int, items: seq<ItemIn>, id: int, fault: Fault)
    | TransitionOrder(biz: int, id: int, event: OrderEvent, actor: Option<int>, fault: Fault)
    | Initiate(biz: int, order: int, via: PaymentMethod, key: Option<string>, gateway: Option<string>,
               id: int, fault: Fault)
    | Verify(biz: int, id: int, answer: Option<Verification>, actor: Option<int>, now: int, fault: Fault)
    | ConfirmCod(biz: int, id: int, actor: Option<int>, now: int, fault: Fault)
    | Generate(biz: int, order: int, year: nat, business: string, id: int, url: Option<string>, fault: Fault)
    | GetPdf(biz: int, id: int, stored: bool, url: Option<string>, fault: Fault)

  /** Catalog create, edit or soft delete of one product. */
  ghost function SaveProductSpec(db: DB, biz: int, id: int, product: Product, fault: Fault): Outcome {
    if id in db.products && db.products[id].biz != biz then Refuse(db, NotFound)
    else Finish(db, db.(products := db.products[id := product]), [], Ok(id), fault)
  }

  ghost function SaveCustomerSpec(db: DB, biz: int, id: int, customer: Customer, fault: Fault): Outcome {
    if id in db.customers && db.customers[id].biz != biz then Refuse(db, NotFound)
    else Finish(db, db.(customers := db.customers[id := customer]), [], Ok(id), fault)
  }

  ghost function Step(config: Config, db: DB, call: Call): Outcome {
    match call
    case SaveProduct(biz, id, name, price, deleted, fault) =>
      SaveProductSpec(db, biz, id, Product(biz, name, price, deleted), fault)
    case SaveCustomer(biz, id, name, phone, deleted, fault) =>
      SaveCustomerSpec(db, biz, id, Customer(biz, name, phone, deleted), fault)
    case CreateInventory(biz, product, quantity, threshold, id, fault) =>
      CreateInventorySpec(db, biz, product, quantity, threshold, id, fault)
    case UpdateThreshold(biz, id, threshold, fault) =>
      UpdateThresholdSpec(db, biz, id, threshold, fault)
    case AdjustStock(biz, id, delta, kind, actor, fault) =>
      AdjustStockSpec(db, biz, id, delta, kind, actor, fault)
    case AdjustByProduct(biz, product, delta, kind, actor, fault) =>
      AdjustByProductSpec(db, biz, product, delta, kind, actor, fault)
    case CreateOrder(biz, customer, items, id, fault) =>
      CreateOrderSpec(db, biz, customer, items, config.rate, id, fault)
    case TransitionOrder(biz, id, event, actor, fault) =>
      ClientTransitionSpec(db, biz, id, event, actor, fault)
    case Initiate(biz, order, via, key, gateway, id, fault) =>
      InitiateSpec(db, biz, order, via, key, gateway, config.currency, id, fault)
    case Verify(biz, id, answer, actor, now, fault) =>
      VerifySpec(db, biz, id, answer, actor, now, fault)
    case ConfirmCod(biz, id, actor, now, fault) =>
      ConfirmCodSpec(db, biz, id, actor, now, fault)
    case Generate(biz, order, year, business, id, url, fault) =>
      GenerateSpec(db, biz, order, year, business, config.currency, id, url, fault)
    case GetPdf(biz, id, stored, url, fault) =>
      GetPdfSpec(db, biz, id, stored, url, fault)
  }

  /** The committed tables after a run from the empty database, and all events published in order. */
  datatype Trace = Trace(db: DB, log: seq<Event>)

  ghost function Run(config: Config, calls: seq<Call>): Trace {
    if calls == [] then Trace(EMPTY, [])
    else
      var before := Run(config, calls[..|calls| - 1]);
      var o := Step(config, before.db, calls[|calls| - 1]);
      Trace(o.db, before.log + o.events)
  }
}
