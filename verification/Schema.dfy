/** The tables of the shared database, their unique indexes and CHECKs, and what a service
    call does to them. Amounts are whole cents (NUMERIC(12, 2)). */
module Schema {
  import opened Lifecycle
  import opened Options

  datatype Product = Product(biz: int, name: string, price: int, deleted: bool)

  datatype Customer = Customer(biz: int, name: string, phone: string, deleted: bool)

  datatype Inventory = Inventory(biz: int, product: int, quantity: int, threshold: int)

  datatype MovementType = Restock | Sale | ManualAdjustment | Damage

  datatype Movement = Movement(biz: int, inventory: int, product: int, delta: int, resulting: int,
                               kind: MovementType, actor: Option<int>)

  /** An order or invoice line: product reference plus the name and unit price at sale. */
  datatype Line = Line(product: int, name: string, price: int, quantity: int) {
    function Total(): int {
      price * quantity
    }
  }

  datatype Order = Order(biz: int, customer: int, status: OrderStatus, tax: int, total: int, lines: seq<Line>)

  datatype PaymentMethod = Online | Cod

  /** An attempt's CREATED is `Initiated` and its CANCELLED is `Abandoned`: the order has those names too. */
  datatype PaymentStatus = Initiated | Pending | Success | Failed | Abandoned

  datatype Payment = Payment(biz: int, order: int, via: PaymentMethod, amount: int, currency: string,
                             status: PaymentStatus, gatewayOrder: Option<string>,
                             gatewayPayment: Option<string>, key: Option<string>,
                             failure: Option<string>, verifiedAt: Option<int>)

  datatype Pdf = Pdf(key: string, url: string)

  datatype InvoiceLine = InvoiceLine(line: Line, total: int)

  datatype Invoice = Invoice(biz: int, order: int, number: string, year: nat, currency: string,
                             subtotal: int, tax: int, total: int, customerName: string,
                             customerPhone: string, businessName: string, via: Option<PaymentMethod>,
                             reference: Option<string>, items: seq<InvoiceLine>, pdf: Option<Pdf>)

  datatype DB = DB(products: map<int, Product>, customers: map<int, Customer>,
                   inventories: map<int, Inventory>, movements: seq<Movement>,
                   orders: map<int, Order>, payments: map<int, Payment>,
                   invoices: map<int, Invoice>, counters: map<(int, nat), nat>)

  const EMPTY: DB := DB(map[], map[], map[], [], map[], map[], map[], map[])

  datatype Event =
    | LowStock(biz: int, product: int, quantity: int, threshold: int)
    | OrderCreated(biz: int, order: int, customer: int)
    | OrderConfirmed(biz: int, order: int, customer: int)
    | OrderCancelled(biz: int, order: int, customer: int)
    | PaymentSucceeded(biz: int, order: int, payment: int)
    | PaymentFailed(biz: int, order: int, payment: int, code: string)

  datatype Error = NotFound | Conflict | Validation | InsufficientStock | PaymentState
                 | ProviderUnavailable | PaymentMismatch | IntegrityError | DatabaseError | StorageError

  /** The id of the row a call returns, or the exception it raises. */
  datatype Answer = Ok(id: int) | Err(error: Error)

  /** What the environment does to a transaction: nothing, fail it at or before the commit, or
      fail the call after the commit is durable but before its events are published. */
  datatype Fault = NoFault | AtCommit | AfterCommit

  datatype Outcome = Outcome(db: DB, events: seq<Event>, answer: Answer)

  // ----- unique indexes and CHECKs -----

  predicate InventoryRules(t: map<int, Inventory>) {
    && (forall i | i in t :: t[i].quantity >= 0 && t[i].threshold >= 0)
    && OneRowPerProduct(t)
  }

  predicate OneRowPerProduct(t: map<int, Inventory>) {
    forall i, j | i in t && j in t && i != j :: t[i].product != t[j].product
  }

  predicate MovementRules(t: seq<Movement>) {
    forall m | m in t :: m.delta != 0 && m.resulting >= 0
  }

  predicate OrderRules(t: map<int, Order>) {
    forall i | i in t :: PositiveQuantities(t[i].lines)
  }

  predicate PositiveQuantities(lines: seq<Line>) {
    forall l | l in lines :: l.quantity > 0
  }

  /** Two payment rows no unique index lets stand together. */
  predicate PaymentsClash(p: Payment, q: Payment) {
    || (p.order == q.order && p.status == Success && q.status == Success)
    || (p.biz == q.biz && p.gatewayPayment.Some? && p.gatewayPayment == q.gatewayPayment)
    || (p.biz == q.biz && p.key.Some? && p.key == q.key)
  }

  predicate PaymentRules(t: map<int, Payment>) {
    && (forall i | i in t :: t[i].amount > 0)
    && (forall i, j | i in t && j in t && i != j :: !PaymentsClash(t[i], t[j]))
  }

  predicate InvoicesClash(p: Invoice, q: Invoice) {
    || p.order == q.order
    || (p.biz == q.biz && p.number == q.number)
  }

  predicate InvoiceRules(t: map<int, Invoice>) {
    && (forall i | i in t :: t[i].total >= 0 && forall x | x in t[i].items :: x.line.quantity > 0)
    && (forall i, j | i in t && j in t && i != j :: !InvoicesClash(t[i], t[j]))
  }

  /** Everything the database itself refuses to break at a flush or commit. */
  predicate Constraints(db: DB) {
    && InventoryRules(db.inventories)
    && MovementRules(db.movements)
    && OrderRules(db.orders)
    && PaymentRules(db.payments)
    && InvoiceRules(db.invoices)
  }

  // ----- tenant-scoped queries -----

  predicate HasProduct(db: DB, biz: int, id: int) {
    id in db.products && db.products[id].biz == biz && !db.products[id].deleted
  }

  predicate HasCustomer(db: DB, biz: int, id: int) {
    id in db.customers && db.customers[id].biz == biz && !db.customers[id].deleted
  }

  predicate HasInventory(db: DB, biz: int, id: int) {
    id in db.inventories && db.inventories[id].biz == biz
  }

  predicate HasOrder(db: DB, biz: int, id: int) {
    id in db.orders && db.orders[id].biz == biz
  }

  predicate HasPayment(db: DB, biz: int, id: int) {
    id in db.payments && db.payments[id].biz == biz
  }

  predicate HasInvoice(db: DB, biz: int, id: int) {
    id in db.invoices && db.invoices[id].biz == biz
  }

  predicate IsInventoryOf(row: Inventory, biz: int, product: int) {
    row.biz == biz && row.product == product
  }

  /** The inventory row a product-keyed query finds. */
  ghost function FindInventory(t: map<int, Inventory>, biz: int, product: int): (r: Option<int>)
    ensures r.Some? ==> r.value in t && IsInventoryOf(t[r.value], biz, product)
    ensures r.None? ==> forall i | i in t :: !IsInventoryOf(t[i], biz, product)
  {
    if exists i :: i in t && IsInventoryOf(t[i], biz, product) then
      var i :| i in t && IsInventoryOf(t[i], biz, product);
      Some(i)
    else None
  }

  lemma InventoryFound(t: map<int, Inventory>, biz: int, product: int, i: int)
    requires OneRowPerProduct(t)
    requires i in t && IsInventoryOf(t[i], biz, product)
    ensures FindInventory(t, biz, product) == Some(i)
  {
    var r := FindInventory(t, biz, product);
    assert r.Some?;
  }

  // ----- transaction ends -----

  ghost function Refuse(committed: DB, error: Error): Outcome {
    Outcome(committed, [], Err(error))
  }

  /** The commit, the refresh after it, and the events published last. */
  ghost function Finish(committed: DB, working: DB, events: seq<Event>, answer: Answer, fault: Fault): Outcome {
    if !Constraints(working) then Refuse(committed, IntegrityError)
    else match fault
         case AtCommit => Refuse(committed, DatabaseError)
         case AfterCommit => Outcome(working, [], Err(DatabaseError))
         case NoFault => Outcome(working, events, answer)
  }
}
