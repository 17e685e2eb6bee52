/** Analytics computes the same money twice, from orders and from payments (app/analytics/service.py). */
module Reconciliation {
  import opened Options
  import opened Lifecycle
  import opened Schema
  import opened MapSums
  import opened Inventories
  import opened Orders
  import opened Payments
  import opened Invoices
  import opened Api
  import opened Invariant
  import opened Conservation

  /** What an aggregate adds per row: the amount, or one. */
  datatype Measure = Amounts | Rows

  function Measured(m: Measure, cents: int): int {
    if m == Amounts then cents else 1
  }

  ghost function SaleOf(biz: int, m: Measure): Order -> int {
    (o: Order) => if o.biz == biz && InSales(o.status) then Measured(m, o.total) else 0
  }

  ghost function ReceiptOf(biz: int, m: Measure): Payment -> int {
    (p: Payment) => if p.biz == biz && p.status == Success then Measured(m, p.amount) else 0
  }

  /** `sales_summary` over all time. */
  ghost function Sales(db: DB, biz: int, m: Measure): int {
    Sum(db.orders, SaleOf(biz, m))
  }

  /** `payment_totals` over all time. */
  ghost function Receipts(db: DB, biz: int, m: Measure): int {
    Sum(db.payments, ReceiptOf(biz, m))
  }

  ghost function Gap(db: DB, biz: int, m: Measure): int {
    Sales(db, biz, m) - Receipts(db, biz, m)
  }

  lemma SameTablesSameGap(a: DB, b: DB, biz: int, m: Measure)
    requires a.orders == b.orders && a.payments == b.payments
    ensures Gap(a, biz, m) == Gap(b, biz, m)
  {}

  lemma StatusGap(db: DB, id: int, to: OrderStatus, biz: int, m: Measure)
    requires id in db.orders
    ensures Gap(WithStatus(db, id, to), biz, m)
         == Gap(db, biz, m)
            + (if db.orders[id].biz == biz
               then Measured(m, db.orders[id].total)
                      * ((if InSales(to) then 1 else 0) - (if InSales(db.orders[id].status) then 1 else 0))
               else 0)
  {
    SumPut(db.orders, SaleOf(biz, m), id, db.orders[id].(status := to));
  }

  lemma AttemptGap(db: DB, id: int, p: Payment, biz: int, m: Measure)
    requires p.status != Success && (id in db.payments ==> db.payments[id].status != Success)
    ensures Gap(SetPayment(db, id, p), biz, m) == Gap(db, biz, m)
  {
    SumPut(db.payments, ReceiptOf(biz, m), id, p);
  }

  lemma PaidGap(db: DB, id: int, reference: Option<string>, now: int, biz: int, m: Measure)
    requires id in db.payments && db.payments[id].status != Success
    requires AmountMatches(db, db.payments[id]) && IsOrderOf(db, db.payments[id].biz, db.payments[id].order)
    requires db.orders[db.payments[id].order].status == Confirmed
    ensures Gap(PaidState(db, id, reference, now), biz, m) == Gap(db, biz, m)
  {
    var paid := Succeeded(db.payments[id], reference, now);
    SumPut(db.payments, ReceiptOf(biz, m), id, paid);
    StatusGap(SetPayment(db, id, paid), paid.order, Paid, biz, m);
  }

  lemma NewOrderGap(db: DB, id: int, order: Order, biz: int, m: Measure)
    requires id !in db.orders && order.status == Created
    ensures Gap(db.(orders := db.orders[id := order]), biz, m) == Gap(db, biz, m)
  {
    SumPut(db.orders, SaleOf(biz, m), id, order);
  }

  lemma SucceedGap(db: DB, id: int, reference: Option<string>, actor: Option<int>, now: int, fault: Fault,
                   biz: int, m: Measure)
    requires Inv(db) && id in db.payments && Verifiable(db.payments[id].status)
    requires IsOrderOf(db, db.payments[id].biz, db.payments[id].order)
    requires db.orders[db.payments[id].order].status == Confirmed
    ensures Gap(SucceedSpec(db, id, reference, actor, now, fault).db, biz, m) == Gap(db, biz, m)
  {
    hide Inv, Gap, Constraints, SucceedSpec;
    AttemptFacts(db, id);
    SucceedOutcome(db, id, reference, actor, now, fault);
    PaidGap(db, id, reference, now, biz, m);
  }

  lemma PaymentCallsGap(db: DB, biz: int, id: int, answer: Option<Verification>, actor: Option<int>, now: int,
                        fault: Fault, b: int, m: Measure)
    requires Inv(db)
    ensures Gap(VerifySpec(db, biz, id, answer, actor, now, fault).db, b, m) == Gap(db, b, m)
    ensures Gap(ConfirmCodSpec(db, biz, id, actor, now, fault).db, b, m) == Gap(db, b, m)
  {
    hide Inv, Gap, Constraints, SucceedSpec;
    if Eligible(db, biz, id, Online).None? && answer.Some? {
      var p := db.payments[id];
      AttemptFacts(db, id);
      SucceedGap(db, id, Some(answer.value.gatewayPayment), actor, now, fault, b, m);
      AttemptGap(db, id, p.(status := Pending), b, m);
      AttemptGap(db, id, p.(status := Failed, failure := Mismatch(p, answer.value)), b, m);
    }
    if Eligible(db, biz, id, Cod).None? {
      AttemptFacts(db, id);
      SucceedGap(db, id, None, actor, now, fault, b, m);
    }
  }

  lemma TransitionGap(db: DB, biz: int, id: int, event: OrderEvent, actor: Option<int>, fault: Fault,
                      b: int, m: Measure)
    requires Inv(db) && event != Pay
    ensures Gap(TransitionSpec(db, db, biz, id, event, actor, fault).db, b, m) == Gap(db, b, m)
  {
    hide Inv, Gap, Constraints, ApplyEffect, LifecycleEvents;
    if HasOrder(db, biz, id) && Rule(db.orders[id].status, event).Some? {
      var order := db.orders[id];
      var rule := Rule(order.status, event).value;
      var staged := ApplyEffect(db, order, rule.effect, actor);
      if staged.Staged? {
        EffectKeepsMoney(db, order, rule.effect, actor);
        SameTablesSameGap(db, staged.db, b, m);
        StatusGap(staged.db, id, rule.to, b, m);
      }
    }
  }

  lemma EffectKeepsMoney(db: DB, order: Order, effect: InventoryEffect, actor: Option<int>)
    ensures var r := ApplyEffect(db, order, effect, actor);
            r.Staged? ==> r.db.orders == db.orders && r.db.payments == db.payments
  {
    StageLinesKeepsOthers(db, order.biz, order.lines, StockSign(effect), actor);
  }

  lemma CreateOrderGap(db: DB, biz: int, customer: int, items: seq<ItemIn>, rate: real, id: int, fault: Fault,
                       b: int, m: Measure)
    ensures Gap(CreateOrderSpec(db, biz, customer, items, rate, id, fault).db, b, m) == Gap(db, b, m)
  {
    hide Gap, Constraints;
    var next := CreateOrderSpec(db, biz, customer, items, rate, id, fault).db;
    if id !in db.orders && id in next.orders {
      NewOrderGap(db, id, next.orders[id], b, m);
    }
  }

  lemma InitiateGap(db: DB, biz: int, order: int, via: PaymentMethod, key: Option<string>, gateway: Option<string>,
                    currency: string, id: int, fault: Fault, b: int, m: Measure)
    ensures Gap(InitiateSpec(db, biz, order, via, key, gateway, currency, id, fault).db, b, m) == Gap(db, b, m)
  {
    hide Gap, Constraints;
    if HasOrder(db, biz, order) && id !in db.payments {
      AttemptGap(db, id, NewPayment(db.orders[order], order, via, key, gateway, currency), b, m);
    }
  }

  lemma OtherCallsKeepMoney(config: Config, db: DB, call: Call)
    requires call.SaveProduct? || call.SaveCustomer? || call.CreateInventory? || call.UpdateThreshold?
          || call.AdjustStock? || call.AdjustByProduct? || call.Generate? || call.GetPdf?
    ensures var next := Step(config, db, call).db; next.orders == db.orders && next.payments == db.payments
  {
    hide Constraints, GenerateSpec, PdfKey;
    if call.Generate? {
      GenerateKeepsStock(db, call.biz, call.order, call.year, call.business, config.currency, call.id, call.url,
                         call.fault);
    }
  }

  lemma StepReconciles(config: Config, db: DB, call: Call, biz: int, m: Measure)
    requires Inv(db)
    ensures Gap(Step(config, db, call).db, biz, m) == Gap(db, biz, m)
  {
    hide Inv, Gap, TransitionSpec, VerifySpec, ConfirmCodSpec, CreateOrderSpec, InitiateSpec;
    match call
    case CreateOrder(b, customer, items, id, fault) =>
      CreateOrderGap(db, b, customer, items, config.rate, id, fault, biz, m);
    case TransitionOrder(b, id, event, actor, fault) =>
      if event != Pay {
        TransitionGap(db, b, id, event, actor, fault, biz, m);
      }
    case Initiate(b, order, via, key, gateway, id, fault) =>
      InitiateGap(db, b, order, via, key, gateway, config.currency, id, fault, biz, m);
    case Verify(b, id, answer, actor, now, fault) =>
      PaymentCallsGap(db, b, id, answer, actor, now, fault, biz, m);
    case ConfirmCod(b, id, actor, now, fault) =>
      PaymentCallsGap(db, b, id, None, actor, now, fault, biz, m);
    case _ =>
      hide Step;
      OtherCallsKeepMoney(config, db, call);
      SameTablesSameGap(db, Step(config, db, call).db, biz, m);
  }

  /** After every run, whatever failed on the way: all-time revenue and order count are the
      all-time payment total and count of every business. */
  lemma {:induction false} RunReconciles(config: Config, calls: seq<Call>, biz: int)
    ensures var db := Run(config, calls).db;
            && Sales(db, biz, Amounts) == Receipts(db, biz, Amounts)
            && Sales(db, biz, Rows) == Receipts(db, biz, Rows)
  {
    RunGap(config, calls, biz, Amounts);
    RunGap(config, calls, biz, Rows);
  }

  lemma {:induction false} RunGap(config: Config, calls: seq<Call>, biz: int, m: Measure)
    ensures Gap(Run(config, calls).db, biz, m) == 0
  {
    if calls == [] {
      SumZero(EMPTY.orders, SaleOf(biz, m));
      SumZero(EMPTY.payments, ReceiptOf(biz, m));
    } else {
      hide Inv, Gap, Step;
      var earlier := calls[..|calls| - 1];
      RunKeepsInv(config, earlier);
      RunGap(config, earlier, biz, m);
      StepReconciles(config, Run(config, earlier).db, calls[|calls| - 1], biz, m);
    }
  }

  /** Order by order: in a sales state exactly when one and only one attempt succeeded, and that
      attempt carries the order's total. */
  lemma PaidByExactlyOne(db: DB, id: int)
    requires Inv(db) && id in db.orders
    ensures InSales(db.orders[id].status) <==>
            exists p | p in db.payments ::
              && db.payments[p].order == id && db.payments[p].status == Success
              && db.payments[p].amount == db.orders[id].total && db.payments[p].biz == db.orders[id].biz
              && forall q | q in db.payments && db.payments[q].order == id && db.payments[q].status == Success :: q == p
  {
    assert PaidExactly(db, id);
    if InSales(db.orders[id].status) {
      var p :| p in db.payments && SucceededFor(db.payments[p], db.orders[id].biz, id);
      assert AmountMatches(db, db.payments[p]);
      forall q | q in db.payments && db.payments[q].order == id && db.payments[q].status == Success
        ensures q == p
      {
        assert q != p ==> PaymentsClash(db.payments[q], db.payments[p]);
      }
    }
  }

  // ----- counts by status -----

  ghost function InStatus(biz: int, s: OrderStatus): Order -> int {
    (o: Order) => if o.biz == biz && o.status == s then 1 else 0
  }

  ghost function StatusCount(db: DB, biz: int, s: OrderStatus): int {
    Sum(db.orders, InStatus(biz, s))
  }

  const STATUSES: seq<OrderStatus> :=
    [Created, Confirmed, Paid, Packed, Shipped, Delivered, Completed, Cancelled]

  /** `order_counts_by_status`: every status starts at zero, then each group overwrites its own. */
  method CountsByStatus(groups: seq<(OrderStatus, nat)>) returns (counts: map<OrderStatus, nat>)
    requires forall i, j | 0 <= i < j < |groups| :: groups[i].0 != groups[j].0
    ensures forall s :: s in counts
    ensures forall i | 0 <= i < |groups| :: counts[groups[i].0] == groups[i].1
    ensures forall s | (forall i | 0 <= i < |groups| :: groups[i].0 != s) :: counts[s] == 0
  {
    counts := map s | s in STATUSES :: 0;
    assert forall s: OrderStatus :: s in STATUSES by {
      forall s: OrderStatus ensures s in STATUSES {
        StatusListed(s);
      }
    }
    for i := 0 to |groups|
      invariant forall s :: s in counts
      invariant forall k | 0 <= k < i :: counts[groups[k].0] == groups[k].1
      invariant forall s | (forall k | 0 <= k < i :: groups[k].0 != s) :: counts[s] == 0
    {
      var before := counts;
      counts := counts[groups[i].0 := groups[i].1];
      forall s | (forall k | 0 <= k < i + 1 :: groups[k].0 != s) ensures counts[s] == 0 {
        assert groups[i].0 != s && before[s] == 0;
      }
    }
  }

  lemma StatusListed(s: OrderStatus)
    ensures s in STATUSES
  {
    assert STATUSES[Rank(s) + (if s == Cancelled then 1 else 0)] == s;
  }

  ghost function InAny(biz: int, states: set<OrderStatus>): Order -> int {
    (o: Order) => if o.biz == biz && o.status in states then 1 else 0
  }

  lemma OneMoreStatus(m: map<int, Order>, biz: int, states: set<OrderStatus>, s: OrderStatus)
    requires s !in states
    ensures Sum(m, InAny(biz, states + {s})) == Sum(m, InAny(biz, states)) + Sum(m, InStatus(biz, s))
  {
    SumAdd(m, InAny(biz, states), InStatus(biz, s), InAny(biz, states + {s}));
  }

  lemma SalesAreSalesStates(m: map<int, Order>, biz: int, states: set<OrderStatus>)
    requires forall s :: s in states <==> InSales(s)
    ensures Sum(m, SaleOf(biz, Rows)) == Sum(m, InAny(biz, states))
  {
    SumSame(m, SaleOf(biz, Rows), m, InAny(biz, states));
  }

  lemma NoStatusNoOrder(m: map<int, Order>, biz: int)
    ensures Sum(m, InAny(biz, {})) == 0
  {
    SumZero(m, InAny(biz, {}));
  }

  lemma CountsAdd(m: map<int, Order>, biz: int)
    ensures Sum(m, SaleOf(biz, Rows))
         == Sum(m, InStatus(biz, Paid)) + Sum(m, InStatus(biz, Packed)) + Sum(m, InStatus(biz, Shipped))
            + Sum(m, InStatus(biz, Delivered)) + Sum(m, InStatus(biz, Completed))
  {
    hide InAny, InStatus, SaleOf, Sum;
    var none: set<OrderStatus> := {};
    var one, two := none + {Paid}, none + {Paid} + {Packed};
    var three, four := two + {Shipped}, two + {Shipped} + {Delivered};
    OneMoreStatus(m, biz, none, Paid);
    OneMoreStatus(m, biz, one, Packed);
    OneMoreStatus(m, biz, two, Shipped);
    OneMoreStatus(m, biz, three, Delivered);
    OneMoreStatus(m, biz, four, Completed);
    NoStatusNoOrder(m, biz);
    SalesAreSalesStates(m, biz, four + {Completed});
  }

  /** The dashboard's per-status counts of paid-or-later orders add up to the number of
      successful payments. */
  lemma StatusCountsMatchReceipts(config: Config, calls: seq<Call>, biz: int)
    ensures var db := Run(config, calls).db;
            StatusCount(db, biz, Paid) + StatusCount(db, biz, Packed) + StatusCount(db, biz, Shipped)
            + StatusCount(db, biz, Delivered) + StatusCount(db, biz, Completed)
            == Receipts(db, biz, Rows)
  {
    CountsAdd(Run(config, calls).db.orders, biz);
    RunReconciles(config, calls, biz);
  }
}
