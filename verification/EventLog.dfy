/** The published log of a run against its tables, and the notifications that come of it. */
module EventLog {
  import opened Options
  import opened Lifecycle
  import opened Schema
  import opened Inventories
  import opened Orders
  import opened Payments
  import opened Invoices
  import opened Api
  import opened Invariant
  import opened MoneyTrail
  import opened Notifications

  /** The committed fact a lasting event announces; it never ceases to hold. */
  ghost predicate Fact(db: DB, kind: NotificationType, biz: int, entity: int) {
    match kind
    case LowStockNote => true
    case CreatedNote => IsOrderOf(db, biz, entity)
    case ConfirmedNote => IsOrderOf(db, biz, entity) && db.orders[entity].status != Created
    case CancelledNote => IsOrderOf(db, biz, entity) && db.orders[entity].status == Cancelled
    case PaidNote => HasPayment(db, biz, entity) && db.payments[entity].status == Success
    case PaymentFailedNote => HasPayment(db, biz, entity) && db.payments[entity].status == Failed
  }

  ghost predicate Holds(db: DB, e: Event) {
    Fact(db, KindOf(e), e.biz, EntityOf(e))
  }

  lemma FactsLast(db: DB, next: DB, kind: NotificationType, biz: int, entity: int)
    requires Frozen(db, next) && Fact(db, kind, biz, entity)
    ensures Fact(next, kind, biz, entity)
  {
    if kind in {PaidNote, PaymentFailedNote} {
      assert SameAttempt(db.payments[entity], next.payments[entity]);
    } else if kind != LowStockNote {
      assert SameOrder(db.orders[entity], next.orders[entity]);
    }
  }

  /** The events of one call: true afterwards, news if lasting, and at most one of them lasting. */
  ghost predicate SoundEvents(db: DB, next: DB, events: seq<Event>) {
    && (forall e | e in events :: Holds(next, e) && (!e.LowStock? ==> !Holds(db, e)))
    && forall i, j | 0 <= i < j < |events| :: events[i].LowStock? || events[j].LowStock?
  }

  lemma NoEvents(db: DB, next: DB)
    ensures SoundEvents(db, next, [])
  {}

  lemma {:induction false} StagedLows(db: DB, biz: int, lines: seq<Line>, sign: int, actor: Option<int>)
    ensures var r := StageLines(db, biz, lines, sign, actor);
            r.Staged? ==> forall e | e in r.lows :: e.LowStock?
  {
    if lines != [] {
      StagedLows(db, biz, lines[..|lines| - 1], sign, actor);
    }
  }

  lemma WarningsSound(db: DB, next: DB, lows: seq<Event>)
    requires forall e | e in lows :: e.LowStock?
    ensures SoundEvents(db, next, lows)
  {}

  lemma OneLasting(db: DB, next: DB, lows: seq<Event>, e: Event)
    requires forall x | x in lows :: x.LowStock?
    requires Holds(next, e) && !Holds(db, e)
    ensures SoundEvents(db, next, lows + [e])
  {
    var events := lows + [e];
    forall x | x in events ensures Holds(next, x) && (!x.LowStock? ==> !Holds(db, x)) {
      assert x in lows || x == e;
    }
  }

  lemma EffectLows(db: DB, order: Order, effect: InventoryEffect, actor: Option<int>)
    ensures var r := ApplyEffect(db, order, effect, actor);
            r.Staged? ==> r.db.orders == db.orders && forall e | e in r.lows :: e.LowStock?
  {
    StagedLows(db, order.biz, order.lines, StockSign(effect), actor);
    StageLinesKeepsOthers(db, order.biz, order.lines, StockSign(effect), actor);
  }

  lemma LifecycleSound(db: DB, mid: DB, id: int, event: OrderEvent, to: OrderStatus, lows: seq<Event>)
    requires id in db.orders && mid.orders == db.orders
    requires Rule(db.orders[id].status, event).Some? && Rule(db.orders[id].status, event).value.to == to
    requires forall e | e in lows :: e.LowStock?
    ensures SoundEvents(db, WithStatus(mid, id, to), lows + LifecycleEvents(db.orders[id], id, to))
  {
    hide SoundEvents;
    var order := db.orders[id];
    var next := WithStatus(mid, id, to);
    if to == Confirmed {
      OneLasting(db, next, lows, OrderConfirmed(order.biz, id, order.customer));
    } else if to == Cancelled {
      OneLasting(db, next, lows, OrderCancelled(order.biz, id, order.customer));
    } else {
      assert lows + LifecycleEvents(order, id, to) == lows;
      WarningsSound(db, next, lows);
    }
  }

  lemma TransitionSound(db: DB, biz: int, id: int, event: OrderEvent, actor: Option<int>, fault: Fault)
    ensures var o := TransitionSpec(db, db, biz, id, event, actor, fault); SoundEvents(db, o.db, o.events)
  {
    hide SoundEvents, Constraints, ApplyEffect, LifecycleEvents;
    var o := TransitionSpec(db, db, biz, id, event, actor, fault);
    NoEvents(db, o.db);
    if HasOrder(db, biz, id) && Rule(db.orders[id].status, event).Some? {
      var order := db.orders[id];
      var rule := Rule(order.status, event).value;
      EffectLows(db, order, rule.effect, actor);
      var staged := ApplyEffect(db, order, rule.effect, actor);
      if staged.Staged? {
        LifecycleSound(db, staged.db, id, event, rule.to, staged.lows);
      }
    }
  }

  lemma SucceedSound(db: DB, id: int, reference: Option<string>, actor: Option<int>, now: int, fault: Fault)
    requires Inv(db) && id in db.payments && Verifiable(db.payments[id].status)
    requires IsOrderOf(db, db.payments[id].biz, db.payments[id].order)
    requires db.orders[db.payments[id].order].status == Confirmed
    ensures var o := SucceedSpec(db, id, reference, actor, now, fault); SoundEvents(db, o.db, o.events)
  {
    hide Inv, SoundEvents, Constraints, SucceedSpec;
    SucceedOutcome(db, id, reference, actor, now, fault);
    var o := SucceedSpec(db, id, reference, actor, now, fault);
    NoEvents(db, o.db);
    var e := PaymentSucceeded(db.payments[id].biz, db.payments[id].order, id);
    if o.events == [e] {
      OneLasting(db, o.db, [], e);
      assert [] + [e] == [e];
    }
  }

  lemma FailSound(db: DB, id: int, code: string, fault: Fault)
    requires id in db.payments && db.payments[id].status != Failed
    ensures var o := FailSpec(db, id, code, fault); SoundEvents(db, o.db, o.events)
  {
    hide SoundEvents, Constraints;
    var o := FailSpec(db, id, code, fault);
    NoEvents(db, o.db);
    var e := PaymentFailed(db.payments[id].biz, db.payments[id].order, id, code);
    if o.events == [e] {
      OneLasting(db, o.db, [], e);
      assert [] + [e] == [e];
    }
  }

  lemma PaymentCallsSound(db: DB, biz: int, id: int, answer: Option<Verification>, actor: Option<int>, now: int,
                          fault: Fault)
    requires Inv(db)
    ensures var o := VerifySpec(db, biz, id, answer, actor, now, fault); SoundEvents(db, o.db, o.events)
    ensures var o := ConfirmCodSpec(db, biz, id, actor, now, fault); SoundEvents(db, o.db, o.events)
  {
    hide Inv, SoundEvents, Constraints, SucceedSpec, FailSpec;
    NoEvents(db, VerifySpec(db, biz, id, answer, actor, now, fault).db);
    NoEvents(db, ConfirmCodSpec(db, biz, id, actor, now, fault).db);
    if Eligible(db, biz, id, Online).None? && answer.Some? {
      AttemptFacts(db, id);
      SucceedSound(db, id, Some(answer.value.gatewayPayment), actor, now, fault);
      if Mismatch(db.payments[id], answer.value).Some? {
        FailSound(db, id, Mismatch(db.payments[id], answer.value).value, fault);
      }
    }
    if Eligible(db, biz, id, Cod).None? {
      AttemptFacts(db, id);
      SucceedSound(db, id, None, actor, now, fault);
    }
  }

  lemma CreateOrderSound(db: DB, biz: int, customer: int, items: seq<ItemIn>, rate: real, id: int, fault: Fault)
    ensures var o := CreateOrderSpec(db, biz, customer, items, rate, id, fault); SoundEvents(db, o.db, o.events)
  {
    hide SoundEvents, Constraints, PricedLines;
    var o := CreateOrderSpec(db, biz, customer, items, rate, id, fault);
    NoEvents(db, o.db);
    var e := OrderCreated(biz, id, customer);
    if o.events == [e] {
      OneLasting(db, o.db, [], e);
      assert [] + [e] == [e];
    }
  }

  lemma AdjustSound(db: DB, biz: int, id: int, delta: int, kind: MovementType, actor: Option<int>, fault: Fault)
    ensures var o := AdjustStockSpec(db, biz, id, delta, kind, actor, fault); SoundEvents(db, o.db, o.events)
  {
    hide SoundEvents, Constraints;
    var o := AdjustStockSpec(db, biz, id, delta, kind, actor, fault);
    WarningsSound(db, o.db, o.events);
  }

  lemma SilentCalls(config: Config, db: DB, call: Call)
    requires call.SaveProduct? || call.SaveCustomer? || call.CreateInventory? || call.UpdateThreshold?
          || call.Initiate? || call.GetPdf?
    ensures Step(config, db, call).events == []
  {
    hide Constraints, AttachPdf, NewPayment;
  }

  lemma SilentGenerate(db: DB, biz: int, order: int, year: nat, business: string, currency: string, id: int,
                       url: Option<string>, fault: Fault)
    ensures GenerateSpec(db, biz, order, year, business, currency, id, url, fault).events == []
  {
    hide Constraints, AttachPdf, Draft;
  }

  lemma StepSound(config: Config, db: DB, call: Call)
    requires Inv(db)
    ensures var o := Step(config, db, call); SoundEvents(db, o.db, o.events)
  {
    hide Inv, SoundEvents, TransitionSpec, VerifySpec, ConfirmCodSpec, CreateOrderSpec, GenerateSpec, AdjustStockSpec,
         InitiateSpec, CreateInventorySpec, UpdateThresholdSpec, GetPdfSpec, SaveProductSpec, SaveCustomerSpec;
    NoEvents(db, Step(config, db, call).db);
    match call
    case AdjustStock(b, id, delta, kind, actor, fault) =>
      AdjustSound(db, b, id, delta, kind, actor, fault);
    case AdjustByProduct(b, product, delta, kind, actor, fault) =>
      var found := FindInventory(db.inventories, b, product);
      if found.Some? {
        AdjustSound(db, b, found.value, delta, kind, actor, fault);
      }
    case CreateOrder(b, customer, items, id, fault) =>
      CreateOrderSound(db, b, customer, items, config.rate, id, fault);
    case TransitionOrder(b, id, event, actor, fault) =>
      TransitionSound(db, b, id, event, actor, fault);
    case Verify(b, id, answer, actor, now, fault) =>
      PaymentCallsSound(db, b, id, answer, actor, now, fault);
    case ConfirmCod(b, id, actor, now, fault) =>
      PaymentCallsSound(db, b, id, None, actor, now, fault);
    case Generate(b, order, year, business, id, url, fault) =>
      SilentGenerate(db, b, order, year, business, config.currency, id, url, fault);
    case _ => SilentCalls(config, db, call);
  }

  // ----- runs -----

  ghost predicate LogSound(db: DB, log: seq<Event>) {
    NoRepeats(log) && forall e | e in log :: Holds(db, e)
  }

  lemma LogGrows(db: DB, next: DB, log: seq<Event>, events: seq<Event>)
    requires LogSound(db, log) && Frozen(db, next) && SoundEvents(db, next, events)
    ensures LogSound(next, log + events)
  {
    hide Fact, From, SameKey, Frozen;
    var longer := log + events;
    forall e | e in longer ensures Holds(next, e) {
      if e in log {
        FactsLast(db, next, KindOf(e), e.biz, EntityOf(e));
      }
    }
    forall i, j | |log| <= i < j < |longer| ensures longer[i].LowStock? || longer[j].LowStock? {
      assert events[i - |log|].LowStock? || events[j - |log|].LowStock?;
    }
    forall i, j | 0 <= i < j < |longer| && !longer[i].LowStock? && !longer[j].LowStock?
      ensures !SameKey(From(longer[i]), From(longer[j]))
    {
      if j >= |log| {
        assert longer[j] in events && longer[i] in log;
        OldKeyNotNew(db, longer[i], longer[j]);
      }
    }
  }

  lemma OldKeyNotNew(db: DB, a: Event, b: Event)
    requires Holds(db, a) && !Holds(db, b)
    ensures !SameKey(From(a), From(b))
  {
    if SameKey(From(a), From(b)) {
      SameKeySameKind(a, b);
    }
  }

  lemma {:induction false} RunLogSound(config: Config, calls: seq<Call>)
    ensures LogSound(Run(config, calls).db, Run(config, calls).log)
  {
    if calls != [] {
      hide Inv, Step, SoundEvents, Frozen, LogSound;
      var earlier := calls[..|calls| - 1];
      var before := Run(config, earlier);
      RunLogSound(config, earlier);
      RunKeepsInv(config, earlier);
      StepSound(config, before.db, calls[|calls| - 1]);
      StepFreezes(config, before.db, calls[|calls| - 1]);
      LogGrows(before.db, Step(config, before.db, calls[|calls| - 1]).db, before.log,
               Step(config, before.db, calls[|calls| - 1]).events);
    }
  }

  /** In every run, once each published event has been handled: the notification table is the first
      event of every key, and deduplication has dropped repeated low-stock warnings alone. */
  lemma NotificationsOfRun(config: Config, calls: seq<Call>)
    ensures var log := Run(config, calls).log;
            && LastingRows(Replay(log)) == Rows(Lasting(log))
            && (forall d :: d in Replay(log) <==> FirstOf(log, d))
            && UniqueKeys(Replay(log))
  {
    RunLogSound(config, calls);
    OnlyLowStockIsLost(Run(config, calls).log);
    TableIsFirstPerKey(Run(config, calls).log);
  }

  /** A published event of an order or a payment announces what the tables say, and is never
      published twice for the same entity. */
  lemma EventsOncePerEntity(config: Config, calls: seq<Call>)
    ensures var t := Run(config, calls);
            && (forall e | e in t.log && !e.LowStock? :: Holds(t.db, e))
            && forall i, j | 0 <= i < j < |t.log| && !t.log[i].LowStock? ::
                 && Holds(t.db, t.log[i])
                 && !(KindOf(t.log[i]) == KindOf(t.log[j]) && t.log[i].biz == t.log[j].biz
                      && EntityOf(t.log[i]) == EntityOf(t.log[j]))
  {
    RunLogSound(config, calls);
    var t := Run(config, calls);
    hide Run;
    forall i, j | 0 <= i < j < |t.log| && !t.log[i].LowStock?
      ensures Holds(t.db, t.log[i])
      ensures !(KindOf(t.log[i]) == KindOf(t.log[j]) && t.log[i].biz == t.log[j].biz
                && EntityOf(t.log[i]) == EntityOf(t.log[j]))
    {
      assert t.log[i] in t.log;
      KeysInjective(KindOf(t.log[i]), EntityOf(t.log[i]), KindOf(t.log[j]), EntityOf(t.log[j]));
      assert t.log[j].LowStock? ==> KindOf(t.log[j]) == LowStockNote;
    }
  }
}
