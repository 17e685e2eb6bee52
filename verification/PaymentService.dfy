/** Payment attempts and how one of them pays an order (app/payment/service.py). */
module Payments {
  import opened Options
  import opened Lifecycle
  import opened Schema
  import opened Sessions
  import opened Events
  import opened Orders

  /** `VERIFIABLE_FROM` */
  predicate Verifiable(s: PaymentStatus) {
    s in {Initiated, Pending}
  }

  datatype GatewayStatus = GatewaySuccess | GatewayFailed | GatewayPending

  /** What the gateway says about a payment; any answer is possible. */
  datatype Verification = Verification(status: GatewayStatus, gatewayPayment: string, gatewayOrder: string,
                                       amount: int, currency: string)

  predicate SucceededFor(p: Payment, biz: int, order: int) {
    p.biz == biz && p.order == order && p.status == Success
  }

  predicate PaidFor(db: DB, biz: int, order: int) {
    exists i | i in db.payments :: SucceededFor(db.payments[i], biz, order)
  }

  predicate KeyedBy(p: Payment, biz: int, key: string) {
    p.biz == biz && p.key == Some(key)
  }

  ghost function FindByKey(t: map<int, Payment>, biz: int, key: string): (r: Option<int>)
    ensures r.Some? ==> r.value in t && KeyedBy(t[r.value], biz, key)
    ensures r.None? ==> forall i | i in t :: !KeyedBy(t[i], biz, key)
  {
    if exists i :: i in t && KeyedBy(t[i], biz, key) then
      var i :| i in t && KeyedBy(t[i], biz, key);
      Some(i)
    else None
  }

  lemma KeyFound(t: map<int, Payment>, biz: int, key: string, i: int)
    requires PaymentRules(t) && i in t && KeyedBy(t[i], biz, key)
    ensures FindByKey(t, biz, key) == Some(i)
  {
    var r := FindByKey(t, biz, key);
    assert r.Some? && (r.value != i ==> PaymentsClash(t[r.value], t[i]));
  }

  // ----- what each operation does to the tables -----

  /** `gateway` is the gateway's order reference, or none when it could not be reached. */
  ghost function InitiateSpec(db: DB, biz: int, order: int, via: PaymentMethod, key: Option<string>,
                              gateway: Option<string>, currency: string, id: int, fault: Fault): Outcome
  {
    if !HasOrder(db, biz, order) then Refuse(db, NotFound)
    else if db.orders[order].status != Confirmed then Refuse(db, PaymentState)
    else if PaidFor(db, biz, order) then Refuse(db, PaymentState)
    else if key.Some? && FindByKey(db.payments, biz, key.value).Some?
    then Outcome(db, [], Ok(FindByKey(db.payments, biz, key.value).value))
    else if via == Online && gateway.None? then Refuse(db, ProviderUnavailable)
    else
      var row := NewPayment(db.orders[order], order, via, key, gateway, currency);
      var next := db.(payments := db.payments[id := row]);
      if id in db.payments || !Constraints(next) then Refuse(db, Conflict)
      else Finish(db, next, [], Ok(id), fault)
  }

  function NewPayment(order: Order, orderId: int, via: PaymentMethod, key: Option<string>,
                      gateway: Option<string>, currency: string): Payment
  {
    Payment(order.biz, orderId, via, order.total, currency, Initiated,
            if via == Online then gateway else None, None, key, None, None)
  }

  function SetPayment(db: DB, id: int, p: Payment): DB {
    db.(payments := db.payments[id := p])
  }

  /** `_fail`: the attempt ends FAILED, and the caller is told by an exception. */
  ghost function FailSpec(db: DB, id: int, code: string, fault: Fault): Outcome
    requires id in db.payments
  {
    var p := db.payments[id];
    Finish(db, SetPayment(db, id, p.(status := Failed, failure := Some(code))),
           [PaymentFailed(p.biz, p.order, id, code)], Err(PaymentMismatch), fault)
  }

  function Succeeded(p: Payment, reference: Option<string>, now: int): Payment {
    p.(gatewayPayment := reference, status := Success, verifiedAt := Some(now))
  }

  /** `_succeed`: the flush of SUCCESS, then the order's PAY transition, whose single commit
      carries both rows. */
  ghost function SucceedSpec(db: DB, id: int, reference: Option<string>, actor: Option<int>, now: int,
                             fault: Fault): Outcome
    requires id in db.payments
  {
    var p := db.payments[id];
    var staged := SetPayment(db, id, Succeeded(p, reference, now));
    if !Constraints(staged) then Refuse(db, PaymentState)
    else
      var paid := TransitionSpec(db, staged, p.biz, p.order, Pay, actor, fault);
      match paid.answer
      case Ok(_) => Outcome(paid.db, paid.events + [PaymentSucceeded(p.biz, p.order, id)], Ok(id))
      case Err(error) => if error in {IntegrityError, Conflict} then Refuse(db, PaymentState) else paid
  }

  /** The checks `verify` and `confirm_cod` share before they act on an attempt. */
  ghost function Eligible(db: DB, biz: int, id: int, via: PaymentMethod): Option<Outcome> {
    if !HasPayment(db, biz, id) then Some(Refuse(db, NotFound))
    else
      var p := db.payments[id];
      if p.via != via then Some(Refuse(db, PaymentState))
      else if p.status == Success then Some(Outcome(db, [], Ok(id)))
      else if !Verifiable(p.status) then Some(Refuse(db, PaymentState))
      else if !HasOrder(db, biz, p.order) then Some(Refuse(db, NotFound))
      else if db.orders[p.order].status != Confirmed then Some(Refuse(db, PaymentState))
      else None
  }

  ghost function VerifySpec(db: DB, biz: int, id: int, gateway: Option<Verification>, actor: Option<int>,
                            now: int, fault: Fault): Outcome
  {
    match Eligible(db, biz, id, Online)
    case Some(outcome) => outcome
    case None =>
      var p := db.payments[id];
      match gateway
      case None => Refuse(db, ProviderUnavailable)
      case Some(v) =>
        if v.status == GatewayPending
        then Finish(db, SetPayment(db, id, p.(status := Pending)), [], Ok(id), fault)
        else match Mismatch(p, v)
             case Some(code) => FailSpec(db, id, code, fault)
             case None => SucceedSpec(db, id, Some(v.gatewayPayment), actor, now, fault)
  }

  /** The first reason, in the order the service checks, not to accept a final gateway answer. */
  function Mismatch(p: Payment, v: Verification): Option<string> {
    if v.status == GatewayFailed then Some("provider_failed")
    else if v.gatewayOrder != Reference(p.gatewayOrder) then Some("reference_mismatch")
    else if v.amount != p.amount then Some("amount_mismatch")
    else if v.currency != p.currency then Some("currency_mismatch")
    else None
  }

  function Reference(r: Option<string>): string {
    if r.Some? then r.value else ""
  }

  ghost function ConfirmCodSpec(db: DB, biz: int, id: int, actor: Option<int>, now: int, fault: Fault): Outcome {
    match Eligible(db, biz, id, Cod)
    case Some(outcome) => outcome
    case None => SucceedSpec(db, id, None, actor, now, fault)
  }

  lemma PayOutcome(committed: DB, working: DB, biz: int, order: int, actor: Option<int>, fault: Fault)
    requires HasOrder(working, biz, order)
    ensures var paid := TransitionSpec(committed, working, biz, order, Pay, actor, fault);
            && paid.answer != Err(NotFound)
            && (paid.answer in {Err(IntegrityError), Err(Conflict)} ==> paid.db == committed)
            && (paid.answer.Err? ==> paid.events == [])
  {}

  // ----- the service -----

  class PaymentService {
    const session: Session
    const bus: EventBus
    const orders: OrderService
    const currency: string

    constructor (session: Session, bus: EventBus, orders: OrderService, currency: string)
      ensures this.session == session && this.bus == bus && this.orders == orders && this.currency == currency
    {
      this.session, this.bus, this.orders, this.currency := session, bus, orders, currency;
    }

    ghost predicate Wired() {
      orders.session == session && orders.inventory.session == session && orders.bus == bus
    }

    method ByKey(biz: int, key: string) returns (r: Option<int>)
      requires session.Clean()
      ensures r == FindByKey(session.working.payments, biz, key)
    {
      if i :| i in session.working.payments && KeyedBy(session.working.payments[i], biz, key) {
        KeyFound(session.working.payments, biz, key, i);
        r := Some(i);
      } else {
        r := None;
      }
    }

    method Initiate(biz: int, order: int, via: PaymentMethod, key: Option<string>, gateway: Option<string>,
                    id: int, fault: Fault)
      returns (answer: Answer)
      requires session.Clean()
      modifies session
      ensures session.Clean()
      ensures var spec := InitiateSpec(old(session.committed), biz, order, via, key, gateway, currency, id, fault);
              session.committed == spec.db && answer == spec.answer && spec.events == []
    {
      if !HasOrder(session.working, biz, order) {
        return Err(NotFound);
      }
      var row := session.working.orders[order];
      if row.status != Confirmed {
        return Err(PaymentState);
      }
      if PaidFor(session.working, biz, order) {
        return Err(PaymentState);
      }
      if key.Some? {
        var existing := ByKey(biz, key.value);
        if existing.Some? {
          return Ok(existing.value);
        }
      }
      if via == Online && gateway.None? {
        return Err(ProviderUnavailable);
      }
      answer := Insert(NewPayment(row, order, via, key, gateway, currency), id, fault);
    }

    /** The insert of `initiate`; when the database refuses it, an attempt that holds the key by
        then is returned instead. */
    method Insert(p: Payment, id: int, fault: Fault) returns (answer: Answer)
      requires session.Clean()
      modifies session
      ensures session.Clean()
      ensures var db := old(session.committed);
              var next := SetPayment(db, id, p);
              if id in db.payments || !Constraints(next) then
                && session.committed == db
                && answer == if p.key.Some? && FindByKey(db.payments, p.biz, p.key.value).Some?
                             then Ok(FindByKey(db.payments, p.biz, p.key.value).value)
                             else Err(Conflict)
              else
                var spec := Finish(db, next, [], Ok(id), fault);
                session.committed == spec.db && answer == spec.answer
    {
      var duplicate := id in session.working.payments;
      session.working := SetPayment(session.working, id, p);
      var sound := session.Flush();
      if duplicate || !sound {
        session.Rollback();
        if p.key.Some? {
          var existing := ByKey(p.biz, p.key.value);
          if existing.Some? {
            return Ok(existing.value);
          }
        }
        return Err(Conflict);
      }
      var error := session.Commit(fault);
      if error.Some? {
        session.Rollback();
        return Err(error.value);
      }
      var ok := session.Refresh(fault);
      answer := if ok then Ok(id) else Err(DatabaseError);
    }

    /** The shared guard: an answer when the call ends here, none when it may go on. */
    method Check(biz: int, id: int, via: PaymentMethod) returns (done: Option<Answer>)
      requires session.Clean()
      modifies session`working
      ensures session.Clean()
      ensures match Eligible(session.committed, biz, id, via)
              case Some(outcome) => done == Some(outcome.answer)
              case None => done == None
    {
      if !HasPayment(session.working, biz, id) {
        session.Rollback();
        return Some(Err(NotFound));
      }
      var p := session.working.payments[id];
      if p.via != via {
        session.Rollback();
        return Some(Err(PaymentState));
      }
      if p.status == Success {
        session.Rollback();
        return Some(Ok(id));
      }
      if !Verifiable(p.status) {
        session.Rollback();
        return Some(Err(PaymentState));
      }
      if !HasOrder(session.working, biz, p.order) {
        return Some(Err(NotFound));
      }
      if session.working.orders[p.order].status != Confirmed {
        session.Rollback();
        return Some(Err(PaymentState));
      }
      done := None;
    }

    method Verify(biz: int, id: int, gateway: Option<Verification>, actor: Option<int>, now: int, fault: Fault)
      returns (answer: Answer)
      requires session.Clean() && Wired()
      modifies session, bus
      ensures session.Clean()
      ensures var spec := VerifySpec(old(session.committed), biz, id, gateway, actor, now, fault);
              && session.committed == spec.db && answer == spec.answer
              && bus.published == old(bus.published) + spec.events
    {
      var done := Check(biz, id, Online);
      if done.Some? {
        return done.value;
      }
      var p := session.working.payments[id];
      if gateway.None? {
        session.Rollback();
        return Err(ProviderUnavailable);
      }
      var v := gateway.value;
      if v.status == GatewayPending {
        session.working := SetPayment(session.working, id, p.(status := Pending));
        var error := session.Commit(fault);
        if error.Some? {
          session.Rollback();
          return Err(error.value);
        }
        var ok := session.Refresh(fault);
        return if ok then Ok(id) else Err(DatabaseError);
      }
      var mismatch := Mismatch(p, v);
      if mismatch.Some? {
        answer := Fail(id, mismatch.value, fault);
      } else {
        answer := Succeed(id, Some(v.gatewayPayment), actor, now, fault);
      }
    }

    method ConfirmCod(biz: int, id: int, actor: Option<int>, now: int, fault: Fault) returns (answer: Answer)
      requires session.Clean() && Wired()
      modifies session, bus
      ensures session.Clean()
      ensures var spec := ConfirmCodSpec(old(session.committed), biz, id, actor, now, fault);
              && session.committed == spec.db && answer == spec.answer
              && bus.published == old(bus.published) + spec.events
    {
      var done := Check(biz, id, Cod);
      if done.Some? {
        return done.value;
      }
      answer := Succeed(id, None, actor, now, fault);
    }

    method Succeed(id: int, reference: Option<string>, actor: Option<int>, now: int, fault: Fault)
      returns (answer: Answer)
      requires session.Clean() && Wired() && id in session.working.payments
      requires HasOrder(session.working, session.working.payments[id].biz, session.working.payments[id].order)
      modifies session, bus
      ensures session.Clean()
      ensures var spec := SucceedSpec(old(session.committed), id, reference, actor, now, fault);
              && session.committed == spec.db && answer == spec.answer
              && bus.published == old(bus.published) + spec.events
    {
      var p := session.working.payments[id];
      session.working := SetPayment(session.working, id, Succeeded(p, reference, now));
      var sound := session.Flush();
      if !sound {
        session.Rollback();
        return Err(PaymentState);
      }
      PayOutcome(session.committed, session.working, p.biz, p.order, actor, fault);
      var paid := orders.Transition(p.biz, p.order, Pay, actor, fault);
      if paid.Err? {
        if paid.error in {IntegrityError, Conflict} {
          session.Rollback();
          return Err(PaymentState);
        }
        return paid;
      }
      bus.Publish(PaymentSucceeded(p.biz, p.order, id));
      answer := Ok(id);
    }

    method Fail(id: int, code: string, fault: Fault) returns (answer: Answer)
      requires session.Clean() && id in session.working.payments
      modifies session, bus
      ensures session.Clean()
      ensures var spec := FailSpec(old(session.committed), id, code, fault);
              && session.committed == spec.db && answer == spec.answer
              && bus.published == old(bus.published) + spec.events
    {
      var p := session.working.payments[id];
      session.working := SetPayment(session.working, id, p.(status := Failed, failure := Some(code)));
      var error := session.Commit(fault);
      if error.Some? {
        session.Rollback();
        return Err(error.value);
      }
      var ok := session.Refresh(fault);
      if !ok {
        return Err(DatabaseError);
      }
      bus.Publish(PaymentFailed(p.biz, p.order, id, code));
      answer := Err(PaymentMismatch);
    }
  }
}
