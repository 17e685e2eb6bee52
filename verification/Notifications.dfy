/** Notifications made from published events, deduplicated by key (app/notification). */
module Notifications {
  import opened Options
  import opened Schema
  import opened Decimals

  datatype NotificationType = LowStockNote | CreatedNote | ConfirmedNote | CancelledNote | PaidNote | PaymentFailedNote

  datatype NotificationDraft = NotificationDraft(biz: int, kind: NotificationType, title: string, body: string,
                         entityType: string, entity: int, key: string)

  // ----- app/notification/messages.py -----

  function KindOf(e: Event): NotificationType {
    match e
    case LowStock(_, _, _, _) => LowStockNote
    case OrderCreated(_, _, _) => CreatedNote
    case OrderConfirmed(_, _, _) => ConfirmedNote
    case OrderCancelled(_, _, _) => CancelledNote
    case PaymentSucceeded(_, _, _) => PaidNote
    case PaymentFailed(_, _, _, _) => PaymentFailedNote
  }

  function KindName(k: NotificationType): string {
    match k
    case LowStockNote => "LOW_STOCK"
    case CreatedNote => "ORDER_CREATED"
    case ConfirmedNote => "ORDER_CONFIRMED"
    case CancelledNote => "ORDER_CANCELLED"
    case PaidNote => "PAYMENT_SUCCESS"
    case PaymentFailedNote => "PAYMENT_FAILED"
  }

  function EntityOf(e: Event): int {
    match e
    case LowStock(_, product, _, _) => product
    case OrderCreated(_, order, _) => order
    case OrderConfirmed(_, order, _) => order
    case OrderCancelled(_, order, _) => order
    case PaymentSucceeded(_, _, payment) => payment
    case PaymentFailed(_, _, payment, _) => payment
  }

  function TitleOf(e: Event): string {
    match e
    case LowStock(_, _, _, _) => "Low stock"
    case OrderCreated(_, _, _) => "Order created"
    case OrderConfirmed(_, _, _) => "Order confirmed"
    case OrderCancelled(_, _, _) => "Order cancelled"
    case PaymentSucceeded(_, _, _) => "Payment received"
    case PaymentFailed(_, _, _, _) => "Payment failed"
  }

  function BodyOf(e: Event): string {
    match e
    case LowStock(_, product, quantity, threshold) =>
      "Product #" + Text(product) + " is low: " + Text(quantity) + " left (threshold " + Text(threshold) + ")."
    case OrderCreated(_, order, _) => "Order #" + Text(order) + " was created."
    case OrderConfirmed(_, order, _) => "Order #" + Text(order) + " was confirmed."
    case OrderCancelled(_, order, _) => "Order #" + Text(order) + " was cancelled."
    case PaymentSucceeded(_, order, _) => "Payment for order #" + Text(order) + " succeeded."
    case PaymentFailed(_, order, _, code) => "Payment for order #" + Text(order) + " failed (" + code + ")."
  }

  function EntityTypeOf(e: Event): string {
    if e.LowStock? then "product"
    else if e.PaymentSucceeded? || e.PaymentFailed? then "payment"
    else "order"
  }

  function Key(kind: NotificationType, entity: int): string {
    KindName(kind) + ":" + Text(entity)
  }

  /** The `from_*` builders. */
  function From(e: Event): NotificationDraft {
    NotificationDraft(e.biz, KindOf(e), TitleOf(e), BodyOf(e), EntityTypeOf(e), EntityOf(e),
                      Key(KindOf(e), EntityOf(e)))
  }

  /** What the owner reads of an order, and the key it is stored under. */
  lemma OrdersInWords(biz: int, order: int, customer: int)
    ensures From(OrderCreated(biz, order, customer))
         == NotificationDraft(biz, CreatedNote, "Order created", "Order #" + Text(order) + " was created.",
                              "order", order, "ORDER_CREATED:" + Text(order))
    ensures From(OrderConfirmed(biz, order, customer))
         == NotificationDraft(biz, ConfirmedNote, "Order confirmed", "Order #" + Text(order) + " was confirmed.",
                              "order", order, "ORDER_CONFIRMED:" + Text(order))
    ensures From(OrderCancelled(biz, order, customer))
         == NotificationDraft(biz, CancelledNote, "Order cancelled", "Order #" + Text(order) + " was cancelled.",
                              "order", order, "ORDER_CANCELLED:" + Text(order))
  {
    hide Text;
  }

  /** The same for stock that runs low and for payments. */
  lemma StockAndPaymentsInWords(biz: int, product: int, quantity: int, threshold: int, order: int, payment: int,
                                code: string)
    ensures From(LowStock(biz, product, quantity, threshold))
         == NotificationDraft(biz, LowStockNote, "Low stock",
                              "Product #" + Text(product) + " is low: " + Text(quantity) + " left (threshold "
                                + Text(threshold) + ").",
                              "product", product, "LOW_STOCK:" + Text(product))
    ensures From(PaymentSucceeded(biz, order, payment))
         == NotificationDraft(biz, PaidNote, "Payment received", "Payment for order #" + Text(order) + " succeeded.",
                              "payment", payment, "PAYMENT_SUCCESS:" + Text(payment))
    ensures From(PaymentFailed(biz, order, payment, code))
         == NotificationDraft(biz, PaymentFailedNote, "Payment failed",
                              "Payment for order #" + Text(order) + " failed (" + code + ").",
                              "payment", payment, "PAYMENT_FAILED:" + Text(payment))
  {
    hide Text;
  }

  lemma KindNamesPlain(k: NotificationType)
    ensures ':' !in KindName(k)
  {}

  lemma KindNamesDiffer(j: NotificationType, k: NotificationType)
    requires KindName(j) == KindName(k)
    ensures j == k
  {
    assert |KindName(LowStockNote)| == 9 && |KindName(CreatedNote)| == 13 && |KindName(PaymentFailedNote)| == 14;
    assert |KindName(ConfirmedNote)| == |KindName(CancelledNote)| == |KindName(PaidNote)| == 15;
    assert KindName(ConfirmedNote)[7] == 'O' && KindName(CancelledNote)[7] == 'A';
    assert KindName(ConfirmedNote)[0] == 'O' && KindName(CancelledNote)[0] == 'O' && KindName(PaidNote)[0] == 'P';
  }

  /** Keys tell apart every two (type, entity) pairs. */
  lemma KeysInjective(j: NotificationType, m: int, k: NotificationType, n: int)
    ensures Key(j, m) == Key(k, n) <==> j == k && m == n
  {
    if Key(j, m) == Key(k, n) {
      var s := Key(j, m);
      KindNamesPlain(j);
      KindNamesPlain(k);
      assert s == KindName(j) + [':'] + Text(m) == KindName(k) + [':'] + Text(n);
      SplitAtSeparator(KindName(j), ':', Text(m));
      SplitAtSeparator(KindName(k), ':', Text(n));
      KindNamesDiffer(j, k);
      TextInjective(m, n);
    }
  }

  // ----- app/notification/service.py -----

  predicate SameKey(a: NotificationDraft, b: NotificationDraft) {
    a.biz == b.biz && a.key == b.key
  }

  predicate Recorded(table: seq<NotificationDraft>, d: NotificationDraft) {
    exists i | 0 <= i < |table| :: SameKey(table[i], d)
  }

  /** `create_from_draft` when the write itself does not fail. */
  function Absorb(table: seq<NotificationDraft>, d: NotificationDraft): seq<NotificationDraft> {
    if Recorded(table, d) then table else table + [d]
  }

  /** The table after every published event has been handled, in order. */
  function Replay(log: seq<Event>): seq<NotificationDraft> {
    if log == [] then [] else Absorb(Replay(log[..|log| - 1]), From(log[|log| - 1]))
  }

  predicate UniqueKeys(table: seq<NotificationDraft>) {
    forall i, j | 0 <= i < j < |table| :: !SameKey(table[i], table[j])
  }

  lemma UniqueAppend(table: seq<NotificationDraft>, d: NotificationDraft)
    requires UniqueKeys(table)
    ensures UniqueKeys(table + [d]) <==> !Recorded(table, d)
  {
    var longer := table + [d];
    if Recorded(table, d) {
      var i :| 0 <= i < |table| && SameKey(table[i], d);
      assert SameKey(longer[i], longer[|table|]);
    }
  }

  class NotificationService {
    var committed: seq<NotificationDraft>
    var working: seq<NotificationDraft>

    predicate Clean()
      reads this
    {
      working == committed && UniqueKeys(committed)
    }

    constructor ()
      ensures Clean() && committed == []
    {
      committed, working := [], [];
    }

    /** Inserts, flushes and commits; a duplicate key is rolled back and is not an error. The
        answer is none for a duplicate, some otherwise; a failed commit raises. */
    method CreateFromDraft(d: NotificationDraft, commitFails: bool)
      returns (raised: bool, created: Option<NotificationDraft>)
      requires Clean()
      modifies this
      ensures working == committed || raised
      ensures UniqueKeys(committed)
      ensures committed == if raised then old(committed) else Absorb(old(committed), d)
      ensures raised <==> commitFails && !Recorded(old(committed), d)
      ensures !raised ==> created == if Recorded(old(committed), d) then None else Some(d)
    {
      UniqueAppend(committed, d);
      working := working + [d];
      if !UniqueKeys(working) {
        working := committed;
        return false, None;
      }
      if commitFails {
        return true, None;
      }
      committed := working;
      return false, Some(d);
    }
  }

  /** `NotificationEventListener.handle`: its own session per event, and nothing ever raised. */
  method Handle(service: NotificationService, e: Event, commitFails: bool)
    requires service.Clean()
    modifies service
    ensures service.Clean()
    ensures service.committed
         == if commitFails then old(service.committed) else Absorb(old(service.committed), From(e))
  {
    var raised, created := service.CreateFromDraft(From(e), commitFails);
    if raised {
      // logged; the session is closed, which discards what it staged
    }
    service.working := service.committed;
  }

  // ----- the table is the first event per key -----

  ghost predicate AllRecorded(table: seq<NotificationDraft>, log: seq<Event>) {
    forall i | 0 <= i < |log| :: Recorded(table, From(log[i]))
  }

  ghost predicate FirstOf(log: seq<Event>, d: NotificationDraft) {
    exists i | 0 <= i < |log| :: IsFirst(log, i) && d == From(log[i])
  }

  /** The table holds, once each, exactly the first event of every key. */
  lemma {:induction false} TableIsFirstPerKey(log: seq<Event>)
    ensures UniqueKeys(Replay(log)) && AllRecorded(Replay(log), log)
    ensures forall d :: d in Replay(log) <==> FirstOf(log, d)
  {
    if log != [] {
      hide From;
      var n, earlier := |log| - 1, log[..|log| - 1];
      TableIsFirstPerKey(earlier);
      var before, d := Replay(earlier), From(log[n]);
      UniqueAppend(before, d);
      RecordedAfter(before, d, log);
      FirstIffNew(log);
      forall e ensures e in Replay(log) <==> FirstOf(log, e) {
        FirstOfLonger(log, e);
      }
    }
  }

  lemma FirstInPrefix(log: seq<Event>, i: int)
    requires 0 <= i < |log| - 1
    ensures IsFirst(log[..|log| - 1], i) <==> IsFirst(log, i)
  {
    hide From, SameKey;
  }

  lemma FirstOfLonger(log: seq<Event>, d: NotificationDraft)
    requires log != []
    ensures var n := |log| - 1;
            FirstOf(log, d) <==> FirstOf(log[..n], d) || (IsFirst(log, n) && d == From(log[n]))
  {
    hide From, IsFirst;
    var n, earlier := |log| - 1, log[..|log| - 1];
    if FirstOf(earlier, d) {
      var i :| 0 <= i < |earlier| && IsFirst(earlier, i) && d == From(earlier[i]);
      FirstInPrefix(log, i);
      assert IsFirst(log, i) && d == From(log[i]);
    }
    if FirstOf(log, d) {
      var i :| 0 <= i < |log| && IsFirst(log, i) && d == From(log[i]);
      if i < n {
        FirstInPrefix(log, i);
        assert IsFirst(earlier, i) && d == From(earlier[i]);
      }
    }
  }

  lemma RecordedAfter(before: seq<NotificationDraft>, d: NotificationDraft, log: seq<Event>)
    requires log != [] && d == From(log[|log| - 1]) && AllRecorded(before, log[..|log| - 1])
    ensures AllRecorded(Absorb(before, d), log)
  {
    hide From;
    var n, earlier, table := |log| - 1, log[..|log| - 1], Absorb(before, d);
    forall i | 0 <= i < |log| ensures Recorded(table, From(log[i])) {
      if i < n {
        assert Recorded(before, From(earlier[i]));
        var k :| 0 <= k < |before| && SameKey(before[k], From(earlier[i]));
        assert SameKey(table[k], From(log[i]));
      } else if !Recorded(before, d) {
        assert SameKey(table[|before|], d);
      }
    }
  }

  /** No earlier event has the same key in the same business. */
  predicate IsFirst(log: seq<Event>, i: int)
    requires 0 <= i < |log|
  {
    forall j | 0 <= j < i :: !SameKey(From(log[j]), From(log[i]))
  }

  lemma FirstIffNew(log: seq<Event>)
    requires log != []
    requires var earlier := log[..|log| - 1];
             && AllRecorded(Replay(earlier), earlier)
             && forall d :: d in Replay(earlier) ==> FirstOf(earlier, d)
    ensures IsFirst(log, |log| - 1) <==> !Recorded(Replay(log[..|log| - 1]), From(log[|log| - 1]))
  {
    hide From;
    var n, earlier := |log| - 1, log[..|log| - 1];
    var before, d := Replay(earlier), From(log[n]);
    if Recorded(before, d) {
      Earlier(earlier, d);
      var i :| 0 <= i < |earlier| && SameKey(From(earlier[i]), d);
      assert SameKey(From(log[i]), From(log[n]));
    }
    if !IsFirst(log, n) {
      var j :| 0 <= j < n && SameKey(From(log[j]), From(log[n]));
      assert Recorded(before, From(earlier[j]));
      var k :| 0 <= k < |before| && SameKey(before[k], From(earlier[j]));
      assert SameKey(before[k], d);
    }
  }

  /** A recorded key comes from an earlier event. */
  lemma Earlier(log: seq<Event>, d: NotificationDraft)
    requires Recorded(Replay(log), d) && forall e :: e in Replay(log) ==> FirstOf(log, e)
    ensures exists i :: 0 <= i < |log| && SameKey(From(log[i]), d)
  {
    hide From;
    var table := Replay(log);
    var k :| 0 <= k < |table| && SameKey(table[k], d);
    assert table[k] in table;
    var i :| 0 <= i < |log| && IsFirst(log, i) && table[k] == From(log[i]);
    assert SameKey(From(log[i]), d);
  }

  // ----- only repeated low-stock warnings are lost -----

  function Lasting(log: seq<Event>): seq<Event> {
    if log == [] then []
    else Lasting(log[..|log| - 1]) + (if log[|log| - 1].LowStock? then [] else [log[|log| - 1]])
  }

  function LastingRows(table: seq<NotificationDraft>): seq<NotificationDraft> {
    if table == [] then []
    else
      var d := table[|table| - 1];
      LastingRows(table[..|table| - 1]) + (if d.kind == LowStockNote then [] else [d])
  }

  function Rows(log: seq<Event>): seq<NotificationDraft> {
    seq(|log|, i requires 0 <= i < |log| => From(log[i]))
  }

  /** Events other than low stock never repeat a key. */
  predicate NoRepeats(log: seq<Event>) {
    forall i, j | 0 <= i < j < |log| && !log[i].LowStock? && !log[j].LowStock? :: !SameKey(From(log[i]), From(log[j]))
  }

  lemma SameKeySameKind(a: Event, b: Event)
    requires SameKey(From(a), From(b))
    ensures KindOf(a) == KindOf(b) && EntityOf(a) == EntityOf(b)
  {
    KeysInjective(KindOf(a), EntityOf(a), KindOf(b), EntityOf(b));
  }

  lemma KindOfRow(e: Event)
    ensures From(e).kind == LowStockNote <==> e.LowStock?
  {}

  /** A lasting event is never absorbed as a duplicate. */
  lemma LastingIsNew(log: seq<Event>)
    requires log != [] && NoRepeats(log) && !log[|log| - 1].LowStock?
    ensures !Recorded(Replay(log[..|log| - 1]), From(log[|log| - 1]))
  {
    hide From;
    var n, earlier := |log| - 1, log[..|log| - 1];
    TableIsFirstPerKey(earlier);
    if Recorded(Replay(earlier), From(log[n])) {
      Earlier(earlier, From(log[n]));
      var i :| 0 <= i < n && SameKey(From(earlier[i]), From(log[n]));
      SameKeySameKind(log[i], log[n]);
      assert false;
    }
  }

  lemma RowsOfLonger(log: seq<Event>, e: Event)
    ensures Rows(log + [e]) == Rows(log) + [From(e)]
  {
    hide From;
  }

  lemma LastingRowsOfLonger(table: seq<NotificationDraft>, d: NotificationDraft)
    ensures LastingRows(table + [d]) == LastingRows(table) + (if d.kind == LowStockNote then [] else [d])
  {
    assert (table + [d])[..|table|] == table;
  }

  lemma NoRepeatsEarlier(log: seq<Event>)
    requires log != [] && NoRepeats(log)
    ensures NoRepeats(log[..|log| - 1])
  {
    hide From, SameKey;
  }

  /** Then the rows that are not low-stock warnings are those events, one for one and in order. */
  lemma {:induction false} OnlyLowStockIsLost(log: seq<Event>)
    requires NoRepeats(log)
    ensures LastingRows(Replay(log)) == Rows(Lasting(log))
  {
    if log != [] {
      hide From, Recorded, NoRepeats, Rows, LastingRows;
      var earlier, e := log[..|log| - 1], log[|log| - 1];
      NoRepeatsEarlier(log);
      OnlyLowStockIsLost(earlier);
      KindOfRow(e);
      LastingRowsOfLonger(Replay(earlier), From(e));
      RowsOfLonger(Lasting(earlier), e);
      if !e.LowStock? {
        LastingIsNew(log);
      } else {
        assert Lasting(log) == Lasting(earlier) && LastingRows(Replay(earlier)) + [] == LastingRows(Replay(earlier));
      }
    } else {
      assert Rows([]) == [];
    }
  }
}
