/** The guarded order lifecycle (app/order/models.py). */
module Lifecycle {
  import opened Options

  datatype OrderStatus = Created | Confirmed | Paid | Packed | Shipped | Delivered | Completed | Cancelled

  datatype OrderEvent = Confirm | Cancel | Pay | Pack | Ship | Deliver | Close

  datatype InventoryEffect = Unchanged | Decrement | Restore

  datatype Transition = Transition(to: OrderStatus, effect: InventoryEffect)

  /** The `TRANSITIONS` table; a missing entry is an illegal transition. */
  function Rule(status: OrderStatus, event: OrderEvent): Option<Transition> {
    match (status, event)
    case (Created, Confirm) => Some(Transition(Confirmed, Decrement))
    case (Created, Cancel) => Some(Transition(Cancelled, Unchanged))
    case (Confirmed, Pay) => Some(Transition(Paid, Unchanged))
    case (Confirmed, Cancel) => Some(Transition(Cancelled, Restore))
    case (Paid, Pack) => Some(Transition(Packed, Unchanged))
    case (Packed, Ship) => Some(Transition(Shipped, Unchanged))
    case (Shipped, Deliver) => Some(Transition(Delivered, Unchanged))
    case (Delivered, Close) => Some(Transition(Completed, Unchanged))
    case _ => None
  }

  /** `SALES_STATES` and `INVOICEABLE_STATES`: paid or later. */
  predicate InSales(s: OrderStatus) {
    s in {Paid, Packed, Shipped, Delivered, Completed}
  }

  /** The order's demand has been taken out of stock. */
  predicate HoldsStock(s: OrderStatus) {
    s == Confirmed || InSales(s)
  }

  /** Signed multiple of the order's demand that an effect adds to stock. */
  function StockSign(effect: InventoryEffect): int {
    match effect
    case Unchanged => 0
    case Decrement => -1
    case Restore => 1
  }

  function Rank(s: OrderStatus): nat {
    match s
    case Created => 0
    case Confirmed => 1
    case Paid => 2
    case Packed => 3
    case Shipped => 4
    case Delivered => 5
    case Completed => 6
    case Cancelled => 6
  }

  function HeldUnits(s: OrderStatus): int {
    if HoldsStock(s) then 1 else 0
  }

  /** What one order goes through: its status, how many events were accepted, and the
      net multiple of its demand added to stock. Illegal events are refused and skipped. */
  datatype Course = Course(status: OrderStatus, accepted: nat, net: int)

  function Follow(status: OrderStatus, word: seq<OrderEvent>): Course {
    if word == [] then Course(status, 0, 0)
    else
      var before := Follow(status, word[..|word| - 1]);
      match Rule(before.status, word[|word| - 1])
      case None => before
      case Some(rule) => Course(rule.to, before.accepted + 1, before.net + StockSign(rule.effect))
  }

  /** For every event word: the net stock effect is decided by the end statuses alone, the
      rank grows by at least one per accepted event, so no order sees more than six. */
  lemma {:induction false} CourseBounded(status: OrderStatus, word: seq<OrderEvent>)
    ensures var c := Follow(status, word);
            && c.net == HeldUnits(status) - HeldUnits(c.status)
            && Rank(status) + c.accepted <= Rank(c.status)
            && c.accepted <= 6
            && (c.accepted == 0 <==> c.status == status)
  {
    if word != [] {
      CourseBounded(status, word[..|word| - 1]);
    }
  }

  /** A fresh order's words: net zero or minus one demand, and once cancelled always back to zero. */
  lemma FreshOrderCourse(word: seq<OrderEvent>)
    ensures var c := Follow(Created, word);
            && c.net == (if HoldsStock(c.status) then -1 else 0)
            && c.accepted <= 6
            && (c.status == Cancelled ==> c.net == 0 && c.accepted <= 2)
  {
    CourseBounded(Created, word);
    CancelledEarly(word);
  }

  lemma {:induction false} CancelledEarly(word: seq<OrderEvent>)
    ensures var c := Follow(Created, word);
            if c.status == Cancelled then c.accepted <= 2 else c.accepted == Rank(c.status)
  {
    if word != [] {
      CancelledEarly(word[..|word| - 1]);
    }
  }

  /** The bound is reached: the six events of a completed sale. */
  lemma SixIsReached()
    ensures Follow(Created, [Confirm, Pay, Pack, Ship, Deliver, Close]) == Course(Completed, 6, -1)
  {
    assert [] + [Confirm] == [Confirm] && [Confirm] + [Pay] == [Confirm, Pay]
        && [Confirm, Pay] + [Pack] == [Confirm, Pay, Pack]
        && [Confirm, Pay, Pack] + [Ship] == [Confirm, Pay, Pack, Ship]
        && [Confirm, Pay, Pack, Ship] + [Deliver] == [Confirm, Pay, Pack, Ship, Deliver]
        && [Confirm, Pay, Pack, Ship, Deliver] + [Close] == [Confirm, Pay, Pack, Ship, Deliver, Close];
    FollowLonger(Created, [], Confirm);
    FollowLonger(Created, [Confirm], Pay);
    FollowLonger(Created, [Confirm, Pay], Pack);
    FollowLonger(Created, [Confirm, Pay, Pack], Ship);
    FollowLonger(Created, [Confirm, Pay, Pack, Ship], Deliver);
    FollowLonger(Created, [Confirm, Pay, Pack, Ship, Deliver], Close);
  }

  lemma FollowLonger(status: OrderStatus, word: seq<OrderEvent>, event: OrderEvent)
    ensures var before, c := Follow(status, word), Follow(status, word + [event]);
            match Rule(before.status, event)
            case None => c == before
            case Some(rule) => c == Course(rule.to, before.accepted + 1, before.net + StockSign(rule.effect))
  {
    assert (word + [event])[..|word|] == word;
  }

  /** A sale is for good: from a sales state no events lead anywhere but to other sales states, and
      completed and cancelled orders stay what they are. */
  lemma {:induction false} PaidForGood(status: OrderStatus, word: seq<OrderEvent>)
    ensures InSales(status) ==> InSales(Follow(status, word).status)
    ensures status in {Completed, Cancelled} ==> Follow(status, word) == Course(status, 0, 0)
  {
    if word != [] {
      PaidForGood(status, word[..|word| - 1]);
    }
  }
}
