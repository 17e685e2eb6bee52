/** The in-process event bus (app/common/events.py). */
module Events {
  import opened Schema

  datatype Topic = LowStockTopic | CreatedTopic | ConfirmedTopic | CancelledTopic | SucceededTopic | FailedTopic

  function TopicOf(event: Event): Topic {
    match event
    case LowStock(_, _, _, _) => LowStockTopic
    case OrderCreated(_, _, _) => CreatedTopic
    case OrderConfirmed(_, _, _) => ConfirmedTopic
    case OrderCancelled(_, _, _) => CancelledTopic
    case PaymentSucceeded(_, _, _) => SucceededTopic
    case PaymentFailed(_, _, _, _) => FailedTopic
  }

  /** Events share a topic exactly when they are of one type. */
  lemma TopicsAreTypes(a: Event, b: Event)
    ensures TopicOf(a) == TopicOf(b) <==>
              || (a.LowStock? && b.LowStock?) || (a.OrderCreated? && b.OrderCreated?)
              || (a.OrderConfirmed? && b.OrderConfirmed?) || (a.OrderCancelled? && b.OrderCancelled?)
              || (a.PaymentSucceeded? && b.PaymentSucceeded?) || (a.PaymentFailed? && b.PaymentFailed?)
  {}

  /** A handler called with an event. */
  datatype Delivery = Delivery(handler: int, event: Event)

  function Deliveries(handlers: seq<int>, event: Event): seq<Delivery> {
    seq(|handlers|, i requires 0 <= i < |handlers| => Delivery(handlers[i], event))
  }

  class EventBus {
    var handlers: map<Topic, seq<int>>
    var raising: set<int>  // handlers that raise when called
    var published: seq<Event>
    var delivered: seq<Delivery>

    constructor ()
      ensures handlers == map[] && published == [] && delivered == []
    {
      handlers, raising, published, delivered := map[], {}, [], [];
    }

    function Registered(topic: Topic): seq<int>
      reads this`handlers
    {
      if topic in handlers then handlers[topic] else []
    }

    method Subscribe(topic: Topic, handler: int)
      modifies this`handlers
      ensures forall t :: Registered(t) == old(Registered(t)) + (if t == topic then [handler] else [])
    {
      handlers := handlers[topic := Registered(topic) + [handler]];
    }

    method Call(handler: int, event: Event) returns (raised: bool)
      modifies this`delivered
      ensures delivered == old(delivered) + [Delivery(handler, event)]
    {
      delivered := delivered + [Delivery(handler, event)];
      raised := handler in raising;
    }

    /** Every handler of the event's exact type is called once, in registration order,
        whichever of them raise. */
    method Publish(event: Event)
      modifies this`published, this`delivered
      ensures published == old(published) + [event]
      ensures delivered == old(delivered) + Deliveries(Registered(TopicOf(event)), event)
    {
      published := published + [event];
      var targets := Registered(TopicOf(event));
      for i := 0 to |targets|
        invariant published == old(published) + [event]
        invariant delivered == old(delivered) + Deliveries(targets[..i], event)
      {
        var raised := Call(targets[i], event);
        if raised {
          // logged and swallowed: the publisher and the remaining handlers go on
        }
        assert Deliveries(targets[..i + 1], event)
            == Deliveries(targets[..i], event) + [Delivery(targets[i], event)];
      }
      assert targets[..|targets|] == targets;
    }

    method Clear()
      modifies this`handlers
      ensures forall t :: Registered(t) == []
    {
      handlers := map[];
    }
  }
}
