/** Publisher of internal/order/events.go: one short-lived channel per event. */
module Publishing {
  import opened Prelude
  import opened Orders
  import opened Topology
  import Rfc3339

  /** How the write of a publish ends: an error does not tell whether it got through. */
  datatype Write = Written | Lost | WrittenButError

  /** What the broker does with a mandatory publish. */
  datatype Fate = Routed | Returned

  class Connection {
    var broker: Broker
    var contents: map<string, seq<Event>>   // what each queue has received
    var open: set<nat>                      // the channels that are open
    var unopened: nat                         // no channel has had this number or a later one

    predicate Valid()
      reads this
    {
      && contents.Keys == broker.queues.Keys
      && (forall b :: b in broker.bindings ==> b.queue in broker.queues)
      && forall c :: c in open ==> c < unopened
    }

    constructor (broker: Broker)
      requires forall b :: b in broker.bindings ==> b.queue in broker.queues
      ensures Valid() && this.broker == broker && open == {}
      ensures contents == map q | q in broker.queues :: []
    {
      this.broker := broker;
      contents := map q | q in broker.queues :: [];
      open := {};
      unopened := 0;
    }

    /** The broker takes a message for an exchange. */
    method Accept(exchange: string, key: string, event: Event) returns (fate: Fate)
      requires Valid()
      modifies this`contents
      ensures Valid()
      ensures contents == Delivered(old(contents), Routes(broker, exchange, key), event)
      ensures fate == if Routes(broker, exchange, key) == {} then Returned else Routed
    {
      var queues := Routes(broker, exchange, key);
      fate := if queues == {} then Returned else Routed;
      contents := Delivered(contents, queues, event);
    }

    /** PublishOrderCreated. On success the channel belongs to AwaitReturn; on every
        error it is closed. */
    method PublishOrderCreated(event: Event, opens: bool, write: Write)
      returns (channel: Option<nat>, fate: Option<Fate>)
      requires Valid()
      modifies this
      ensures Valid() && broker == old(broker)
      ensures channel.Some? <==> opens && Rfc3339.Printable(event.createdAt) && write.Written?
      ensures channel.Some? ==> channel.value !in old(open) && open == old(open) + {channel.value}
      ensures channel.None? ==> open == old(open)
      ensures contents == Announced(old(contents), broker, event, opens && !write.Lost?)
      ensures channel.Some? ==>
        fate == Some(if Routes(broker, EVENTS_EXCHANGE, CREATED_ROUTING_KEY) == {} then Returned else Routed)
    {
      channel, fate := None, None;
      if !opens {
        return;
      }
      var c := unopened;
      unopened := unopened + 1;
      open := open + {c};
      if !Rfc3339.Printable(event.createdAt) {
        open := open - {c};
        return;
      }
      if !write.Lost? {
        var f := Accept(EVENTS_EXCHANGE, CREATED_ROUTING_KEY, event);
        fate := Some(f);
      }
      if !write.Written? {
        open := open - {c};
        return;
      }
      channel := Some(c);
    }

    /** awaitReturn: whether the return arrives in time or not, the channel closes. */
    method AwaitReturn(channel: nat, fate: Fate, inTime: bool) returns (warned: bool)
      requires Valid() && channel in open
      modifies this`open
      ensures Valid() && open == old(open) - {channel}
      ensures warned ==> fate == Returned
    {
      warned := fate == Returned && inTime;
      open := open - {channel};
    }

    /** A whole publish, with its goroutine run to the end. */
    method Announce(event: Event, opens: bool, write: Write, inTime: bool) returns (ok: bool)
      requires Valid()
      modifies this
      ensures Valid() && broker == old(broker)
      ensures open == old(open)                // no channel is left behind, whatever fails
      ensures ok <==> opens && Rfc3339.Printable(event.createdAt) && write.Written?
      ensures contents == Announced(old(contents), broker, event, opens && !write.Lost?)
    {
      var channel, fate := PublishOrderCreated(event, opens, write);
      ok := channel.Some?;
      if ok {
        var warned := AwaitReturn(channel.value, fate.value, inTime);
      }
    }
  }

  /** Every queue on the route receives the event once. */
  function Delivered(contents: map<string, seq<Event>>, queues: set<string>, event: Event): map<string, seq<Event>> {
    map q | q in contents :: if q in queues then contents[q] + [event] else contents[q]
  }

  /** What the queues hold after a publish of the event. */
  function Announced(contents: map<string, seq<Event>>, broker: Broker, event: Event, sent: bool): map<string, seq<Event>> {
    if sent && Rfc3339.Printable(event.createdAt)
    then Delivered(contents, Routes(broker, EVENTS_EXCHANGE, CREATED_ROUTING_KEY), event)
    else contents
  }

  /** A publish adds the event once to the work queue of a broker with the full
      routing. With no binding it adds it nowhere, and the publisher, whose result does
      not depend on the routing, reports success all the same. */
  lemma AnnouncedWhere(contents: map<string, seq<Event>>, broker: Broker, event: Event)
    requires Rfc3339.Printable(event.createdAt)
    ensures Routes(broker, EVENTS_EXCHANGE, CREATED_ROUTING_KEY) == {ORDER_QUEUE} && ORDER_QUEUE in contents ==>
      Announced(contents, broker, event, true) == contents[ORDER_QUEUE := contents[ORDER_QUEUE] + [event]]
    ensures Routes(broker, EVENTS_EXCHANGE, CREATED_ROUTING_KEY) == {} ==>
      Announced(contents, broker, event, true) == contents
  {
  }

  /** Once one consumer has completed its setup, whatever the others do, an event goes
      to the work queue and to no other; before the queue is bound it goes nowhere. */
  lemma EventsReachTheWorkQueue(w: World, k: nat, order: seq<nat>, contents: map<string, seq<Event>>, event: Event)
    requires Consistent(w, k)
    ensures Interleave(w, order).Ok?
    ensures var b := Interleave(w, order).value.broker;
      var after := Delivered(contents, Routes(b, EVENTS_EXCHANGE, CREATED_ROUTING_KEY), event);
      contents.Keys == b.queues.Keys ==>
        if Binding(ORDER_QUEUE, EVENTS_EXCHANGE, CREATED_ROUTING_KEY) in b.bindings
        then ORDER_QUEUE in contents && after == contents[ORDER_QUEUE := contents[ORDER_QUEUE] + [event]]
        else after == contents
  {
    var after, reached := NoConflict(w, k, order);
    var b := after.broker;
    if Binding(ORDER_QUEUE, EVENTS_EXCHANGE, CREATED_ROUTING_KEY) in b.bindings {
      assert reached >= 7;
      FullRouting();
    } else {
      assert Routes(b, EVENTS_EXCHANGE, CREATED_ROUTING_KEY) == {};
    }
  }
}
