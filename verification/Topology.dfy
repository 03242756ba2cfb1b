/** The broker topology: SetupTopology of internal/execution/topology.go and
    SetupMessaging of internal/order/events.go. */
module Topology {
  import opened Prelude
  import Delivery

  const EVENTS_EXCHANGE := "order_events"
  const CREATED_ROUTING_KEY := "order.created"
  const ORDER_QUEUE := "order_execution"
  const DEAD_LETTER_EXCHANGE := "order_execution.dlx"
  const DEAD_LETTER_QUEUE := "order_execution.dlq"
  const DEAD_LETTER_ROUTING_KEY := "order_execution.dlq"
  const RETRY_QUEUE := "order_execution.retry"
  const DEFAULT_EXCHANGE := ""

  datatype Kind = Direct | OtherKind

  /** The arguments of a queue: where dead letters go, and how long messages live. */
  datatype Arguments = Arguments(deadLetter: Option<(string, string)>, ttl: Option<nat>)

  datatype Binding = Binding(queue: string, exchange: string, key: string)

  datatype Broker = Broker(exchanges: map<string, Kind>, queues: map<string, Arguments>, bindings: set<Binding>)

  datatype Declaration =
    | DeclareExchange(name: string)                    // durable and direct
    | DeclareQueue(name: string, arguments: Arguments) // durable
    | Bind(binding: Binding)

  datatype Refusal = PreconditionFailed | NotFound

  /** Declaring again with the same parameters does nothing; with others it fails. */
  function Apply(b: Broker, d: Declaration): Result<Broker, Refusal> {
    match d
    case DeclareExchange(name) =>
      if name in b.exchanges && b.exchanges[name] != Direct then Err(PreconditionFailed)
      else Ok(b.(exchanges := b.exchanges[name := Direct]))
    case DeclareQueue(name, arguments) =>
      if name in b.queues && b.queues[name] != arguments then Err(PreconditionFailed)
      else Ok(b.(queues := b.queues[name := arguments]))
    case Bind(binding) =>
      if binding.queue !in b.queues || binding.exchange !in b.exchanges then Err(NotFound)
      else Ok(b.(bindings := b.bindings + {binding}))
  }

  function ApplyAll(b: Broker, ds: seq<Declaration>): Result<Broker, Refusal> {
    if ds == [] then Ok(b)
    else match ApplyAll(b, ds[..|ds| - 1])
      case Err(e) => Err(e)
      case Ok(before) => Apply(before, ds[|ds| - 1])
  }

  const ORDER_ARGUMENTS := Arguments(Some((DEAD_LETTER_EXCHANGE, DEAD_LETTER_ROUTING_KEY)), None)
  const RETRY_ARGUMENTS := Arguments(Some((DEFAULT_EXCHANGE, ORDER_QUEUE)), Some(Delivery.RETRY_DELAY_MS))
  const NO_ARGUMENTS := Arguments(None, None)

  /** What a consumer declares, in order; the API declares the first of these. */
  const SETUP: seq<Declaration> := [
    DeclareExchange(EVENTS_EXCHANGE),
    DeclareExchange(DEAD_LETTER_EXCHANGE),
    DeclareQueue(DEAD_LETTER_QUEUE, NO_ARGUMENTS),
    Bind(Binding(DEAD_LETTER_QUEUE, DEAD_LETTER_EXCHANGE, DEAD_LETTER_ROUTING_KEY)),
    DeclareQueue(ORDER_QUEUE, ORDER_ARGUMENTS),
    DeclareQueue(RETRY_QUEUE, RETRY_ARGUMENTS),
    Bind(Binding(ORDER_QUEUE, EVENTS_EXCHANGE, CREATED_ROUTING_KEY))]

  // ---------------------------------------------------------------------
  // SetupTopology as a program on a channel

  /** A channel to a broker. Calls past the first `calls` ones fail. */
  class Channel {
    var broker: Broker
    var calls: nat

    constructor (broker: Broker, calls: nat)
      ensures this.broker == broker && this.calls == calls
    {
      this.broker := broker;
      this.calls := calls;
    }

    method Declare(d: Declaration) returns (ok: bool)
      modifies this
      ensures ok == (old(calls) > 0 && Apply(old(broker), d).Ok?)
      ensures broker == if ok then Apply(old(broker), d).value else old(broker)
      ensures old(calls) > 0 ==> calls == old(calls) - 1
    {
      if calls == 0 {
        return false;
      }
      calls := calls - 1;
      match Apply(broker, d) {
        case Ok(after) =>
          broker := after;
          return true;
        case Err(_) =>
          return false;
      }
    }

    method SetupMessaging() returns (ok: bool)
      modifies this
      ensures ok == (old(calls) > 0 && Apply(old(broker), SETUP[0]).Ok?)
      ensures broker == if ok then Apply(old(broker), SETUP[0]).value else old(broker)
      ensures old(calls) > 0 ==> calls == old(calls) - 1
    {
      ok := Declare(DeclareExchange(EVENTS_EXCHANGE));
    }

    /** It stops at the first error: what was declared until then stays declared. */
    method SetupTopology() returns (ok: bool, ghost done: nat)
      modifies this
      ensures done <= |SETUP| && ApplyAll(old(broker), SETUP[..done]) == Ok(broker)
      ensures ok <==> done == |SETUP|
      ensures !ok ==> old(calls) == done || ApplyAll(old(broker), SETUP[..done + 1]).Err?
    {
      ghost var start := broker;
      assert SETUP[..0] == [] && SETUP[..|SETUP|] == SETUP;
      done := 0;
      SetupStep(start, 0);
      ok := SetupMessaging();
      if !ok { return; }
      done := 1;
      SetupStep(start, 1);
      ok := Declare(DeclareExchange(DEAD_LETTER_EXCHANGE));
      if !ok { return; }
      done := 2;
      SetupStep(start, 2);
      ok := Declare(DeclareQueue(DEAD_LETTER_QUEUE, NO_ARGUMENTS));
      if !ok { return; }
      done := 3;
      SetupStep(start, 3);
      ok := Declare(Bind(Binding(DEAD_LETTER_QUEUE, DEAD_LETTER_EXCHANGE, DEAD_LETTER_ROUTING_KEY)));
      if !ok { return; }
      done := 4;
      SetupStep(start, 4);
      ok := Declare(DeclareQueue(ORDER_QUEUE, ORDER_ARGUMENTS));
      if !ok { return; }
      done := 5;
      SetupStep(start, 5);
      ok := Declare(DeclareQueue(RETRY_QUEUE, RETRY_ARGUMENTS));
      if !ok { return; }
      done := 6;
      SetupStep(start, 6);
      ok := Declare(Bind(Binding(ORDER_QUEUE, EVENTS_EXCHANGE, CREATED_ROUTING_KEY)));
      if !ok { return; }
      done := 7;
    }
  }

  /** The first k + 1 declarations are the first k and then one more. */
  ghost predicate SetupExtends(b: Broker, k: nat)
    requires k < |SETUP|
  {
    ApplyAll(b, SETUP[..k + 1]) ==
      match ApplyAll(b, SETUP[..k])
      case Err(e) => Err(e)
      case Ok(before) => Apply(before, SETUP[k])
  }

  lemma SetupStep(b: Broker, k: nat)
    requires k < |SETUP|
    ensures SetupExtends(b, k)
  {
    assert SETUP[..k + 1][..k] == SETUP[..k];
  }

  // ---------------------------------------------------------------------
  // Any number of setups, interleaved

  /** A broker on which the first k declarations, and no others, have happened. */
  function Built(k: nat): Broker {
    Broker(
      (if k >= 1 then map[EVENTS_EXCHANGE := Direct] else map[])
        + (if k >= 2 then map[DEAD_LETTER_EXCHANGE := Direct] else map[]),
      (if k >= 3 then map[DEAD_LETTER_QUEUE := NO_ARGUMENTS] else map[])
        + (if k >= 5 then map[ORDER_QUEUE := ORDER_ARGUMENTS] else map[])
        + (if k >= 6 then map[RETRY_QUEUE := RETRY_ARGUMENTS] else map[]),
      (if k >= 4 then {Binding(DEAD_LETTER_QUEUE, DEAD_LETTER_EXCHANGE, DEAD_LETTER_ROUTING_KEY)} else {})
        + (if k >= 7 then {Binding(ORDER_QUEUE, EVENTS_EXCHANGE, CREATED_ROUTING_KEY)} else {}))
  }

  lemma DeclaringAgain(p: nat, k: nat)
    requires p <= k <= |SETUP| && p < |SETUP|
    ensures Apply(Built(k), SETUP[p]) == Ok(Built(if p == k then k + 1 else k))
  {
    if SETUP[p].DeclareExchange? { ExchangeAgain(p, k); }
    else if SETUP[p].DeclareQueue? { QueueAgain(p, k); }
    else { BindingAgain(p, k); }
  }

  lemma ExchangeAgain(p: nat, k: nat)
    requires p <= k <= |SETUP| && p < |SETUP| && SETUP[p].DeclareExchange?
    ensures Apply(Built(k), SETUP[p]) == Ok(Built(if p == k then k + 1 else k))
  {
    assert p == 0 || p == 1;
    var after := Apply(Built(k), SETUP[p]).value;
    assert after.exchanges == Built(if p == k then k + 1 else k).exchanges;
  }

  lemma QueueAgain(p: nat, k: nat)
    requires p <= k <= |SETUP| && p < |SETUP| && SETUP[p].DeclareQueue?
    ensures Apply(Built(k), SETUP[p]) == Ok(Built(if p == k then k + 1 else k))
  {
    assert p == 2 || p == 4 || p == 5;
    var after := Apply(Built(k), SETUP[p]).value;
    assert after.queues == Built(if p == k then k + 1 else k).queues;
  }

  lemma BindingAgain(p: nat, k: nat)
    requires p <= k <= |SETUP| && p < |SETUP| && SETUP[p].Bind?
    ensures Apply(Built(k), SETUP[p]) == Ok(Built(if p == k then k + 1 else k))
  {
    assert p == 3 || p == 6;
    var after := Apply(Built(k), SETUP[p]).value;
    assert after.bindings == Built(if p == k then k + 1 else k).bindings;
  }

  /** A process in its setup: an API stops after its one declaration, a consumer after
      all of them, and either can stop before. */
  datatype Setup = Setup(length: nat, done: nat)

  datatype World = World(broker: Broker, setups: seq<Setup>)

  predicate CanDeclare(w: World, i: nat) {
    i < |w.setups| && w.setups[i].done < w.setups[i].length <= |SETUP|
  }

  /** Setup i makes its next declaration. */
  function DeclareNext(w: World, i: nat): Result<World, Refusal>
    requires CanDeclare(w, i)
  {
    match Apply(w.broker, SETUP[w.setups[i].done])
    case Err(e) => Err(e)
    case Ok(b) => Ok(World(b, w.setups[i := w.setups[i].(done := w.setups[i].done + 1)]))
  }

  /** The declarations in this order, by the setups of these numbers. */
  function Interleave(w: World, order: seq<nat>): Result<World, Refusal> {
    if order == [] then Ok(w)
    else match Interleave(w, order[..|order| - 1])
      case Err(e) => Err(e)
      case Ok(before) =>
        var i := order[|order| - 1];
        if CanDeclare(before, i) then DeclareNext(before, i) else Ok(before)
  }

  predicate Consistent(w: World, k: nat) {
    k <= |SETUP| && w.broker == Built(k) && forall i :: 0 <= i < |w.setups| ==> w.setups[i].done <= k
  }

  /** No interleaving conflicts, and the broker is always a prefix of the full setup. */
  lemma {:induction false} NoConflict(w: World, k: nat, order: seq<nat>) returns (after: World, reached: nat)
    requires Consistent(w, k)
    ensures Interleave(w, order) == Ok(after) && Consistent(after, reached) && k <= reached
    ensures |after.setups| == |w.setups|
  {
    if order == [] { return w, k; }
    after, reached := NoConflict(w, k, order[..|order| - 1]);
    var i := order[|order| - 1];
    if CanDeclare(after, i) {
      var p := after.setups[i].done;
      DeclaringAgain(p, reached);
      after := DeclareNext(after, i).value;
      reached := if p == reached then reached + 1 else reached;
    }
  }

  /** Where a message goes that is published to an exchange. */
  function Routes(b: Broker, exchange: string, key: string): set<string> {
    if exchange == DEFAULT_EXCHANGE then (if key in b.queues then {key} else {})
    else set x | x in b.bindings && x.exchange == exchange && x.key == key :: x.queue
  }

  /** Where a message goes that a queue dead-letters. */
  function DeadLetterRoutes(b: Broker, queue: string): set<string> {
    if queue in b.queues && b.queues[queue].deadLetter.Some?
    then Routes(b, b.queues[queue].deadLetter.value.0, b.queues[queue].deadLetter.value.1)
    else {}
  }

  /** Whatever the other processes did, and wherever they stopped: once one consumer
      has completed its setup, the routing is the one the protocol relies on. */
  lemma CompletedSetupRoutes(w: World, k: nat, order: seq<nat>, consumer: nat)
    requires Consistent(w, k) && consumer < |w.setups|
    ensures Interleave(w, order).Ok?
    ensures var after := Interleave(w, order).value;
      consumer < |after.setups| &&
      (after.setups[consumer].done == |SETUP| ==>
        && after.broker == Built(|SETUP|)
        && Routes(after.broker, "order_events", "order.created") == {"order_execution"}
        && DeadLetterRoutes(after.broker, "order_execution") == {"order_execution.dlq"}
        && DeadLetterRoutes(after.broker, "order_execution.retry") == {"order_execution"}
        && after.broker.queues["order_execution.retry"].ttl == Some(5000))
  {
    var after, reached := NoConflict(w, k, order);
    FullRouting();
  }

  lemma FullRouting()
    ensures Routes(Built(7), EVENTS_EXCHANGE, CREATED_ROUTING_KEY) == {ORDER_QUEUE}
    ensures DeadLetterRoutes(Built(7), ORDER_QUEUE) == {DEAD_LETTER_QUEUE}
    ensures DeadLetterRoutes(Built(7), RETRY_QUEUE) == {ORDER_QUEUE}
  {
    var b := Built(7);
    assert Binding(ORDER_QUEUE, EVENTS_EXCHANGE, CREATED_ROUTING_KEY) in b.bindings;
    assert Binding(DEAD_LETTER_QUEUE, DEAD_LETTER_EXCHANGE, DEAD_LETTER_ROUTING_KEY) in b.bindings;
  }

  /** At every moment of every interleaving a message that can be rejected has a
      dead-letter queue, and one that can arrive has a retry queue to go to. */
  lemma DestinationsComeFirst(w: World, k: nat, order: seq<nat>)
    requires Consistent(w, k)
    ensures Interleave(w, order).Ok?
    ensures var b := Interleave(w, order).value.broker;
      && (ORDER_QUEUE in b.queues ==> DeadLetterRoutes(b, ORDER_QUEUE) == {DEAD_LETTER_QUEUE} && DEAD_LETTER_QUEUE in b.queues)
      && (Routes(b, EVENTS_EXCHANGE, CREATED_ROUTING_KEY) != {} ==> Routes(b, DEFAULT_EXCHANGE, RETRY_QUEUE) == {RETRY_QUEUE})
  {
    var after, reached := NoConflict(w, k, order);
    var b := after.broker;
    if ORDER_QUEUE in b.queues {
      assert Binding(DEAD_LETTER_QUEUE, DEAD_LETTER_EXCHANGE, DEAD_LETTER_ROUTING_KEY) in b.bindings;
    }
    if Routes(b, EVENTS_EXCHANGE, CREATED_ROUTING_KEY) != {} {
      var x :| x in b.bindings && x.exchange == EVENTS_EXCHANGE;
      assert reached >= 7;
    }
  }

  // ---------------------------------------------------------------------
  // On a broker that others have used

  /** Nothing on the broker bears one of our names with other parameters. */
  predicate Compatible(b: Broker) {
    && (EVENTS_EXCHANGE in b.exchanges ==> b.exchanges[EVENTS_EXCHANGE] == Direct)
    && (DEAD_LETTER_EXCHANGE in b.exchanges ==> b.exchanges[DEAD_LETTER_EXCHANGE] == Direct)
    && (DEAD_LETTER_QUEUE in b.queues ==> b.queues[DEAD_LETTER_QUEUE] == NO_ARGUMENTS)
    && (ORDER_QUEUE in b.queues ==> b.queues[ORDER_QUEUE] == ORDER_ARGUMENTS)
    && (RETRY_QUEUE in b.queues ==> b.queues[RETRY_QUEUE] == RETRY_ARGUMENTS)
  }

  /** Setup succeeds on exactly the compatible brokers. */
  lemma SetupSucceedsIff(b: Broker)
    ensures ApplyAll(b, SETUP).Ok? <==> Compatible(b)
  {
    assert SETUP[..0] == [] && SETUP[..7] == SETUP;
    SetupStep(b, 0); SetupStep(b, 1); SetupStep(b, 2); SetupStep(b, 3);
    SetupStep(b, 4); SetupStep(b, 5); SetupStep(b, 6);
  }
}
