/** Messages on the queues and the decisions about a single delivery: the retry
    parameters of internal/execution/topology.go, the settlement rules of
    internal/execution/consumer.go, the errors of internal/execution/handler.go
    and the quotes of internal/priceservice/server.go. */
module Delivery {
  import opened Prelude
  import opened Orders
  import Failure

  const MAX_DELIVERY_ATTEMPTS := 3
  const RETRY_DELAY_MS: nat := 5000
  const RETRY_COUNT_HEADER := "x-retry-count"

  /** A header value as amqp091-go decodes it. */
  datatype HeaderValue = Int32(n: int) | Text(text: string)

  type Headers = map<string, HeaderValue>

  /** A message body: JSON of an event, or bytes that do not decode as one. */
  datatype Payload = Encoded(event: Event) | Garbage

  /** failures is history, kept for the proofs only: when each earlier attempt
      that the retry header counts failed. */
  datatype Message = Message(body: Payload, headers: Headers, failures: seq<nat>)

  /** retryAttempt: how often this message has already failed. */
  function RetryAttempt(headers: Headers): int {
    if RETRY_COUNT_HEADER in headers && headers[RETRY_COUNT_HEADER].Int32?
    then headers[RETRY_COUNT_HEADER].n else 0
  }

  datatype Decision = GiveUp | RetryLater

  /** What a failed delivery deserves. */
  function Decide(m: Message, e: Failure.Error): Decision {
    if Failure.Classify(e) == Failure.Permanent || RetryAttempt(m.headers) + 1 >= MAX_DELIVERY_ATTEMPTS
    then GiveUp else RetryLater
  }

  /** A failed delivery is given up exactly when the error has a sentinel among its
      leaves, or its first gRPC status is NotFound or InvalidArgument, or the message has
      failed at least twice before. */
  lemma GiveUpIff(m: Message, e: Failure.Error)
    ensures Decide(m, e) == GiveUp <==>
      || Failure.InvalidEvent in Failure.Leaves(e) || Failure.OrderNotFound in Failure.Leaves(e)
      || (exists i :: Failure.FirstStatusAt(Failure.Leaves(e), i)
           && (Failure.Leaves(e)[i].code.NotFound? || Failure.Leaves(e)[i].code.InvalidArgument?))
      || ("x-retry-count" in m.headers && m.headers["x-retry-count"].Int32? && m.headers["x-retry-count"].n >= 2)
  {
    Failure.PermanentIff(e);
  }

  /** The copy that goes to the retry queue after a failure at the given time. */
  function RetryCopy(m: Message, failedAt: nat): Message {
    m.(headers := m.headers[RETRY_COUNT_HEADER := Int32(RetryAttempt(m.headers) + 1)],
       failures := m.failures + [failedAt])
  }

  lemma RetryCopyCounts(m: Message, failedAt: nat)
    ensures RetryAttempt(RetryCopy(m, failedAt).headers) == RetryAttempt(m.headers) + 1
    ensures forall h :: h != RETRY_COUNT_HEADER ==>
      (h in RetryCopy(m, failedAt).headers <==> h in m.headers) &&
      (h in m.headers ==> RetryCopy(m, failedAt).headers[h] == m.headers[h])
    ensures RetryCopy(m, failedAt).body == m.body
  {
  }

  // ---------------------------------------------------------------------
  // handleOrderCreated

  /** Decoding and validation, before anything else is looked at. */
  function Admit(body: Payload): Result<Event, Failure.Error> {
    match body
    case Garbage => Err(Failure.Join([Failure.InvalidEvent, Failure.Plain]))
    case Encoded(event) =>
      if Validate(event).Some? then Err(Failure.Join([Failure.InvalidEvent, Failure.Plain]))
      else Ok(event)
  }

  /** The body is no event, or an event that breaks the contract. */
  predicate Unusable(body: Payload) { body.Garbage? || !ValidEvent(body.event) }

  /** Exactly those bodies are turned away, with an error that blames the message for
      good. */
  lemma UnusableIff(body: Payload)
    ensures Admit(body).Err? <==> Unusable(body)
    ensures Admit(body).Ok? ==> body.Encoded? && Admit(body).value == body.event
    ensures Admit(body).Err? ==>
      && Failure.InvalidEvent in Failure.Leaves(Admit(body).error)
      && Failure.Classify(Admit(body).error) == Failure.Permanent
  {
    if body.Encoded? { ValidIff(body.event); }
    if Admit(body).Err? {
      var e := Admit(body).error;
      assert e.Join?;
      assert Failure.Leaves(e.causes[0]) == [Failure.InvalidEvent];
      Failure.PermanentIff(e);
    }
  }

  /** What GetPrice returns. A failed call carries a gRPC status or is opaque. */
  datatype PriceReply = Quoted(price: real) | NoQuote(cause: Failure.Error)

  const BASE_PRICES: map<string, real> := map["PETR4" := 38.42, "VALE3" := 61.15, "ITUB4" := 32.90]

  /** A price the service can quote for a symbol: within one percent of its base. */
  predicate CanQuote(symbol: string, price: real) {
    && symbol in BASE_PRICES
    && BASE_PRICES[symbol] * 0.99 <= price <= BASE_PRICES[symbol] * 1.01
  }

  /** NotFound is the service's word for an unknown symbol; it never sends
      InvalidArgument, and gRPC itself sends neither. */
  predicate PossibleReply(symbol: string, reply: PriceReply) {
    match reply
    case Quoted(price) => CanQuote(symbol, price)
    case NoQuote(cause) =>
      || cause.Plain?
      || (cause.Status? && cause.code != Failure.InvalidArgument
          && (cause.code == Failure.NotFound ==> symbol !in BASE_PRICES))
  }

  function PriceError(cause: Failure.Error): Failure.Error { Failure.Wrap(Failure.Wrap(cause)) }

  const STORE_ERROR: Failure.Error := Failure.Wrap(Failure.Wrap(Failure.Plain))

  const NOT_FOUND_ERROR: Failure.Error := Failure.Wrap(Failure.OrderNotFound)

  /** A failure that the message itself is to blame for. */
  predicate BlamesMessage(e: Failure.Error) {
    Failure.Is(e, Failure.InvalidEvent) || Failure.Is(e, Failure.OrderNotFound)
  }

  /** Neither a failed quote nor a failing database blames the message, and only a
      status can make a failed quote permanent. */
  lemma OutagesBlameNobody(cause: Failure.Error)
    requires cause.Status? || cause.Plain?
    ensures !BlamesMessage(PriceError(cause)) && !BlamesMessage(STORE_ERROR)
    ensures Failure.Classify(PriceError(cause)) == Failure.Permanent <==> Failure.PermanentCode(cause)
    ensures Failure.Classify(STORE_ERROR) == Failure.Transient
  {
    forall e, t | e in {PriceError(cause), STORE_ERROR} && t in {Failure.InvalidEvent, Failure.OrderNotFound}
      ensures !Failure.Is(e, t)
    {
      Failure.IsMeansLeaf(e, t);
      assert Failure.Leaves(PriceError(cause)) == Failure.Leaves(Failure.Wrap(cause)) == [cause];
      assert Failure.Leaves(STORE_ERROR) == Failure.Leaves(Failure.Wrap(Failure.Plain)) == [Failure.Plain];
    }
    assert Failure.FirstStatus(PriceError(cause)) == Failure.FirstStatus(Failure.Wrap(cause));
    assert Failure.FirstStatus(STORE_ERROR) == Failure.FirstStatus(Failure.Wrap(Failure.Plain));
  }

  /** What can fail an API event for good: only a symbol without a price. */
  predicate Blameless(body: Payload, e: Failure.Error) {
    && !BlamesMessage(e)
    && (Failure.Classify(e) == Failure.Permanent ==> body.Encoded? && body.event.assetSymbol !in BASE_PRICES)
  }

  lemma OutagesAreBlameless(body: Payload, cause: Failure.Error)
    requires body.Encoded? && PossibleReply(body.event.assetSymbol, NoQuote(cause))
    ensures Blameless(body, PriceError(cause))
  {
    OutagesBlameNobody(cause);
  }

  lemma StoreErrorsAreBlameless(body: Payload)
    ensures Blameless(body, STORE_ERROR)
  {
    OutagesBlameNobody(Failure.Plain);
  }
}
