/** CreateOrder of internal/order/handler.go: validate, store, then publish. */
module CreateOrders {
  import opened Prelude
  import opened Timestamps
  import opened Orders
  import opened Publishing

  /** How the INSERT statement ends for the caller. */
  datatype InsertReply = Stored | StoredButReplyLost | NotStored

  /** How a publish goes: whether a channel opens, how the write ends, and whether a
      return of the broker is seen. */
  datatype Network = Network(opens: bool, write: Write, inTime: bool)

  /** The API process with its table and its connection to the broker. */
  class OrderApi {
    var orders: map<Uuid, Order>
    const publisher: Connection

    constructor (publisher: Connection)
      ensures orders == map[] && this.publisher == publisher
    {
      orders := map[];
      this.publisher := publisher;
    }

    /** PostgresOrderStore.Create. */
    method Create(o: Order, reply: InsertReply) returns (ok: bool)
      modifies this`orders
      ensures ok == (Storable(old(orders), o) && reply.Stored?)
      ensures orders ==
        if Storable(old(orders), o) && !reply.NotStored? then old(orders)[o.id := o] else old(orders)
    {
      if o.id in orders || o.quantity < -0x8000_0000 || o.quantity > 0x7fff_ffff {
        return false;
      }
      if reply.NotStored? {
        return false;
      }
      orders := orders[o.id := o];
      ok := reply.Stored?;
    }

    /** The field rules, in the order in which they are checked. */
    method CheckFields(req: Request) returns (fields: seq<Field>)
      ensures forall f :: f in fields <==> Broken(req, f)
    {
      fields := [];
      var assetSymbol := Upper(Trim(req.assetSymbol));
      if assetSymbol == "" {
        fields := fields + [AssetSymbolField];
      } else if !IsTicker(assetSymbol) {
        fields := fields + [AssetSymbolField];
      }
      if req.quantity <= 0 {
        fields := fields + [QuantityField];
      }
      if !IsValidSide(Upper(req.side)) {
        fields := fields + [SideField];
      }
      var executionType := Upper(req.executionType);
      if !IsValidExecutionType(executionType) {
        fields := fields + [ExecutionTypeField];
      } else if executionType == LIMIT && (req.limitPrice.None? || req.limitPrice.value <= 0.0) {
        fields := fields + [LimitPriceField];
      } else if executionType == MARKET && req.limitPrice.Some? {
        fields := fields + [LimitPriceField];
      }
    }

    /** CreateOrder. The caller is known (auth), newId is what uuid.New returns and
        createdAt what the database fills in. */
    method CreateOrder(auth: Option<Uuid>, body: Body, newId: Uuid, createdAt: Time,
                       insert: InsertReply, network: Network)
      returns (response: Response)
      requires publisher.Valid() && newId != NIL && auth != Some(NIL)
      modifies this, publisher
      ensures publisher.Valid() && publisher.broker == old(publisher.broker)
      ensures publisher.open == old(publisher.open)
      // A request is turned away before anything is stored, and only for a reason.
      ensures auth.None? ==> response == Unauthorized
      ensures auth.Some? && body.TooLarge? ==> response == PayloadTooLarge
      ensures auth.Some? && body.Malformed? ==> response == MalformedBody
      ensures auth.Some? && body.Decoded? ==> (response.Invalid? <==> !WellFormed(body.request))
      ensures response.Invalid? ==> forall f :: f in response.fields <==> Broken(body.request, f)
      ensures response.Unauthorized? || response.PayloadTooLarge? || response.MalformedBody? || response.Invalid? ==>
        orders == old(orders)
      // Accepted requests: 201 exactly when the insert was stored and acknowledged,
      // whatever becomes of the event.
      ensures response.Created? || response.InternalError? ==>
        auth.Some? && body.Decoded? &&
        var o := OrderFrom(body.request, newId, auth.value, createdAt);
        && response == (if Storable(old(orders), o) && insert.Stored? then Created(o) else InternalError)
        && orders == (if Storable(old(orders), o) && !insert.NotStored? then old(orders)[o.id := o] else old(orders))
      ensures auth.Some? && body.Decoded? && WellFormed(body.request) ==>
        (response.Created? <==> insert.Stored? && newId !in old(orders) && body.request.quantity <= 2_147_483_647)
      // What is stored is the order that the request asks for, field by field, and what
      // is answered is what is stored.
      ensures orders != old(orders) ==>
        && auth.Some? && body.Decoded? && newId !in old(orders) && newId in orders
        && MadeFrom(orders[newId], body.request, newId, auth.value, createdAt)
        && orders == old(orders)[newId := orders[newId]]
      ensures response.Created? ==> newId in orders && orders != old(orders) && response.order == orders[newId]
      // An event is published only for an order that is created. It carries the order's
      // fields and honours the contract.
      ensures !response.Created? ==> publisher.contents == old(publisher.contents)
      ensures response.Created? ==>
        var o := response.order;
        var event := Event(o.id, o.userId, o.assetSymbol, o.quantity, o.side, o.executionType, o.limitPrice, o.createdAt);
        && ValidEvent(event)
        && publisher.contents ==
           Announced(old(publisher.contents), publisher.broker, event, network.opens && !network.write.Lost?)
    {
      if auth.None? {
        return Unauthorized;
      }
      match body {
        case TooLarge => return PayloadTooLarge;
        case Malformed => return MalformedBody;
        case Decoded(req) =>
          var fields := CheckFields(req);
          RulesMatchContract(req, newId, auth.value, createdAt);
          AcceptableIff(req, newId, auth.value, createdAt);
          if |fields| > 0 {
            assert Broken(req, fields[0]);
            return Invalid(fields);
          }
          var order := OrderFrom(req, newId, auth.value, createdAt);
          OrderIsMade(req, newId, auth.value, createdAt);
          ValidIff(NewOrderCreatedEvent(order));
          var ok := Create(order, insert);
          if !ok {
            return InternalError;
          }
          var published := publisher.Announce(NewOrderCreatedEvent(order), network.opens, network.write, network.inTime);
          return Created(order);
      }
    }
  }
}
