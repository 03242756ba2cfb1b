# Verification of the order engine

A Dafny model of how this repository accepts orders, executes them and lists them, with
proofs about whole runs. Check it with `dafny verify dfyconfig.toml`.

Two things are modelled closely.

**Order execution.** An API process stores a PENDING order and then publishes its event. RabbitMQ
holds a work queue, a retry queue with a 5 s lifetime and a dead-letter queue. Any number of
consumers take deliveries one at a time, look up a price, run `ExecuteOrder` as a multi-statement
transaction, and send a retry copy, an ack or a rejection. `Protocol` is this as a step system in
which every process can stop and every connection can break between any two steps, a COMMIT can
take effect and still return an error, and orders can be cancelled or rejected from elsewhere.
`Database` has the statements of any number of transactions under READ COMMITTED. `Store` and
`Handling` hold the same code as programs (`ExecuteOrder`, `handleOrderCreated`, the consumer loop)
that run against an environment changing the database between their statements; their contracts
name the steps of `Database` they take. `DatabaseRuns` shows that every handling in the step system
is one such call with a result its contract allows, and `LoopAgreement` that the loop and the step
system put the same frames on the channel.

**Listing.** `List` compiles optional filters to numbered placeholders and fetches one row more
than asked; `ListOrders` turns query strings into a filter and the last order of a page into an
opaque token. `Parameters` says what the query strings mean. `Sessions` covers the whole path of a client that hands tokens back, down to the
bytes of base64, JSON and RFC 3339, on a table that stands still and on one that changes.

Around them: error classification over wrapped error trees (`Failure`), topology declaration by any
number of processes (`Topology`), publishing (`Publishing`) and `CreateOrder` (`CreateOrders`).

## Assumptions

- The broker does not lose a message it has accepted, and dead-lettering is one step.
- Methods sent on one channel are processed in order (section 4.7 of AMQP 0-9-1). A lost connection
  drops some of the last frames that were sent and not yet processed, and returns the unacked
  delivery to the queue.
- The work queue receives messages from the API and from the retry queue only, and a header that
  the trace propagator adds is never `x-retry-count`.
- `Protocol` starts with the queues in place; `Topology` proves which setups bring that about.
- An UPDATE that waited for a row lock evaluates its WHERE clause again on the committed row, and
  orders are never deleted and never become PENDING again, as in this code.
- The price service answers as `internal/priceservice/server.go:36-50` does: a quote within one
  percent of a listed symbol's base price, NotFound for any other symbol. Other failed calls carry
  a gRPC status that gRPC itself can produce, or none.
- When a consumer process dies or a statement returns an error, the fate of its transaction is decided
  in that step: it is rolled back, or its COMMIT takes effect. A COMMIT that takes effect only after
  the delivery is back in the queue, and an abandoned transaction that keeps its row lock for a while,
  are covered by `Database` and `Refinement`, whose transactions belong to no process, and not by
  `Protocol`.
- Clocks, identifiers, the outcomes of calls and the choices of the scheduler are parameters.

## Where the code and its documentation differ

- `DECISIONS.md:374-375` says that duplicates and resolved orders are acked and never reach the
  dead-letter queue. The price lookup comes before the check for resolved orders. A delivery whose
  order is resolved when it is taken up is rejected for good exactly when its lookup brings no quote
  and the status is permanent or this is the last attempt, or the store fails on the last attempt
  (`HandlingRuns.ResolvedDeliveryIff`). It happens to EXECUTED orders of every known symbol and to
  CANCELLED orders of any symbol (`DeadLetters.ExecutedCanBeDeadLettered`,
  `DeadLetters.CancelledCanBeDeadLettered`).
- `DECISIONS.md:579-581` says that orders which exhaust their retries end PENDING. The order of a
  delivery that is rejected for good is PENDING then exactly when it was PENDING at the take-up,
  nobody else resolved it meanwhile, and the consumer lost no reply to a COMMIT of its own
  (`Rejections.RejectedOrderIsPendingIff`). The last condition fails in a run in which nobody else
  touches the order (`DeadLetters.LostReplyIsDeadLettered`).
- `(false, nil)` from `ExecuteOrder` is documented as "the order was not PENDING"
  (`internal/order/store.go:140`). That holds in every interleaving exactly when the order was
  stored before the call (`Refinement.SkipSafeIff`): an order inserted between the UPDATE and the
  EXISTS query is skipped while PENDING. Storing before publishing rules this out for the events
  of the API (`Guarantees.SkipIsSafe`).
- A page token keeps its position exactly when the zone offset of the creation time is in whole
  minutes, since RFC 3339 has no seconds in an offset (`Pagination.RoundTripIff`).
- The comment at `internal/order/store.go:133` speaks of `MarkExecuted`, which is now `ExecuteOrder`.

## Model

| member | source | states |
|---|---|---|
| `Database.StepKeepsExactlyOnce` | internal/order/store.go:149-177 | each statement of any transaction keeps: one committed executions row per EXECUTED order, none otherwise, though nothing in the schema is unique on the order |
| `Database.StepKeepsTx` | internal/order/store.go:149-177 | whoever changed the row holds its lock and the committed row is still PENDING until that transaction ends; whoever missed a stored row missed it because it was resolved |
| `Database.StepKeepsInv` | internal/order/store.go:143-193 | all of the database invariant survives every statement, commit and rollback of every interleaving |
| `Database.StepEvolves` | internal/order/store.go:118-194 | no step deletes an order, changes anything but its status, or changes a status that is not PENDING |
| `Database.RunKeepsInv` | internal/order/store.go:143-193 | the invariant over whole runs of any number of transactions |
| `Refinement.StepRefinesIff` | internal/order/store.go:143-193 | a statement changes the committed rows as its atomic operation would, except exactly an EXISTS query that finds a PENDING order |
| `Refinement.RunRefinesIff` | internal/order/store.go:136-193 | an interleaved run of any calls, for stored and for missing orders, does what atomic calls with outcomes executed, already resolved and not found would do if and only if no call skips a PENDING order; failed and rolled-back work does nothing |
| `Refinement.KnownCallsNeverSkipPending` | internal/order/store.go:179-193 | calls for orders stored before they began never do, so their runs are atomic |
| `Refinement.SkipSafeIff` | internal/order/store.go:179-193 | (false, nil) means "not PENDING" in every run of a call if and only if the order was stored before the call |
| `Refinement.LateInsertIsSkipped` | internal/order/store.go:179-193 | the run that breaks it otherwise: an insert between the UPDATE and the EXISTS query |
| `Store.OrderStore.Update` | internal/order/store.go:149-161 | the UPDATE with lock wait and re-evaluation: one row and the lock, no row, or a timeout while the lock is held; an order that was stored is never taken for a missing one |
| `Store.OrderStore.Record` | internal/order/store.go:161-177 | INSERT then COMMIT; success, a rollback, or a commit whose reply is lost, with the row it leaves |
| `Store.OrderStore.Look` | internal/order/store.go:179-193 | the EXISTS branch tells a resolved order from a missing one and writes nothing |
| `Store.OrderStore.ExecuteOrder` | internal/order/store.go:142-194 | for every fault and everything others do between its statements: each of the four results names the steps the call took, what was written and what is then true of the order |
| `Delivery.RetryCopyCounts` | internal/execution/consumer.go:146-160 | the retry copy has the same body, every other header, and a count one higher |
| `Delivery.UnusableIff` | internal/execution/handler.go:32-51 | exactly the bodies that are no event, or an event with a nil id, no symbol, a quantity that is not positive, or a side, type or limit price outside the contract, are turned away, with a permanent error that has errInvalidEvent among its leaves |
| `Delivery.GiveUpIff` | internal/execution/consumer.go:126-144 | a failed delivery is given up exactly when a sentinel is among the leaves of its error, or the first gRPC status says NotFound or InvalidArgument, or its x-retry-count is 2 or more |
| `Delivery.OutagesBlameNobody` | internal/execution/handler.go:62-70 | a failed price lookup or database call never looks like an invalid event or a missing order, and is permanent exactly for NotFound and InvalidArgument |
| `Handling.HandleOrderCreated` | internal/execution/handler.go:32-78 | a body that is no event or breaks the contract fails for good with errInvalidEvent before the price and the store are asked, and no other body does; a missing price never touches the store; otherwise one call with the event's order and quantity decides, success settles the order, and without faults a duplicate succeeds exactly when it gets a price |
| `Handling.CopyHeaders` | internal/execution/consumer.go:146-152 | the key-by-key copy of the header table equals the original, which is untouched |
| `Handling.ConsumerLoop.Settle` | internal/execution/consumer.go:126-187 | the frames sent for each result: ack; reject; copy then ack; requeue |
| `Handling.ConsumerLoop.Run` | internal/execution/consumer.go:77-190 | by positions in the inputs: the loop exits clean exactly when, before the deliveries close, a shutdown comes and then a delivery or nothing more arrives; with ErrDeliveriesClosed exactly when they close first; it goes on exactly when neither happens. It handles exactly the arrivals before the first other input, in order, each with the result that its body, its lookup and the store give it, and settles each as Settle does |
| `LoopAgreement.FramesAreOrdered` | internal/execution/consumer.go:126-187 | at most one copy and one settlement per delivery, copy first; a failed delivery is acked only behind its copy; copies only for transient failures with attempts left |
| `LoopAgreement.LoopFollowsProtocol` | internal/execution/consumer.go:126-187 | for every handled delivery and result, on an open or a lost channel, the step system can make the loop's settlement calls and sends the same frames |
| `ProtocolPreservation.StepKeepsInv` | internal/execution/consumer.go:77-188 | the protocol invariant (queues, channels, frames in flight, transactions, retry counts, failure times) survives every action, including crashes and lost connections at every point |
| `ProtocolPreservation.RunKeepsInv` | internal/execution/consumer.go:77-188 | the same over every run |
| `ProtocolPreservation.OutcomeSettles` | internal/execution/handler.go:67-74 | a commit, or an EXISTS reply, leaves the order of the message settled, and the order always exists |
| `Guarantees.ExactlyOnceEffect` | internal/execution/consumer.go:77-188 | in every reachable state an order has one executions row if it is EXECUTED and none otherwise |
| `Guarantees.QuantityIsConserved` | internal/order/store.go:161-176 | the executed quantities add up to the quantities of the EXECUTED orders |
| `Guarantees.ExecutionIsFaithful` | internal/execution/handler.go:62-67 | the row of an executed order has its quantity and a price within one percent of the base price of its symbol, in numbers; an order with any other symbol is never EXECUTED |
| `Quotes.ExecutedAtReturnedPrice` | internal/execution/handler.go:62-67 | its price is one that, earlier in the run, a lookup returned for its symbol while its event was handled |
| `DatabaseRuns.SystemIsAtomic` | internal/order/store.go:136-193 | over every run of the whole system, what crashes, redeliveries, duplicates and interleaved transactions leave in the tables is what a sequence of atomic calls would leave |
| `DatabaseRuns.HandlingIsExecuteOrder` | internal/execution/handler.go:58-78 | over every run, a delivery that has its result failed at its lookup without a statement, or made the statements of one call of ExecuteOrder for its order and quantity at the price its lookup returned, with a result that call's contract allows |
| `HandlingRuns.GivenUpIff` | internal/execution/consumer.go:126-144 | over every run, a delivery is rejected for good exactly when an action since its take-up failed it permanently, or failed it at all on its last attempt |
| `HandlingRuns.CheckDecides` | internal/execution/handler.go:32-43 | in the step system validation fails a message exactly when its body is unusable, then for good and without touching the database; every other message goes on to its price |
| `HandlingRuns.ResolvedDeliveryIff` | internal/execution/handler.go:58-74 | for a resolved order that means its lookup or, on the last attempt, its lookup or the store; in every other case it succeeds or is retried |
| `HandlingRuns.GivenUpIsDeadLettered` | internal/execution/consumer.go:136-144 | a delivery given up on an open channel goes to the dead-letter queue |
| `Rejections.RejectedOrderIsPendingIff` | internal/execution/consumer.go:126-144 | over every run, the order of a delivery that is rejected for good is PENDING then exactly when it was PENDING at the take-up, nobody else resolved it, and no reply to the consumer's own COMMIT was lost |
| `Guarantees.SkipIsSafe` | internal/order/store.go:179-193 | for the events of the API the EXISTS query always finds the order, and a skipped order is not PENDING then or ever after |
| `Guarantees.PlainAckIsSafe` | internal/execution/consumer.go:183-187 | a delivery acked after success has its order settled for good |
| `Guarantees.MessagesAreSound` | internal/order/handler.go:263-271 | every message queued, delayed, dead-lettered, delivered or in flight is the event of a stored order, equal to it field by field, is valid and carries a retry count of 0, 1 or 2 |
| `Guarantees.NoFailureBlamesTheMessage` | internal/execution/handler.go:38-40 | errInvalidEvent and ErrOrderNotFound never arise from messages of the API |
| `Guarantees.DeadLetterProvenance` | internal/execution/consumer.go:130-144 | a dead letter just failed its third counted attempt, or failed for good because the price service does not know its symbol |
| `Guarantees.ExecutedDeadLetterWasTransient` | internal/execution/consumer.go:136-144 | a dead letter whose order is EXECUTED failed transiently on its third counted attempt |
| `Guarantees.ExhaustionTakesTime` | internal/execution/topology.go:32-39 | the first, the second and the third counted failure of a chain of copies lie at least 5000 ms apart each |
| `Guarantees.HeadExpiryIsExact` | internal/execution/topology.go:87-94 | a queue that expires only at its head releases exactly the messages whose own delay has passed, in order of arrival |
| `Guarantees.RetryQueueIsFifo` | internal/execution/topology.go:87-94 | the retry queue of every reachable state is in the order this needs |
| `NoLoss.NoMessageLost` | internal/execution/consumer.go:155-180 | once an event is in the work queue, a copy is in some queue or unacked until its order is no longer PENDING, for all faults and without publisher confirms |
| `NoLoss.PublishedIsNotLost` | internal/execution/consumer.go:155-180 | the same from the step that publishes the event on, in every continuation of every run |
| `NoLoss.StepStaysSafe` | internal/execution/consumer.go:155-187 | its inductive form: an unacked delivery counts only while no ack is coming or its copy is still ahead of the ack |
| `BoundedWork.RunCosts` | internal/execution/consumer.go:133-180 | every handling is paid for by a publish, a fault or the retries left at the start |
| `BoundedWork.HandlingsAreBounded` | internal/execution/topology.go:37-39 | over every run: handlings <= 3 x (events published + faults) |
| `BoundedWork.QuietRunsEnd` | internal/execution/consumer.go:133-180 | once publishes and faults stop, at most three handlings for each queued message and five for each consumer can follow |
| `BoundedWork.TakenUpIsBounded` | internal/execution/consumer.go:133-180 | counted over the actions of any run: at most three deliveries are taken up for each publish and each crash, lost connection or failed call on a channel |
| `BoundedWork.QuietRunsTakeUpFew` | internal/execution/consumer.go:133-180 | a run without any of those takes up at most three deliveries for each queued message and five for each consumer |
| `Progress.HandlingCanEnd` | internal/execution/consumer.go:96-188 | no deadlock: from every phase of a handling on an open channel, at most five steps of its own bring a process back to idle with its delivery settled, whatever the others hold |
| `Progress.StatementsCanFail` | internal/order/store.go:142-194 | in every reachable state any statement of a call under way can return an error and roll back |
| `Discipline.FramesInOrder` | internal/execution/consumer.go:155-187 | on every channel at most one copy, one settlement and one close wait, in that order, and a settlement answers the unacked delivery |
| `Discipline.AckFollowsCopy` | internal/execution/consumer.go:162-179 | over every run between the copy and the ack: when the ack can be sent the copy is still on the channel, or the broker has moved it to the retry queue |
| `Discipline.FirstSettlement` | internal/execution/consumer.go:136-187 | a settlement is sent for the delivery that was handled, which is the unacked one, and no other settlement waits |
| `Discipline.OneSettlementPerDelivery` | internal/execution/consumer.go:136-187 | from any reachable state to the next delivery a consumer sends at most one settlement and one copy, and none if the delivery at hand has them already |
| `Discipline.SettlementsNeverExceedDeliveries` | internal/execution/consumer.go:136-187 | over every run a consumer settles, and copies, no more often than it got deliveries |
| `Shutdown.NoNewWorkAfterShutdown` | internal/execution/consumer.go:77-94 | after a shutdown request no further delivery is handled, whatever happens |
| `Shutdown.ShutdownReturnsDelivery` | internal/execution/consumer.go:88-94 | over every run, a delivery that a stopping consumer has not taken up stays unacked until a step puts it back into the work queue; up to then the consumer neither settles, copies nor handles anything |
| `Shutdown.LeavingReturnsDelivery` | internal/execution/consumer.go:53-94 | it comes back when the process has left, whichever case the select picks, and the broker processes the close |
| `DeadLetters.ExecutedCanBeDeadLettered` | internal/execution/handler.go:58-74 | for every known symbol, a run in which the message of an EXECUTED order is dead-lettered |
| `DeadLetters.CancelledCanBeDeadLettered` | internal/execution/handler.go:58-74 | for every ticker, known or not, a run in which the message of a CANCELLED order is dead-lettered |
| `DeadLetters.LostReplyIsDeadLettered` | internal/order/store.go:173-175 | for every known symbol, a last attempt taken up while its order is PENDING that executes the order, loses the reply to its COMMIT and is dead-lettered, with no step of anyone else |
| `DeadLetters.ExecutedDeadLetterIff` | internal/execution/handler.go:58-74 | for which symbols an EXECUTED order can have a dead letter at all: those the price service knows; which deliveries end so is stated by the two theorems per delivery |
| `Failure.PermanentIff` | internal/execution/failure.go:45-58 | an error of any depth is permanent exactly when a sentinel is among its leaves or the first leaf with a gRPC status says NotFound or InvalidArgument |
| `Failure.WrappingKeepsClass` | internal/execution/failure.go:50-51 | no number of %w wrappers changes the class |
| `Failure.SameLeavesSameClass` | internal/execution/failure.go:45-58 | the class depends on the leaves in order, however they are nested |
| `Failure.SentinelWins` | internal/execution/handler.go:39-48 | in an error with several causes a sentinel makes it permanent whatever the statuses beside it |
| `Failure.FirstOfTwoStatusesDecides` | internal/execution/failure.go:52-55 | of two statuses the first decides |
| `Orders.RulesMatchContract` | internal/order/handler.go:221-245 | a request breaks no field rule of the API exactly when its event passes Validate with a ticker-shaped symbol |
| `Orders.AcceptableIff` | internal/order/handler.go:221-250 | accepted requests are exactly those with a trimmed, capitalized symbol of four letters and one or two digits, a positive quantity, a side and a type that spell BUY or SELL and MARKET or LIMIT in any case, and a positive limit price exactly for LIMIT |
| `Orders.BrokenIff` | internal/order/handler.go:221-245 | which of those conditions each reported field stands for |
| `Orders.OrderIsMade` | internal/order/handler.go:252-261 | the stored order, field by field: SELL exactly for a side that spells SELL, BUY likewise, the same for the type, the request's own quantity and limit price, its symbol without surrounding blanks and in capitals, PENDING |
| `Orders.TrimIff` | internal/order/handler.go:223-223 | trimming takes away exactly the blanks at both ends |
| `Orders.ValidIff` | internal/order/events.go:71-103 | Validate passes exactly the events of the contract |
| `CreateOrders.OrderApi.CheckFields` | internal/order/handler.go:221-245 | the list of field errors names exactly the broken fields |
| `CreateOrders.OrderApi.CreateOrder` | internal/order/handler.go:200-292 | rejections happen exactly for requests outside the documented form, list exactly the broken fields and change nothing; what is stored is the order that the request asks for, field by field; 201 exactly when the insert was acknowledged, with the stored order, whatever becomes of the event; an event reaches the broker only for a created order, carries its fields and honours the contract |
| `Publishing.Connection.PublishOrderCreated` | internal/order/events.go:123-180 | every error path closes the channel; success hands it over and puts the event on every queue the exchange routes to, once |
| `Publishing.Connection.Announce` | internal/order/events.go:114-193 | with the background wait run to its end no channel is left open, whatever fails; the result does not depend on the routing |
| `Publishing.AnnouncedWhere` | internal/order/events.go:114-122 | with the full routing a publish adds the event once to the work queue and nowhere else; with no binding it is gone |
| `Publishing.EventsReachTheWorkQueue` | internal/execution/topology.go:96-98 | after any interleaving of setups an event reaches the work queue alone, if it is bound, and no queue otherwise |
| `Topology.Channel.SetupTopology` | internal/execution/topology.go:55-101 | the declarations take effect in order up to the first error and no further |
| `Topology.NoConflict` | internal/execution/topology.go:55-101 | any interleaving of any number of setups, stopping anywhere, declares without conflict and leaves a prefix of the full setup |
| `Topology.CompletedSetupRoutes` | internal/execution/topology.go:77-98 | one completed consumer setup fixes the routing: events to the work queue, rejects to the dead-letter queue, expired messages back to the work queue after 5000 ms |
| `Topology.DestinationsComeFirst` | internal/execution/topology.go:77-98 | whenever the work queue exists its dead letters have a queue to go to; whenever events can arrive the retry queue exists |
| `Topology.SetupSucceedsIff` | internal/execution/topology.go:52-54 | on a broker with other contents setup succeeds exactly when nothing bears one of its names with other parameters |
| `Listing.OneMore` | internal/order/store.go:50-77 | appending one condition with its arguments keeps every earlier condition's meaning |
| `Listing.BuildQuery` | internal/order/store.go:44-88 | for every filter and row the generated conditions over the generated arguments hold exactly when the filter matches; placeholders are used once each, in order, and the last is limit + 1 |
| `Pages.OrdersTable.ReadRows` | internal/order/store.go:96-106 | all rows in order, or the error of the first row or of the iteration that fails |
| `Pages.OrdersTable.List` | internal/order/store.go:43-116 | the one page for the filter: only wanted rows, the latest instant first and the larger id first at one instant, at most limit (20 by default); no next cursor exactly when all wanted rows are shown; else a full page, the cursor of its last order, and only older rows left out; or the error of the read that fails |
| `Pages.FoundIsWanted` | internal/order/store.go:82-88 | the reference list holds exactly the wanted orders, newest first: later instants before earlier ones, larger ids before smaller ones at one instant, all older than the cursor |
| `Pages.DescendingUnique` | internal/order/store.go:86-86 | that order leaves one way to list them |
| `Pages.PageIff` | internal/order/store.go:43-116 | a page meets that description exactly when it is the one List computes |
| `PageWalk.StaticWalkIsWhole` | internal/order/store.go:108-115 | on a table that stands still the pages together are the reference list, in max(1, ceil(n / limit)) pages |
| `PageWalk.OnlyLastPageEnds` | internal/order/store.go:108-115 | every page but the last is full and has a next cursor; the last has none |
| `PageWalk.WalkNeverRepeats` | internal/order/store.go:50-53 | whatever is inserted or changes status between pages, with any limits, the walk goes from newer to older orders and repeats none |
| `PageWalk.WalkSkipsNothing` | internal/order/store.go:79-113 | a completed walk shows every order that matched at each request exactly once |
| `ListOrders.ReadFilter` | internal/order/handler.go:76-153 | parameters are reported exactly when no filter is what they ask for; otherwise the filter has what each parameter says and nothing for an absent one |
| `ListOrders.ListOrders` | internal/order/handler.go:69-190 | 401, 400, 500 or the page that the parameters ask for, each in exactly its case; every response carries the fields of its order, and the token and hasMore are there exactly when more wanted orders follow |
| `ListOrders.FillResponses` | internal/order/handler.go:162-177 | filling the slice by index yields the responses of the orders in order |
| `Parameters.LimitIsBounded` | internal/order/handler.go:80-90 | accepted requests have a limit of 1 to 100: the number that the parameter spells cut to 100, or 20 without one; no page holds more |
| `Parameters.StatusIsNamed` | internal/order/handler.go:101-108 | the status parameter selects exactly the orders whose status it names, in either case |
| `Parameters.AsksForIff` | internal/order/handler.go:76-153 | parameters are usable exactly when there is a filter that they ask for, and then it is the one that is read: the limit spelled, the decoded cursor, status, side and type spelled in either case, the symbol as it stands, and the times spelled by createdAfter and createdBefore, each in its own place |
| `Parameters.BadIff` | internal/order/handler.go:80-146 | what each reported parameter fails to spell |
| `Parameters.SelectedIff` | internal/order/store.go:54-77 | without a cursor they select exactly the caller's orders with the status, side, type and symbol named, created strictly after createdAfter and strictly before createdBefore |
| `Numerals.AtoiIff` | internal/order/handler.go:80-84 | a limit is read exactly when it is an optional sign and decimal digits within 64 bits, as the number they spell |
| `ListOrders.TokenIsAcceptedIff` | internal/order/handler.go:92-99 | a token that was given out is refused exactly when what it prints is the zero time or the nil id |
| `ListOrders.NextRequest` | internal/order/handler.go:178-186 | repeating a request with the token it returned is accepted and asks for the position right after the last order shown |
| `Sessions.SessionIsWalk` | internal/order/handler.go:92-186 | what a client gets by handing tokens back mirrors the walk along the cursors they encode |
| `Sessions.SessionNeverRepeats` | internal/order/handler.go:92-186 | no order id is shown twice in a session, however orders are added and change status |
| `Sessions.SessionSkipsNothing` | internal/order/handler.go:92-186 | a session to the end shows every order that the parameters named whenever it asked |
| `Sessions.SessionShowsTheList` | internal/order/handler.go:92-186 | while nothing changes, the replies put together are all matching orders in descending order, in the least number of requests |
| `Sessions.SessionShowsExactly` | internal/order/handler.go:69-190 | said through the raw parameters: while nothing changes, a session shows exactly the orders that they name, newest first, each response with the fields of its order |
| `Sessions.SessionCanEnd` | internal/order/handler.go:92-186 | from any usable parameters the tokens can be followed to the end: none on the way is refused, and on a table that stands still there is a last page |
| `Base64.DecodeEncode` | internal/pagination/cursor.go:25-32 | decoding an encoded byte string gives the bytes back, also with line breaks put in (section 5 of RFC 4648) |
| `Base64.DecodableIff` | internal/pagination/cursor.go:32-35 | exactly the texts of whole groups of the URL alphabet with padding at the end decode |
| `Base64.SameNumber` | internal/pagination/cursor.go:25-25 | four characters spell the same number in base 64 as their three bytes in base 256 |
| `Rfc3339.ParsePrint` | internal/pagination/cursor.go:15-21 | reading a printed time gives the same clock reading and nanoseconds, in a zone of whole minutes |
| `Rfc3339.SameInstantIff` | internal/pagination/cursor.go:15-21 | it is the same instant exactly when the offset is in whole minutes |
| `Rfc3339.ParseIff` | internal/order/handler.go:132-148 | a timestamp is read exactly when it has the form of section 5.6 of RFC 3339, as the one time that it spells |
| `Timestamps.InstantsFollowTheClock` | internal/order/store.go:86-86 | instants in one zone are ordered as the readings of the clock, from the year down to the nanosecond |
| `Pagination.DecodeEncode` | internal/pagination/cursor.go:20-46 | what each token decodes to, for every cursor that can be encoded |
| `Pagination.EncodeCursor` | internal/pagination/cursor.go:20-26 | encoding fails exactly for years outside 0 to 9999 and zone hours past 23 |
| `Pagination.DecodeCursor` | internal/pagination/cursor.go:31-46 | an accepted token always carries a time that is not zero and an id that is not nil |
| `Pagination.AcceptedIff` | internal/pagination/cursor.go:31-46 | a token is accepted exactly when it is base64 of an object whose members are times and ids that spell such a cursor; any other is refused |
| `Pagination.RoundTripIff` | internal/pagination/cursor.go:20-46 | a token brings back its instant and id if and only if the zone offset is in whole minutes |
| `Pagination.RoundTripShift` | internal/pagination/cursor.go:20-46 | otherwise it is off by the seconds of the offset, east later and west earlier |
| `Pagination.OffsetSecondsAreLost` | internal/pagination/cursor.go:20-46 | concrete positions that come back 30 seconds later |
| `Pagination.EmptyTokenIsRejected` | internal/pagination/cursor.go:41-44 | tokens of null and {} are valid JSON and are rejected |
| `Pagination.HalfTokenIsRejected` | internal/pagination/cursor.go:41-44 | so are tokens with only a time or only an id |
| `Pagination.SameTokenIff` | internal/pagination/cursor.go:20-26 | two cursors share a token exactly when their ids and printed times agree, and then they mark the same place exactly when their offsets are equal |

## Left out

- Process wiring, signals and HTTP server shutdown in `cmd/`; a shutdown request is a step of the environment.
- Telemetry, trace headers, logging and metrics, which change neither settlement nor stored state.
- HTTP envelopes, status texts and per-field messages: the replies say which case and which fields.
- JSON of events and responses: an event body is its record or does not decode. A response that cannot be encoded (a year past 9999) is not modelled.
- `Pagination.DecodeCursor`: accepts the compact objects of createdAt and id that the encoder's own grammar spells, in any order; white space, escapes, other keys, other spellings of a UUID and the laxer timestamps that Go also reads count as malformed here.
- `ListOrders.ReadFilter`: timestamps and tokens in the laxer spellings that Go also reads are reported as unusable here.
- `ListOrders.ListOrders`: answers 400 to those spellings, for the same reason.
- `LoopAgreement.LoopFollowsProtocol`: compares the settlement, from the point where the handling has its result; the handling before it is the subject of `DatabaseRuns.HandlingIsExecuteOrder`.
- Transactions of `Protocol` that outlive their process (see the assumptions).
- `Rfc3339.Parse`: the strict form of section 5.6 of RFC 3339 only; it also stands for the createdAfter and createdBefore parameters.
- Upper-casing and trimming outside ASCII, and invalid UTF-8.
- Floating point: prices are reals, so rounding, NaN and infinity do not occur.
- Precision of TIMESTAMPTZ: a stored time is taken as it is read back.
- Overflow of limit + 1 for a limit of the largest integer, which `ListOrders` cannot pass on.
- The place at which a requeued message returns to the work queue: `Deliver` may take any message, which covers every place.
- `Store.OrderStore.ExecuteOrder`: its statements are split over Update, Record, Look and their callers; the 8 s timeout is the fault or the lock wait that ends the call.
- `Pages.OrdersTable.List`: the query text is a list of conditions, and its split into ReadPage, BuildQuery, QueryContext and ReadRows is not in the source; nor are those of `ListOrders` and of `Run` into their bodies.
- The select of the consumer loop is a sequence of inputs; concurrency is in `Protocol`.
- A second publish of the same event, and messages from other producers.
- LIMIT price matching, reconciliation of stuck PENDING orders and idempotent `POST`s, which the repository does not provide.
- Connection setup, prefetch and consume calls before the loop of `Run` beyond `SetupTopology`.
