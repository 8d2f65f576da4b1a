# Message broker patterns: a verified model

The consumers, relays and stores of the backend's message broker patterns, modelled together with
the two abstractions they rest on: a stream read through a consumer group, and a plain stream read
past a cursor. Handlers, arrivals, failures, crashes, clocks and the scheduling of everyone else
are parameters that the theorems quantify over.

Each pattern over streams has two descriptions. A state machine takes one step per `await`, with
crashes and restarts as steps of their own; its theorems hold for every sequence of steps. Beside
it the loop itself is written as methods over mutable objects and proved to follow the machine or
a specification function whose properties are proved.

| component | files |
|---|---|
| dead-letter queue consumer | `Dlq*.dfy`, `PaymentFields.dfy`, `Decimal.dfy` |
| competing consumers | `Competing*.dfy` |
| strict priority | `Priority*.dfy` |
| choreographed saga | `Saga*.dfy` |
| idempotency stores | `IdempotencyModel.dfy`, `InMemoryIdempotency.dfy`, `RedisIdempotency.dfy`, `RedisWindow.dfy` |
| transactional outbox | `Outbox*.dfy` |
| event sourcing | `Account*.dfy`, `EventSourcing.dfy`, `Projector.dfy` |
| scatter-gather | `TopicModel.dfy`, `ScatterGather.dfy` |
| latency percentiles | `Percentile.dfy` |
| shared | `Streams.dfy`, `Basics.dfy` |

`dafny verify dfyconfig.toml` checks everything.

## Where the code and its documentation differ

The model follows the code.

- The DLQ guide says the guard absorbs a crash after the side effect
  (`dlq_pattern/README.md:179`). The id is recorded after the handler, so such a crash repeats the
  effect: `DlqRepeat.CrashAfterReturnCanRepeat`. What holds is `DlqEffects.EffectsAreBounded`.
- Moving to the dead-letter queue acks before it appends, so a crash between the two loses the
  message: `DlqAccounting.CrashInMoveLosesTheMessage`. Nothing else is lost.
- A `max_attempts` below one behaves as one.
- Dead letters can leave publish order after a restart, because attempts start from zero again.
  They keep it when every payment left pending is already processed
  (`DlqOrder.DeadLettersKeepOrder`) and with batches of one and at least two attempts
  (`DlqRestart.OneByOneKeepsOrder`). With a budget of one the first condition is exact
  (`DlqRestart.SingleAttemptKeepsOrderIff`). With larger batches and budgets, and leftovers that fit
  one batch, order is kept exactly when they fill it or all of them are already processed
  (`DlqRestart.BacklogWithinAPageKeepsOrderIff`).
- The strict-priority docstring promises that no lower ticket is claimed while a higher one waits.
  A publish between two reads of one scan breaks it. `PriorityInversion.EarlierTierWaits` says
  exactly when, `PriorityInversion.OvertakenByOneBatch` bounds the damage.
- The saga guide says the cursor advances after an event is handled; it advances before, and it is
  local to the run (`saga_pattern/runner.py:36-47`).
- A runner routes the events of every order but stops at its own order's terminal status, which
  can leave another order undecided until another run starts: `SagaStop.StopStrandsAnother`. Exactly
  when is `SagaStop.DecidedIffNothingOwed`; what the next run does is `SagaStop.NextRunDecidesOrOwes`.
- Every run reads the streams from the beginning, so a second one repeats old payments and shipments
  and can take a completed order out of its terminal status: `SagaStop.SecondRunReopens`.
- `Payment.from_fields` is called outside the `try` (`dlq_pattern/consumer.py:59`). An entry that does
  not decode ends the consumer, stays pending and is never dead-lettered.
- `EventStore.read` is documented to return the full history; it does so exactly when the history
  fits one page of a hundred.
- The Redis store's ttl is sent in whole milliseconds. A positive ttl below one millisecond passes
  validation and disables the store: `RedisIdempotency.WriteIsRemembered`.
- The two idempotency stores are described as interchangeable. A key that is claimed with
  `mark_if_new` can be remembered by the Redis one and forgotten by the in-process one:
  `RedisIdempotency.ClaimsBreakTheInclusion`, and exactly when in `RedisIdempotency.InclusionHoldsIff`.

Paths in this section are relative to `packages/backend/src/message_broker_patterns/`.

## Model

| member | source | states |
|---|---|---|
| Streams.PendingIds | packages/backend/src/message_broker_patterns/dlq_pattern/broker.py:94-114 | a backlog read returns at most `count` ids the reader owns, ascending, and skips none older than one it returns |
| Streams.PendingIdsEmpty | packages/backend/src/message_broker_patterns/dlq_pattern/broker.py:105-107 | a backlog read comes back empty exactly when the reader owns nothing |
| Streams.IdleIds | packages/backend/src/message_broker_patterns/competing_consumers_pattern/broker.py:77-99 | a reclaim takes the oldest pending entries of those idle for long enough, ascending, and fewer than `count` only when there are no more |
| DlqConsumer.DLQBroker.ReadNew | packages/backend/src/message_broker_patterns/dlq_pattern/broker.py:72-92 | hands out the oldest undelivered messages and makes the reader their owner |
| DlqConsumer.DLQBroker.ReadPending | packages/backend/src/message_broker_patterns/dlq_pattern/broker.py:94-114 | returns the reader's own unacked messages, oldest first, and changes nothing |
| DlqConsumer.DLQBroker.Ack | packages/backend/src/message_broker_patterns/dlq_pattern/broker.py:116-119 | removes one pending entry and says whether there was one |
| DlqConsumer.DLQBroker.MoveToDlq | packages/backend/src/message_broker_patterns/dlq_pattern/broker.py:121-148 | the message leaves the pending list and a letter with its payment, reason and attempt joins the end of the dead letters |
| DlqConsumer.HandleDelivery | packages/backend/src/message_broker_patterns/dlq_pattern/consumer.py:58-99 | one delivery: a duplicate is acked and nothing else happens; a return records the payment, acks and counts one; a raise leaves the entry with one attempt more or dead-letters it with payment, reason and attempt |
| DlqConsumer.RunIdempotentConsumer | packages/backend/src/message_broker_patterns/dlq_pattern/consumer.py:46-107 | the loop ends in the state of the specification run, and what it returns is the number of handler calls that returned and the growth of the processed set |
| DlqFates.ProcessedIsReturned | packages/backend/src/message_broker_patterns/dlq_pattern/consumer.py:60-99 | whatever is pending and whatever the handler does: the payments processed are those of the calls that returned, in order, each payment id once, and nothing already recorded is ever called |
| DlqFates.EveryFate | packages/backend/src/message_broker_patterns/dlq_pattern/consumer.py:60-99 | a message leaves the main stream at most once: processed if a call for it returned, dead-lettered if a whole budget of calls raised, and otherwise skipped, its payment having been recorded |
| DlqFates.LettersSayWhy | packages/backend/src/message_broker_patterns/dlq_pattern/consumer.py:73-87 | each new letter names what the last call for its message raised |
| DlqDrain.RunAccounts | packages/backend/src/message_broker_patterns/dlq_pattern/consumer.py:48-99 | any handler, any publishing meanwhile: processed + skipped + dead-lettered + what is left equals what there was plus what was published, and calls never exceed `max_attempts` per message |
| DlqDrain.Drains | packages/backend/src/message_broker_patterns/dlq_pattern/consumer.py:46-99 | with nothing more published the backlog empties after as many turns as the measure, every message settled once, with at most `max_attempts` calls a message |
| DlqOrder.DeadLettersKeepOrder | packages/backend/src/message_broker_patterns/dlq_pattern/consumer.py:49-58 | when every payment left pending is already processed, dead letters appear in publish order for every handler, batch size and publishing schedule |
| DlqLetters.EveryLetterSpentOneBudget | packages/backend/src/message_broker_patterns/dlq_pattern/consumer.py:73-87 | a dead letter cost exactly one budget of handler calls, no message costs more, and the letter carries that payment and attempt |
| DlqLetters.DeadLettersAreThePoison | packages/backend/src/message_broker_patterns/dlq_pattern/consumer.py:70-99 | a drained run that began with nothing pending dead-letters exactly the poison messages, in main-stream order, even when other payments fail now and then |
| DlqLetters.RestartBreaksOrder | packages/backend/src/message_broker_patterns/dlq_pattern/consumer.py:49-54 | a concrete run in which a newer message dies before one left pending by an earlier run |
| DlqRestart.OneByOneKeepsOrder | packages/backend/src/message_broker_patterns/dlq_pattern/consumer.py:49-58 | with batches of one and at least two attempts, order is kept from any start, whatever is pending |
| DlqRestart.SingleAttemptKeepsOrderIff | packages/backend/src/message_broker_patterns/dlq_pattern/consumer.py:49-87 | with a budget of one, order is kept for every handler and schedule if and only if every payment left pending is already processed |
| DlqRestart.BacklogWithinAPageKeepsOrderIff | packages/backend/src/message_broker_patterns/dlq_pattern/consumer.py:49-87 | with batches of two or more, at least two attempts and leftovers of its own that fit one batch, whatever is undelivered: order is kept for every handler and schedule if and only if the leftovers fill the batch exactly or each one's payment is already processed |
| DlqSafety.RunHolds | packages/backend/src/message_broker_patterns/dlq_pattern/consumer.py:46-107 | over every interleaving, crash and restart of any number of consumers, what a consumer works on is pending under its name or already acked by it |
| DlqBudget.RunCounts | packages/backend/src/message_broker_patterns/dlq_pattern/consumer.py:73-75 | over every interleaving, handler calls on one message in one run never exceed the budget and the counter counts them |
| DlqAccounting.RunAccounted | packages/backend/src/message_broker_patterns/dlq_pattern/broker.py:116-148 | over every interleaving each message has exactly one fate and the dead-letter stream is exactly the buried messages |
| DlqAccounting.NeverPendingAndDead | packages/backend/src/message_broker_patterns/dlq_pattern/broker.py:135-137 | no message is ever both pending and dead-lettered |
| DlqAccounting.NothingElseIsLost | packages/backend/src/message_broker_patterns/dlq_pattern/broker.py:121-148 | a message not inside a move is undelivered, pending, recorded as processed, dead-lettered, or lost to a crash inside a move |
| DlqAccounting.LostAtMostOncePerCrash | packages/backend/src/message_broker_patterns/dlq_pattern/broker.py:135-137 | messages lost are at most the crashes that fell between the ack and the append |
| DlqAccounting.CrashInMoveLosesTheMessage | packages/backend/src/message_broker_patterns/dlq_pattern/broker.py:135-137 | such a crash does lose its message: nothing that follows makes it pending, settled or dead-lettered |
| DlqEffects.EffectsAreBounded | packages/backend/src/message_broker_patterns/dlq_pattern/consumer.py:70-95 | one consumer name completes the handler for a payment at most once more than it crashed between that and recording the id |
| DlqEffects.MarkedIsFinal | packages/backend/src/message_broker_patterns/dlq_pattern/consumer.py:60-69 | once a payment id is recorded no later handler call, success or dead letter of that consumer is for it |
| DlqRefinement.RunIsATrace | packages/backend/src/message_broker_patterns/dlq_pattern/consumer.py:46-107 | the sequential loop is one schedule of the await-level machine, so the results over all interleavings hold of it |
| DlqRepeat.CrashAfterReturnCanRepeat | packages/backend/src/message_broker_patterns/dlq_pattern/consumer.py:71-95 | from every reachable state between the handler's return and the record, a crash and a restart can make the same payment succeed again |
| PaymentFields.PaymentRoundTrip | packages/backend/src/message_broker_patterns/dlq_pattern/models.py:24-41 | every payment, negative amounts included, is read back from its fields, whatever else the entry carries |
| PaymentFields.FieldsOnTheWire | packages/backend/src/message_broker_patterns/dlq_pattern/models.py:24-31 | the names and texts of the four fields |
| PaymentFields.FailsAtTheFirst | packages/backend/src/message_broker_patterns/dlq_pattern/models.py:33-41 | an entry is read exactly when the four lookups succeed in turn, and otherwise the first that does not is the error |
| PaymentFields.WritesBackIffCanonicalAmount | packages/backend/src/message_broker_patterns/dlq_pattern/models.py:24-41 | fields read and written back are unchanged exactly when the amount was canonical decimal text |
| Decimal.TextRoundTrip | packages/backend/src/message_broker_patterns/dlq_pattern/models.py:28-38 | reading the decimal text of an integer gives the integer |
| Decimal.PlaceValue | packages/backend/src/message_broker_patterns/dlq_pattern/models.py:38 | digits count by place |
| Decimal.SignsRead | packages/backend/src/message_broker_patterns/dlq_pattern/models.py:38 | a minus sign negates and a plus sign changes nothing |
| Decimal.SignIsWritten | packages/backend/src/message_broker_patterns/dlq_pattern/models.py:28 | only negative integers are written with a sign |
| Decimal.WritesBackIffCanonical | packages/backend/src/message_broker_patterns/dlq_pattern/models.py:28-38 | writing what was read gives the same text exactly when it has no plus sign, leading zero or minus zero |
| CompetingGuarantees.EntryIsInOnePlace | packages/backend/src/message_broker_patterns/competing_consumers_pattern/broker.py:52-75 | over every interleaving each entry is exactly one of undelivered, pending with one owner, or acked |
| CompetingGuarantees.AckedIsHandled | packages/backend/src/message_broker_patterns/competing_consumers_pattern/consumer.py:28-31 | an entry is acked only after some handler call on it completed |
| CompetingGuarantees.CallsAreBounded | packages/backend/src/message_broker_patterns/competing_consumers_pattern/consumer.py:75-91 | handler calls on an entry are at most one more than the times it was reclaimed |
| CompetingGuarantees.UnreclaimedIsExactlyOnce | packages/backend/src/message_broker_patterns/competing_consumers_pattern/consumer.py:75-91 | an entry never reclaimed is handled at most once, and exactly once if acked |
| CompetingGuarantees.PendingCount | packages/backend/src/message_broker_patterns/competing_consumers_pattern/broker.py:101-105 | the pending count is the number of entries delivered and not acked |
| CompetingGuarantees.RunIsSafe | packages/backend/src/message_broker_patterns/competing_consumers_pattern/consumer.py:75-94 | the invariant of every run: each entry has one place, calls and acks are backed by deliveries, and no entry is read as new twice |
| CompetingGuarantees.StreamIsWhatWasPublished | packages/backend/src/message_broker_patterns/competing_consumers_pattern/broker.py:27-33 | the stream is the published tasks in order, whatever consumers do |
| CompetingConsumer.CompetingConsumersBroker.ReclaimStale | packages/backend/src/message_broker_patterns/competing_consumers_pattern/broker.py:77-99 | after whatever others did, the oldest pending entries among the idle ones, up to `count` and all of them if fewer, each become the caller's with one ticket in order; nothing else changes owner |
| CompetingConsumer.CompetingConsumersBroker.ReadNew | packages/backend/src/message_broker_patterns/competing_consumers_pattern/broker.py:52-70 | after whatever others did, the oldest undelivered entries, up to `count` and all of them if fewer, become the caller's with one ticket each in order |
| CompetingConsumer.HandleBatch | packages/backend/src/message_broker_patterns/competing_consumers_pattern/consumer.py:18-40 | every ticket of the batch ends with a completed call and its entry acked, and the count returned is the acks made |
| CompetingConsumer.RunConsumer | packages/backend/src/message_broker_patterns/competing_consumers_pattern/consumer.py:43-97 | interleaved with anyone else, every turn reclaims the oldest idle entries and reads the oldest undelivered ones; at the end each of them has a completed call by this consumer and is acked, the number returned is its acks, and it made no other await |
| PriorityInversion.OvertakenByOneBatch | packages/backend/src/message_broker_patterns/priority_queue_pattern/consumer.py:102-123 | between its publish and its claim a ticket sees at most `count` tickets of later tiers handled |
| PriorityInversion.EarlierTierWaits | packages/backend/src/message_broker_patterns/priority_queue_pattern/consumer.py:104-107 | the strict order is broken exactly when an earlier tier grew after this scan found it empty |
| PriorityInversion.PublishInsideScanIsOvertaken | packages/backend/src/message_broker_patterns/priority_queue_pattern/consumer.py:81-84 | a concrete run that claims a low ticket while a high one waits, against the docstring |
| PriorityRestart.StrandedPerRestart | packages/backend/src/message_broker_patterns/priority_queue_pattern/consumer.py:102-111 | tickets claimed and never acked are the batch in hand and at most `count` for each restart, since the consumer never re-reads its backlog |
| PriorityDrain.DrainsInTierOrder | packages/backend/src/message_broker_patterns/priority_queue_pattern/consumer.py:102-125 | a fixed backlog is handled tier after tier, each in order, within a bounded number of awaits, and all of it acked |
| PrioritySort.StrictDrainIsAStableSort | packages/backend/src/message_broker_patterns/priority_queue_pattern/consumer.py:102-125 | the handled sequence is the publish sequence stably sorted by scan order, for every `count` |
| PrioritySort.PublishingRoutes | packages/backend/src/message_broker_patterns/priority_queue_pattern/broker.py:36-50 | each ticket goes to the end of its own tier's stream and to no other |
| PriorityConsumer.PriorityQueueBroker.ReadNew | packages/backend/src/message_broker_patterns/priority_queue_pattern/broker.py:74-98 | the batch is the oldest undelivered tickets of the tier whose turn it is, after whatever was published meanwhile; an empty one moves the scan on |
| PriorityConsumer.RunStrictPriorityConsumer | packages/backend/src/message_broker_patterns/priority_queue_pattern/consumer.py:65-131 | the scan-and-restart loop, interleaved with publishers, makes one scan a turn and returns the number of tickets it handled; its state is the machine's after exactly the awaits it made, each with what was published before it |
| SagaProtocol.PaymentsMatchAmounts | packages/backend/src/message_broker_patterns/saga_pattern/services/payment_service.py:19-33 | over every interleaving PaymentProcessed appears only for a positive amount and PaymentFailed only for one that is not |
| SagaProtocol.QuiescentIsFinal | packages/backend/src/message_broker_patterns/saga_pattern/runner.py:33-80 | for any number of orders and duplicates and any succession of runs, some ended between any two awaits or by a crash: with all cursors of a run at the end every published order the order service knows is completed if its amount is positive and cancelled otherwise |
| SagaProgress.ConsumesAtMostTheWeight | packages/backend/src/message_broker_patterns/saga_pattern/runner.py:46-71 | consuming publishes more, yet the runner alone consumes no more events than the weight unread at the start |
| SagaProgress.StopsOrRests | packages/backend/src/message_broker_patterns/saga_pattern/runner.py:44-82 | from any state and whatever the page boundaries, a runner left alone stops or has nothing left to read after a bounded number of awaits |
| SagaStop.StopsFinalOrRests | packages/backend/src/message_broker_patterns/saga_pattern/runner.py:44-82 | after any succession of runs, one going on and left alone stops with its own order at its final status or has nothing left to read |
| SagaStop.OwnOrderIsDecided | packages/backend/src/message_broker_patterns/saga_pattern/runner.py:73-80 | a runner whose own order has been published stops, with that order at its final status |
| SagaStop.EveryOrderIsDecidedOrOwed | packages/backend/src/message_broker_patterns/saga_pattern/runner.py:44-80 | every other published order is then at its final status too, unless the runner stopped with an event about it unread |
| SagaStop.DecidedIffNothingOwed | packages/backend/src/message_broker_patterns/saga_pattern/runner.py:73-80 | an order published once is decided, when the first run stops and until another starts, if and only if the stop left nothing about it unread or in flight |
| SagaStop.StrandedUntilNextRun | packages/backend/src/message_broker_patterns/saga_pattern/runner.py:73-80 | an order not decided when a run ends stays undecided, whatever others do, until another run starts |
| SagaStop.NextRunDecidesOrOwes | packages/backend/src/message_broker_patterns/saga_pattern/runner.py:33-47 | however the last run ended, in the middle of an event included: the next one, left alone, decides its own order, and every order published before is then decided too or has an event about it left unread again |
| SagaStop.SecondRunReopens | packages/backend/src/message_broker_patterns/saga_pattern/runner.py:36-40 | an input on which a second run reads an old payment again and takes a completed order out of its terminal status |
| SagaStop.StopStrandsAnother | packages/backend/src/message_broker_patterns/saga_pattern/runner.py:73-80 | an input on which the runner cancels its own order and leaves another one paid until another run starts |
| SagaStop.DuplicateIsDecidedAndOwed | packages/backend/src/message_broker_patterns/saga_pattern/runner.py:73-80 | a run that ends with its order, delivered a second time, completed and the second delivery unread, so single delivery is needed for the equivalence |
| SagaOnce.TerminalIsKept | packages/backend/src/message_broker_patterns/saga_pattern/services/order_service.py:38-64 | within one run an order created and published at most once never leaves the terminal status it reached |
| SagaOnce.CancelledIsKept | packages/backend/src/message_broker_patterns/saga_pattern/services/payment_service.py:19-33 | an order without a positive amount stays cancelled, however often its OrderCreated is delivered or read again, over any number of runs |
| SagaOnce.SecondPublishReopens | packages/backend/src/message_broker_patterns/saga_pattern/services/order_service.py:38-43 | publishing a completed order again takes it out of its terminal status, so single delivery is needed |
| SagaReplies.RepliesMatchCauses | packages/backend/src/message_broker_patterns/saga_pattern/runner.py:46-71 | over any succession of runs every payment event, shipment and compensation is on its stream, being sent, or dropped by a runner that ended, exactly once for each event consumed that calls for it; a compensation only for an order known at that moment |
| SagaReplies.RepliesAreAtHome | packages/backend/src/message_broker_patterns/saga_pattern/runner.py:46-71 | no such event is ever on another stream than its own |
| SagaRunner.SagaBroker.Consume | packages/backend/src/message_broker_patterns/saga_pattern/broker.py:18-25 | at most one hundred events after the cursor, in order |
| SagaRunner.OrderService.HandlePaymentFailed | packages/backend/src/message_broker_patterns/saga_pattern/services/order_service.py:46-55 | a known order is cancelled and its compensation appended; an unknown one changes nothing |
| SagaRunner.OrderService.HandlePaymentProcessed | packages/backend/src/message_broker_patterns/saga_pattern/services/order_service.py:38-44 | a known order becomes paid; an unknown one changes nothing |
| SagaRunner.OrderService.HandleOrderShipped | packages/backend/src/message_broker_patterns/saga_pattern/services/order_service.py:57-64 | a known order becomes completed; an unknown one changes nothing |
| SagaRunner.OrderService.PublishCreated | packages/backend/src/message_broker_patterns/saga_pattern/services/order_service.py:28-36 | the order is in payment processing and its OrderCreated is on the orders stream |
| SagaRunner.PaymentService.HandleOrderCreated | packages/backend/src/message_broker_patterns/saga_pattern/services/payment_service.py:19-33 | one payment event, failed exactly when the amount is not positive |
| SagaRunner.ShippingService.HandlePaymentProcessed | packages/backend/src/message_broker_patterns/saga_pattern/services/shipping_service.py:18-23 | one OrderShipped on the shipping stream |
| SagaRunner.RunSaga | packages/backend/src/message_broker_patterns/saga_pattern/runner.py:24-84 | whatever agreeing events were on the streams and whatever orders others place, repeat or publish before any read: the run stops at the first pass that finds its order terminal, that status is the right one, as many passes as the weight there was and came always reach one, any order on course is left final or with an event unread, and the streams gained what the others published and one answer for each event consumed that calls for it, compensations for known orders only |
| SagaRefinement.PassesAreATrace | packages/backend/src/message_broker_patterns/saga_pattern/runner.py:44-80 | the page-at-a-time passes, with what others publish between the reads, up to and including the pass after which the runner stops, are a schedule of the await-level machine |
| SagaRefinement.RunBeginsTheLoop | packages/backend/src/message_broker_patterns/saga_pattern/runner.py:33-40 | the start of a run of the machine is the order created and published and the loop at the beginning of every stream |
| InMemoryIdempotency.InMemoryIdempotencyStore.IsProcessed | packages/backend/src/message_broker_patterns/entities/idempotency.py:115-117 | true exactly when the key's last recorded mark plus the ttl is after now, so purging is unobservable |
| InMemoryIdempotency.InMemoryIdempotencyStore.MarkProcessed | packages/backend/src/message_broker_patterns/entities/idempotency.py:119-121 | records the mark, and the dictionary then holds exactly the keys of the last ttl |
| InMemoryIdempotency.InMemoryIdempotencyStore.MarkIfNew | packages/backend/src/message_broker_patterns/entities/idempotency.py:123-129 | wins exactly when the key is not remembered and records it only then |
| InMemoryIdempotency.InMemoryIdempotencyStore.PurgeExpired | packages/backend/src/message_broker_patterns/entities/idempotency.py:150-155 | drops exactly the expired keys |
| InMemoryIdempotency.InMemoryIdempotencyStore.Size | packages/backend/src/message_broker_patterns/entities/idempotency.py:131-134 | counts exactly the keys remembered, purged or not |
| InMemoryIdempotency.Open | packages/backend/src/message_broker_patterns/entities/idempotency.py:42-51 | a store exists exactly for a positive ttl |
| InMemoryIdempotency.RunStore | packages/backend/src/message_broker_patterns/entities/idempotency.py:115-155 | over any operations on a clock that never goes back, every answer is that of the plain history of marks |
| IdempotencyModel.WinsAreATtlApart | packages/backend/src/message_broker_patterns/entities/idempotency.py:123-129 | two claims of one key are at least a ttl apart |
| IdempotencyModel.RememberedIffRecorded | packages/backend/src/message_broker_patterns/entities/idempotency.py:115-129 | a key is remembered if and only if an operation of the last ttl recorded it |
| RedisIdempotency.RememberedWasMarkedRecently | packages/backend/src/message_broker_patterns/entities/idempotency.py:165-172 | a remembered key was marked less than a ttl ago |
| RedisIdempotency.HeldUntilDeadline | packages/backend/src/message_broker_patterns/entities/idempotency.py:165-172 | from a write until its window closes the key is remembered, and no window outlives a write in it by more than a ttl |
| RedisIdempotency.OneWinnerPerWindow | packages/backend/src/message_broker_patterns/entities/idempotency.py:206-209 | two claims of one key lie in different windows |
| RedisIdempotency.RedisRemembersNoMore | packages/backend/src/message_broker_patterns/entities/idempotency.py:199-209 | for a key that is never claimed, whatever the shared store remembers the in-process one remembers |
| RedisIdempotency.InclusionHoldsIff | packages/backend/src/message_broker_patterns/entities/idempotency.py:123-129 | of any key: that the in-process store remembers what the shared one holds is the same as that a plain mark or a claim it accepted lies within the last ttl whenever the shared one holds it |
| RedisIdempotency.ClaimsBreakTheInclusion | packages/backend/src/message_broker_patterns/entities/idempotency.py:123-129 | for a claimed key the inclusion can fail, on a concrete trace |
| RedisIdempotency.WriteIsRemembered | packages/backend/src/message_broker_patterns/entities/idempotency.py:174-178 | a write is remembered at all exactly when the ttl is at least a millisecond |
| RedisWindow.HeldIffInAnOpenWindow | packages/backend/src/message_broker_patterns/entities/idempotency.py:165-209 | a key is held exactly while the window it was written in is open, which lasts the ttl in whole milliseconds from the write that opened it, whatever is written later |
| RedisIdempotency.RedisIdempotencyStore.MarkIfNew | packages/backend/src/message_broker_patterns/entities/idempotency.py:206-209 | adds the key, opens a window when there is none, and says whether the key was new |
| OutboxSafety.CommittedIsNotLost | packages/backend/src/message_broker_patterns/outbox_pattern/relay.py:21-28 | under any inserts, failures, crashes and restarts a committed order is in the outbox or on the stream |
| OutboxSafety.SentWasCommitted | packages/backend/src/message_broker_patterns/outbox_pattern/store.py:39-48 | nothing is on the stream that was not committed |
| OutboxSafety.StreamIsAStutteringPrefix | packages/backend/src/message_broker_patterns/outbox_pattern/relay.py:22-28 | the stream is a prefix of the insertion order with elements repeated in place |
| OutboxSafety.RepeatsArePaidByCrashes | packages/backend/src/message_broker_patterns/outbox_pattern/relay.py:26-28 | a row is sent once plus once per crash between its publish and its delete |
| OutboxSafety.StreamIsAccountedFor | packages/backend/src/message_broker_patterns/outbox_pattern/relay.py:26-28 | stream plus outbox is what was committed plus one per crash in the window plus the one in hand |
| OutboxSafety.CrashRepeats | packages/backend/src/message_broker_patterns/outbox_pattern/relay.py:26-28 | a concrete crash that sends an order twice |
| OutboxRelay.OutboxStore.InsertOrderWithOutbox | packages/backend/src/message_broker_patterns/outbox_pattern/store.py:29-51 | both rows with the next id, or neither when the order id is taken |
| OutboxRelay.OutboxStore.PollOutbox | packages/backend/src/message_broker_patterns/outbox_pattern/store.py:54-67 | the oldest rows, at most the limit |
| OutboxRelay.OutboxStore.DeleteOutboxEntry | packages/backend/src/message_broker_patterns/outbox_pattern/store.py:70-73 | removes the rows of that id |
| OutboxRelay.Run | packages/backend/src/message_broker_patterns/outbox_pattern/relay.py:13-32 | a failure is reported exactly when the last publish attempted failed and no earlier one did; the oldest rows, one for each publish that did not fail, are on the stream and gone from the outbox in order, the orders inserted are those that arrived during the publishes, and a sweep without a failure takes ten rows until those there at the start are gone |
| OutboxRelay.DrainsInTenths | packages/backend/src/message_broker_patterns/outbox_pattern/relay.py:21-31 | with nothing arriving n rows are gone after exactly n/10 sweeps, rounded up |
| AccountEvents.EventRoundTrip | packages/backend/src/message_broker_patterns/event_sourcing_pattern/events.py:88-101 | an appended event is decoded as itself |
| AccountEvents.DecodesExactlyTheKnown | packages/backend/src/message_broker_patterns/event_sourcing_pattern/events.py:88-101 | decoding succeeds exactly when the type is known and its two fields are present, the error names the unknown type or the first missing field, and what is decoded writes back to fields of the entry |
| AccountModel.LiveEqualsReplay | packages/backend/src/message_broker_patterns/event_sourcing_pattern/aggregate.py:34-81 | after any accepted and rejected commands the account is the replay of its encoded and decoded events exactly when it was created (or its id is empty) |
| AccountModel.EveryPrefixIsSolvent | packages/backend/src/message_broker_patterns/event_sourcing_pattern/aggregate.py:49-57 | every prefix of the events replays to a balance of at least zero and to its own length as version |
| AccountModel.LogSaysWhatHappened | packages/backend/src/message_broker_patterns/event_sourcing_pattern/aggregate.py:34-81 | the stream holds one entry for each accepted command, in order, under its own event type and with its own amount |
| AccountModel.BalanceIsDepositsLessWithdrawals | packages/backend/src/message_broker_patterns/event_sourcing_pattern/aggregate.py:34-81 | the balance is the accepted deposits less the accepted withdrawals, and a command is accepted exactly when it is the one creation, first, or a covered amount above zero |
| AccountModel.SameAnswersAsTheTable | packages/backend/src/message_broker_patterns/event_sourcing_pattern/naive.py:65-99 | account and table accept the same commands with the same balance, and other rows are never touched |
| AccountModel.ReasonsDifferIff | packages/backend/src/message_broker_patterns/event_sourcing_pattern/naive.py:75-99 | a command both refuse is refused for the same reason unless its amount is not positive and the account was never created |
| EventSourcing.BankAccount.ApplyEvent | packages/backend/src/message_broker_patterns/event_sourcing_pattern/aggregate.py:63-73 | the fold step; an amount that is no number fails and changes nothing |
| EventSourcing.BankAccount.Deposit | packages/backend/src/message_broker_patterns/event_sourcing_pattern/aggregate.py:41-47 | accepted exactly when created and positive, and the balance grows by the amount |
| EventSourcing.BankAccount.Withdraw | packages/backend/src/message_broker_patterns/event_sourcing_pattern/aggregate.py:49-57 | accepted exactly when created, positive and covered, and the balance falls by the amount |
| EventSourcing.ReplayEvents | packages/backend/src/message_broker_patterns/event_sourcing_pattern/aggregate.py:76-81 | the loop gives the fold, or the error of the first event that cannot be applied |
| EventSourcing.NaiveAccounts.Withdraw | packages/backend/src/message_broker_patterns/event_sourcing_pattern/naive.py:82-89 | overwrites the balance, or refuses in the table's own order of checks |
| EventSourcing.RunBoth | packages/backend/src/message_broker_patterns/event_sourcing_pattern/aggregate.py:34-81 | driven by the same commands, the account, the stream it appended to and the table agree at the end |
| EventSourcing.EventStore.Append | packages/backend/src/message_broker_patterns/event_sourcing_pattern/store.py:17-23 | the entry joins the end of that account's stream and of no other |
| EventSourcing.EventStore.Read | packages/backend/src/message_broker_patterns/event_sourcing_pattern/store.py:25-38 | one page after the cursor, and from the beginning the whole history exactly when it fits one page |
| Projector.Project | packages/backend/src/message_broker_patterns/event_sourcing_pattern/projector.py:47-81 | the summary is the fold of exactly the prefix up to the cursor of a stream that gained what was appended between the polls; on a stream already long enough the polls are max(1, expected/100 rounded up) |
| Projector.FoldPage | packages/backend/src/message_broker_patterns/event_sourcing_pattern/projector.py:64-66 | every entry of the page is folded in once, in order, up to the first that fails |
| Projector.SummaryEqualsAccount | packages/backend/src/message_broker_patterns/event_sourcing_pattern/projector.py:34-44 | the read model of everything an account produced equals the account |
| Projector.LaggingSummaryWasTrue | packages/backend/src/message_broker_patterns/event_sourcing_pattern/projector.py:59-66 | a read model that lags is the account after some earlier command |
| TopicModel.TakenThenQueuedIsOffered | packages/backend/src/message_broker_patterns/scatter_gather_pattern/broker.py:35-75 | over every interleaving, taken followed by queued is what was published to the topic from subscribing to unsubscribing |
| TopicModel.PublishReachesTheLive | packages/backend/src/message_broker_patterns/scatter_gather_pattern/broker.py:64-75 | a publish adds its message once to every live subscription of the topic and to nothing else |
| TopicModel.UnsubscribeIsIdempotent | packages/backend/src/message_broker_patterns/scatter_gather_pattern/broker.py:48-61 | unsubscribing twice is unsubscribing once |
| ScatterGather.InMemoryTopicBroker.Publish | packages/backend/src/message_broker_patterns/scatter_gather_pattern/broker.py:64-75 | copies the message to each subscriber and returns how many there were |
| ScatterGather.InMemoryTopicBroker.Subscribe | packages/backend/src/message_broker_patterns/scatter_gather_pattern/broker.py:35-46 | a fresh queue joins the topic's list |
| ScatterGather.InMemoryTopicBroker.Unsubscribe | packages/backend/src/message_broker_patterns/scatter_gather_pattern/broker.py:48-61 | the queue leaves the list; nothing happens when it is not there |
| ScatterGather.ScatterGatherCoordinator.Scatter | packages/backend/src/message_broker_patterns/scatter_gather_pattern/aggregator.py:54-83 | one publish of the request to the broadcast topic, or one to each recipient's own in order, returning how many queues those topics had; a recipient list without recipients is an error that publishes nothing |
| ScatterGather.ScatterGatherCoordinator.Gather | packages/backend/src/message_broker_patterns/scatter_gather_pattern/aggregator.py:101-133 | returns exactly the matching quotes taken, takes nothing once there are enough, returns fewer than expected if and only if the clock has reached the deadline, and meanwhile others did exactly what their turns say, all of them unless the clock was late |
| ScatterGather.ScatterGatherCoordinator.Await | packages/backend/src/message_broker_patterns/scatter_gather_pattern/aggregator.py:108-112 | a queued quote is taken at once; otherwise the wait ends with the next one or with the deadline, whichever comes first |
| ScatterGather.ScatterGatherCoordinator.Search | packages/backend/src/message_broker_patterns/scatter_gather_pattern/aggregator.py:135-155 | the request goes once to the broadcast topic or once to each recipient's own, in order, before anything else is published, and reaches every queue those topics had; the answer is the start of the matching quotes published since subscribing, short only once the deadline is reached, and the queue is detached even on the error |
| ScatterGather.GatheredIsFirstMatching | packages/backend/src/message_broker_patterns/scatter_gather_pattern/aggregator.py:104-120 | gathering gives the first `expected` matching quotes |
| ScatterGather.ForeignQuotesChangeNothing | packages/backend/src/message_broker_patterns/scatter_gather_pattern/aggregator.py:113-119 | two arrival orders with the same matching quotes give the same answer |
| ScatterGather.SearchesAreIsolated | packages/backend/src/message_broker_patterns/scatter_gather_pattern/aggregator.py:94-99 | searches with distinct ids share no quote |
| Percentile.PercentileIsNearestRank | packages/backend/src/message_broker_patterns/bench.py:109-123 | defined exactly on a sample with a quantile in 0..100, with the error that names what is wrong otherwise, and then the smallest observed value with at least that share at or below it |
| Percentile.NearestRankIsUnique | packages/backend/src/message_broker_patterns/bench.py:109-123 | that description determines the result |
| Percentile.PermutationInvariant | packages/backend/src/message_broker_patterns/bench.py:121-123 | the order of the samples does not matter |
| Percentile.MonotoneInQuantile | packages/backend/src/message_broker_patterns/bench.py:121-123 | a higher quantile is never a lower value |
| Percentile.PercentileScales | packages/backend/src/message_broker_patterns/bench.py:143-149 | the change to milliseconds commutes with taking a percentile |
| Percentile.SummaryIsOrdered | packages/backend/src/message_broker_patterns/bench.py:138-152 | min, p50, p95, p99 and max are in order and the mean lies between min and max |
| Percentile.SummaryEndsAreExtremes | packages/backend/src/message_broker_patterns/bench.py:138-152 | min and max are the least and the greatest latency, in milliseconds |
| Percentile.SummaryPercentiles | packages/backend/src/message_broker_patterns/bench.py:138-152 | p50, p95 and p99 are those percentiles of the latencies, in milliseconds |
| Percentile.SummaryMean | packages/backend/src/message_broker_patterns/bench.py:138-152 | the mean is the sum of the latencies over their number, in milliseconds |

## Left out

- RedisIdempotency.RedisRemembersNoMore: stated for keys that are never claimed; RedisIdempotency.InclusionHoldsIff says when it holds of any key.
- PrioritySort.StrictDrainIsAStableSort: asks for a scan order without repeated tiers, and so does PriorityInversion.OvertakenByOneBatch; the default order has none, and a repeated tier has no single place in the order.
- DlqLetters.DeadLettersAreThePoison: which payments are poison depends on the payment id alone; DlqOrder.DeadLettersKeepOrder covers every handler.
- DlqRestart.BacklogWithinAPageKeepsOrderIff: leftovers of at most one batch. With more, whether order can break depends on how they fall into batches and on payment ids that occur twice among them, and that is not worked out.
- SagaStop.DecidedIffNothingOwed: for the first run and orders published once; for later runs SagaStop.NextRunDecidesOrOwes holds, and for an order delivered several times SagaStop.EveryOrderIsDecidedOrOwed.
- SagaProtocol.QuiescentIsFinal: runs of the saga follow one another; two at work on the same services at once are not modelled.
- Percentile.PercentileIsNearestRank: exact reals; floating-point rounding of `quantile / 100 * n` can shift a rank.
- RedisIdempotency.RememberedWasMarkedRecently: one microsecond clock for client and server; the server's own millisecond rounding and what it answers at the exact instant of the deadline are not modelled.
- SagaRunner.RunSaga: the stop event is a bound on the passes, and others publish between the reads; what they publish while a page is being handled is in SagaProtocol.
- ScatterGather.ScatterGatherCoordinator.Gather: what others do while the gather is suspended is a finite list of turns with their times; once it is used up nothing more is published before the deadline.
- DlqConsumer.RunIdempotentConsumer: one consumer with publishers between its turns; the interleavings inside a turn, other consumers and crashes are in DlqProtocol. Every entry of its stream decodes: PaymentFields.FromFields says which fields do not, and the end of the consumer on such an entry is not modelled.
- CompetingConsumer.RunConsumer: a handler that raises ends the consumer like a crash, as in the code, so it is the machine's crash step and not a branch of the method.
- Redis, SQLite and asyncio themselves: streams, sets, tables and queues are the abstractions described above; blocking, idle sleeps and group creation carry no property. In the machine `XAUTOCLAIM` may return any pending entries up to `count`, in CompetingConsumer the oldest of those reported idle; how long they were idle is not modelled.
- `XREADGROUP` with a `count` below one: the results that need progress ask for at least one.
- The crash between SADD and PEXPIRE of the Redis store: the two are one step.
- `ack_dlq`, `read_dlq` and the replay tooling of the dead-letter queue.
- The field encoding of tasks, tickets and saga events; payments and account events are encoded and decoded in full. Missing saga fields and amounts that are no number are not modelled.
- Whitespace, underscores and non-ASCII digits that `int` also accepts, and the limit on very long integers.
- NaN and infinite amounts; saga and outbox amounts are exact reals, and outbox payloads are carried as values instead of JSON.
- Aliasing of an order object between the caller and the order service: the service's map holds statuses.
- Ids, timestamps, transaction and tracking numbers, `last_updated`, logging and metrics.
- The dedicated single-tier consumer: it is the strict-priority consumer with a scan order of one tier, apart from its blocking read.
- The combining strategies and airline services of scatter-gather; they are one sort or one branch each.
- The bench driver's phases and samplers, the claim-check pattern, the fault injectors and the other incorrect baselines, which would add only easy members.
