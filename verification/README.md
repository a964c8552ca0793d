# Payment saga: a verified model

A payment gateway takes a merchant's order, reserves the amount on the merchant's balance and announces
the payment through an outbox. A publisher hands the announcement to a message broker, a consumer asks a
payment provider for it, the provider answers later with a webhook, and the webhook confirms or releases
the reservation. This project models that saga and proves what keeps the money safe when events, webhooks
and transactions are repeated, reordered, interleaved, broken off or refused.

## How it is built

| layer | files |
|---|---|
| rows, events, outcomes | `Entities` |
| the atomic transactions, what each of them writes, and every run of them | `Transactions`, `Totals`, `Ledger`, `Effects`, `History`, `Uniqueness`, `Commuting`, `Reordering` |
| the same transactions split at their database calls, with row locks and unique keys | `Interleaving`, `StaleCheck`, `SerialRuns` |
| classes over mutable state: session, repositories, unit of work, services, consumer loop, publisher loop, provider | `Sessions`, `Repositories`, `Services`, `Consumer`, `Publisher`, `Provider` |
| publisher passes, one publisher process with crashes and broken calls, and what it loses | `Draining`, `PublisherRuns`, `Stranding` |
| the closed system in which webhooks come from the provider only, whole and split | `Causality`, `ClosedSystem`, `WholeTurns` |
| the exceptions below and the life of one payment, each reached from a seed | `Reached` |
| invoice ids, the float and decimal trip of an amount, cursor pagination | `Invoices`, `Amounts`, `AmountTexts`, `AmountParity`, `Queries`, `Pagination`, `PageCuts`, `Listings` |

Each transaction exists three times. `Transactions` says what it does to the committed tables when nothing
runs beside it. `Services` and `Repositories` write it as the code does, over a session whose loaded rows
are objects that are assigned in place, and prove that it returns and commits exactly what the atomic
function says, and does all of it or nothing if the connection breaks at any of its calls. `Interleaving`
splits it at its database calls and proves that any interleaving is equivalent to the atomic steps in the
order they ended; `SerialRuns` proves the converse. `Effects` states what each transaction writes column by
column, with the texts as they are stored and sent. What `Ledger`, `History` and `Uniqueness` state about runs therefore carries over to
interleavings and to the classes, and `ClosedSystem` and `WholeTurns` show that the closed
system reaches the same worlds with split as with whole transactions. `Run`
starts from seeded balances with nothing reserved and takes any actions: orders that pass the request
schema, consumer events for any payment id with any provider reply, webhooks with any contents, and any
status write to an outbox message.

### Assumed of the surroundings

- A row read `FOR UPDATE` stays locked until commit, rollback or close.
- Closing a session without a commit discards what it wrote; a commit takes effect as a whole.
- Primary and unique keys are enforced: a write that takes a committed key fails, and one that takes an
  uncommitted writer's key waits for that writer.
- Statements read committed rows and their own session's flushed writes; the session flushes changed
  objects before each statement and keeps one object per loaded row.
- Time, uuid4 values, the provider's answers, the order among equal `created_at` values, and the moment at
  which a connection or a process breaks are parameters, so every theorem holds for all of them.

### Where the code does otherwise than it reads, and exactly when

- The duplicate check of `create_payment` runs before any lock. A reply differs from the serial one exactly
  if a create ends at its insert with its order already stored (`OnlyStaleChecksDiffer`): it raises on the
  unique key where the serial step returns None. From any seed with funds for two requests of one order an
  interleaving does this (`StaleCheckRaises`).
- Order ids that differ only in hyphens share an invoice id (`InvoiceIdsAgree`), so the second one raises
  instead of being refused as a duplicate (`TwinRaisesFromSeed`); `CreateOutcome` is the exact condition.
- An amount survives the float and decimal trip exactly under a remainder test (`TripExactIff`), and its
  parity, on which the verdict hangs, exactly under another (`TripKeepsParityIff`). All amounts up to
  100 * 2^46 pass both; every funded amount that fails the second can get the wrong verdict
  (`LostParityIsMisjudged`), the first being 100 * 2^46 + 1 (`OddPaymentCompletes`).
- A stored provider id changes in a step exactly if it is the empty text and a known verdict on the open
  payment offers an unused non-empty one (`StoredIdChangesIff`); a run does this (`EmptyIdIsReplaced`).
- Two webhooks for different invoices commute exactly if they do not both lead to one new id and neither
  replaces an empty id that the other is waiting for (`SwapIffUnaffected`). Non-empty ids distinct across
  invoices suffice. Without distinct ones (`SharedIdFromSeed`) or non-empty ones (`EmptyIdFromSeed`) two
  placed orders can be served in an order that matters.
- A finished walk over the pages lists everything exactly if no page cut falls inside a group of payments
  created at the same instant (`CompleteIffNoTieCut`), so all walks are complete exactly if all creation
  times differ (`CompleteIffDistinct`). Two orders placed at one instant spoil some walk (`ListingLosesFromSeed`).
- An outbox message that the broker has not got can still reach it exactly if it is PENDING or about to be
  handed over (`ReachesBrokerIff`). It is lost for good by exactly these events (`LostIff`): the PROCESSING
  commit raises and lands, the process crashes before the hand-off, the broker refuses the message, or it is
  marked FAILED untried; `PollLosesIff` says the same of a whole pass. From a seed a crash does it
  (`StrandedFromSeed`).

## Model

| member | source | states |
|---|---|---|
| Ledger.RunSound | app/services/webhook_service.py:13-76 | In every state of every run, reserved is the sum of the merchant's CREATED and PROCESSING payments, amount is the seed less its COMPLETED ones, 0 <= reserved <= amount; unique keys hold; payments and messages are paired with equal payloads; CREATED means no provider id; FAILED never occurs |
| Ledger.ColumnsFit | app/models/balance.py:20-21 | If the seeded amount fits a signed 64-bit column, so do balance, reservation and every payment amount in every state of every run |
| Ledger.StepKeepsSound | app/repositories/balance.py:30-80 | Every single transaction, with any contents, keeps the whole invariant from any state that has it |
| Ledger.GuardsNeverRefuse | app/services/webhook_service.py:52-74 | For an open payment the guards of confirm and release never refuse: a known verdict settles it unless the provider id is another payment's, and then nothing changes |
| Ledger.ReservationCovers | app/repositories/balance.py:58-59 | The reserved amount, and the amount, cover every open payment of the merchant |
| Ledger.OnlyNewAmounts | app/services/payment_service.py:25-27 | No transaction changes a stored payment's identity or amount, and a new payment's amount was available |
| Ledger.SettledRow | app/services/webhook_service.py:23-40 | A delivery that changes anything found exactly one payment by invoice, it was not terminal, the verdict was known, the guard let it pass and the id was free; the result is exactly the settled row and its balance |
| Effects.RequestRefusedIff | app/api/schemas.py:7-9 | A request is refused, and changes nothing, exactly if the order id is empty or longer than 100 or the amount is not positive |
| Effects.BalanceEffects | app/repositories/balance.py:30-80 | Without a row every operation is refused; reserve needs amount less reserved to cover it and adds to reserved; confirm needs both columns to and takes it off both; release needs reserved to and takes it off that |
| Effects.CreateWrites | app/services/payment_service.py:29-55 | A create that returned an id found that id and the message id unused, added the amount to reserved, stored exactly the order as a CREATED payment with no provider columns, stamped with the time of the order, and enqueued one PENDING "payment.created" message with that payment's data |
| Effects.ConsumerEffects | scripts/run_consumer.py:27-51 | An event for an unknown or not CREATED payment returns and changes nothing; without a provider reply it raises, and with an id stored by another payment it raises a unique violation, changing nothing; otherwise the payment becomes PROCESSING with that id and provider status "Created" and every other column, row, balance and message stays |
| Effects.UnknownInvoice | app/services/webhook_service.py:23-25 | A webhook for no stored invoice is answered False and changes nothing |
| Effects.UnknownStatus | app/services/webhook_service.py:30-33 | A webhook whose status is not "Created", "Completed" or "Canceled" is answered False and changes nothing, whatever the payment |
| Effects.SettledAlready | app/services/webhook_service.py:35-40 | A known status for a COMPLETED, CANCELED or FAILED payment is answered True and changes nothing |
| Effects.WebhookEffects | app/services/webhook_service.py:42-74 | For an open payment of a sound state: a unique violation, changing nothing, exactly if another payment stores its final provider id, which is the stored one or, if that is null or empty, the offered one; else True, and "Created" gives PROCESSING with the balances untouched, "Completed" gives COMPLETED with the amount off both columns, "Canceled" gives CANCELED with the amount off reserved only, provider status being that text |
| Effects.MarkEffects | app/repositories/outbox.py:56-79 | Marks as PROCESSING and SENT change the status of one message alone; FAILED also counts a retry and keeps the error text |
| Reached.ConsumedFromSeed | scripts/run_consumer.py:45-51 | From any seed that can pay for an order, once it is placed the consumer's transaction leaves its payment PROCESSING with the provider's id and "Created" |
| Reached.SettledFromSeed | app/services/webhook_service.py:42-76 | Then "Completed" leaves the balance less the amount with nothing reserved, "Canceled" leaves it whole with nothing reserved, "Created" changes nothing, and any other text is answered False and changes nothing |
| History.RunEvolves | app/services/webhook_service.py:35-47 | Between any two states of a run rows stay, keep identity and amount, never become CREATED again, are frozen once COMPLETED, CANCELED or FAILED, and keep a non-empty provider id; messages keep their payload |
| History.StoredIdChangesIff | app/services/webhook_service.py:42-70 | A step changes a stored provider id exactly if it delivers a known verdict on the open payment, the stored id is empty, the offered one is not, and no other payment has it |
| History.EmptyIdIsReplaced | app/services/webhook_service.py:27-28 | For any funded order there is a run in which its payment gets the empty id and then loses it to another |
| History.RedeliveryIsIdle | scripts/run_consumer.py:32-33 | Once a payment left CREATED, any later event for it returns and changes nothing, at any later point of the run |
| History.SettledAtMostOnce | app/services/payment_service.py:29-40 | In the log of committed balance writes each payment is reserved exactly once, confirmed once iff COMPLETED, released once iff CANCELED, and there is no other write |
| History.BalancesAreReplay | app/repositories/balance.py:30-80 | The balances of any run are that log replayed on the seed through the guards, none of which refuses |
| Uniqueness.OnePaymentPerOrder | app/models/payment.py:27 | In every reachable state a merchant has no two payments whose order ids agree after removing hyphens, no two payments store one provider id, and lookups by order or invoice match at most one row |
| Uniqueness.LookupsNeverAmbiguous | app/repositories/payment.py:51-60 | No transaction of a run raises because a single-row lookup saw several rows |
| Uniqueness.CreateOutcome | app/services/payment_service.py:22-55 | With unused primary keys: None iff the order is repeated or funds do not suffice, a unique violation iff otherwise a hyphen twin exists, success iff neither; the tables change only on success |
| Uniqueness.HyphenTwinRaises | app/services/payment_service.py:32 | A funded order that differs from a stored one in hyphens alone passes the duplicate check and raises |
| Reached.TwinRaisesFromSeed | app/services/payment_service.py:22-40 | From any seed that can pay for both, the second of two orders that differ in hyphens alone raises and changes nothing |
| Uniqueness.TakenByTwin | app/services/payment_service.py:32 | An invoice id is taken iff the merchant has an order that agrees with it after removing hyphens |
| Invoices.InvoiceIdsAgree | app/services/payment_service.py:32 | Equal invoice ids iff same merchant and order ids equal after removing hyphens |
| Invoices.InvoiceIdForm | app/services/payment_service.py:32 | An invoice id is the merchant's 32 hex digits, an underscore and the order id without hyphens |
| Invoices.InvoiceIdReads | app/services/payment_service.py:32 | The first 32 characters of an invoice id are lower-case hexadecimal digits that read as the merchant in base 16, the next is an underscore, and there is no hyphen |
| Invoices.StrippingMeans | app/services/payment_service.py:32 | Removing hyphens drops each hyphen and no other character, wherever it stands |
| Invoices.UuidTextForm | app/services/payment_service.py:32 | A UUID prints as 36 characters with hyphens at places 8, 13, 18 and 23 only |
| Amounts.TripExactIff | scripts/run_consumer.py:38 | Formatting a/100 as binary64 with two decimals and parsing it always yields an amount, and yields a iff the remainder test holds |
| Amounts.TripExactUpToBound | provider/service.py:60-70 | Every amount from 1 to 7036874417766400, which is 100 * 2^46, comes back unchanged |
| Amounts.TripPastBound | provider/service.py:60-70 | 100 * 2^46 + 1 comes back one larger |
| Amounts.BoundIsTight | scripts/run_consumer.py:38 | All amounts up to a bound survive iff the bound is at most 100 * 2^46 |
| Amounts.TripRefuses | provider/service.py:67-68 | Amounts that are not positive are refused |
| Amounts.TextRoundTrip | provider/service.py:62-70 | The two-decimal text of any number of hundredths parses back to that number, zero being refused |
| Amounts.DivisionIsRounded | scripts/run_consumer.py:38 | The quotient a/100 has a significand from 2^52 to 2^53 and is the nearest such multiple of its power of two, ties to even |
| Amounts.TripIsRounded | provider/service.py:60-70 | What comes back is the rounded quotient times 100, rounded to an integer, ties to even |
| AmountTexts.SentText | scripts/run_consumer.py:38 | For every positive amount the consumer sends decimal digits without a needless leading zero, a point and two digits, which read, digit by digit, as the amount that comes back |
| AmountTexts.SentExactly | scripts/run_consumer.py:38 | Up to 100 * 2^46 that text reads as the amount itself |
| AmountTexts.ParsedIff | provider/schemas.py:6 | The provider takes a text for h hundredths exactly if it is digits, a point and two digits, these read as h, and h is positive |
| AmountParity.TripKeepsParityIff | provider/service.py:116-118 | The amount the provider reads has the parity of a exactly under a remainder test |
| AmountParity.ParityUpToBound | provider/service.py:116-118 | The test holds of every amount up to 100 * 2^46 and fails of the next |
| Reordering.OrderAcrossInvoicesIsFree | app/services/webhook_service.py:23-76 | From any sound state, reordering deliveries while keeping each invoice's own order, with non-empty ids distinct across invoices, ends in the same tables |
| Reordering.AnswersAcrossInvoicesAreFree | app/services/webhook_service.py:13-76 | Such a reordering also answers every delivery of every invoice alike |
| Commuting.CommuteIffUnaffected | app/services/webhook_service.py:23-74 | From a sound state two deliveries for different invoices commute exactly if they do not both lead to one new id and neither replaces an empty id the other is waiting for |
| Commuting.AnsweredAlike | app/services/webhook_service.py:13-76 | A webhook is answered alike before and after one for another invoice that does not affect it |
| Reordering.DeliveriesCommute | app/services/webhook_service.py:52-74 | Two deliveries for different invoices with non-empty distinct ids commute |
| Reordering.SwapIffUnaffected | app/services/webhook_service.py:23-74 | The same as an exact condition on swapping two deliveries |
| Commuting.BalancesCommute | app/repositories/balance.py:47-80 | Two settlements accepted in either order leave the same balances, also for one merchant |
| Reordering.SettledIsFinal | app/services/webhook_service.py:30-40 | A delivery for a settled payment changes nothing; it returns True iff its status is known |
| Reordering.SharedIdsOrderMatters | app/services/webhook_service.py:27-28 | Two webhooks offering one unused id to two CREATED payments never commute |
| Reordering.EmptyIdOrderMatters | app/services/webhook_service.py:47 | Two webhooks with distinct ids never commute if one replaces the empty id of an open payment and the other brings it to a CREATED one |
| Reached.SharedIdFromSeed | app/services/webhook_service.py:27-28 | From any seed that can pay for both, two orders are placed and two webhooks with one id do not commute |
| Reached.EmptyIdFromSeed | app/services/webhook_service.py:47 | From any such seed, once the first of two orders has the empty id, two webhooks with distinct ids do not commute |
| Interleaving.InterleavingsAreSerial | app/services/payment_service.py:22-54 | Any interleaving of split transactions, with crashes, leaves the tables of the atomic steps in the order they ended; each reply is the serial one, save that a create that ended at its insert with its order stored by then raised where the serial step returns None |
| SerialRuns.SerialIsInterleaved | app/services/payment_service.py:22-54 | Conversely every run of whole transactions is the outcome of an interleaving of split ones, with the same tables, the same transactions in order, and exactly the atomic replies |
| Interleaving.InterleavingsSound | app/uow/unit_of_work.py:28-42 | Hence the money invariant holds in every committed state of every interleaving |
| StaleCheck.OnlyStaleChecksDiffer | app/services/payment_service.py:22-40 | In every interleaving a reply differs from the serial one exactly if it is such a create |
| StaleCheck.StaleCheckRaises | app/services/payment_service.py:22-23 | From any seed with funds for two requests of one order there is an interleaving in which one commits and the other raises where the serial step returns None |
| StaleCheck.OvertakenRaises | app/services/payment_service.py:22-54 | The same from any idle state whose merchant can pay for both |
| Interleaving.TxnFinishes | app/repositories/payment.py:46-60 | A transaction whose reads were made under locks ends with the tables of its atomic step, and with its reply exactly unless it is a create at its insert whose order is stored |
| Interleaving.KnowledgeSurvives | app/repositories/balance.py:22-28 | What a transaction read under its locks stays true over any commit made under disjoint locks |
| Interleaving.NoWaitCycle | app/services/webhook_service.py:23-65 | FOR UPDATE waits among any number of running transactions never form a cycle |
| SerialRuns.BlockedIffWaiting | app/repositories/payment.py:46-60 | A transaction's next call needs a row that another has locked exactly if it counts as waiting for it, and then the call changes nothing |
| Interleaving.OrderedRequests | app/services/webhook_service.py:23-53 | A transaction that waits holds at most a payment row and then wants a balance row |
| Repositories.BalanceRepository.ReserveAmount | app/repositories/balance.py:30-45 | Reserves iff the row exists and available covers the amount, changing that row only |
| Repositories.BalanceRepository.ConfirmReservation | app/repositories/balance.py:47-63 | Takes the amount from both columns iff both cover it |
| Repositories.BalanceRepository.ReleaseReservation | app/repositories/balance.py:65-80 | Takes the amount from the reservation iff it covers it |
| Repositories.SingleRowIs | app/repositories/payment.py:48-60 | A single-row lookup gives null without a match, the row if it is the only one, and raises if there are several |
| Repositories.PaymentRepository.Create | app/repositories/base.py:41-45 | Inserts the row iff its primary key, its invoice id and its provider id, if it has one, are free, else raises and changes nothing |
| Repositories.PaymentRepository.UpdateStatus | app/repositories/payment.py:62-82 | Writes status and the given columns of one row and its loaded object, or raises on a taken provider id |
| Repositories.PaymentRepository.ExistsByMerchantOrderId | app/repositories/payment.py:84-90 | True iff one row matches, false iff none, raises on several |
| Repositories.PaymentRepository.GetByExternalInvoiceIdForUpdate | app/repositories/payment.py:51-60 | The one loaded object of the matching row, null without one, raises on several |
| Repositories.OutboxRepository.CreateMessage | app/repositories/outbox.py:15-24 | Adds a PENDING message with this topic and payload and no retries iff its key is free |
| Sessions.Session.Commit | app/uow/unit_of_work.py:38-39 | Commits exactly the rows as the loaded objects stand, or raises and leaves the committed tables; a commit on which the connection breaks raises and did either |
| Services.PaymentService.CreatePayment | app/services/payment_service.py:15-55 | Equals the atomic transaction unless the connection breaks, and then did all of it or nothing; None or any other exception leaves the committed tables as they were |
| Services.WebhookService.HandleProviderWebhook | app/services/webhook_service.py:13-76 | Equals the atomic transaction unless the connection breaks, and then did all of it or nothing; False or any other exception leaves the committed tables as they were, although the loaded payment and balance may have been assigned |
| Services.PaymentConsumer.HandlePaymentCreated | scripts/run_consumer.py:19-51 | Equals the atomic transaction, with the provider's id as reply if its answer arrives and the amount is acceptable, unless the connection breaks, and then did all of it or nothing; the provider gets one new payment, with the amount read, exactly if the payment is CREATED, the request arrives and the amount is acceptable, also when the commit fails |
| Services.OpenRow | app/services/webhook_service.py:42-74 | On an open payment: the early id assignment is flushed first, then the balance guard, then the final id, each failing in turn without effect |
| Services.EarlyFlush | app/services/webhook_service.py:27-28 | Flushing the early assignment fails iff the id was null and the offered one is taken, and never changes which ids others take |
| Consumer.MessageConsumer.StartConsuming | app/broker/consumer.py:53-66 | Every delivery is acknowledged whatever its handler raises; the tables are those after the deliveries' transactions in order, less only ones whose connection broke |
| Consumer.RunConsumer | scripts/run_consumer.py:54-58 | Exactly the deliveries with routing key "payment.created" and an event as body have their transactions, less ones whose connection broke within three calls, and the tables are those of that run |
| Consumer.ConsumingIsRun | app/broker/consumer.py:53-66 | The consumer loop is a run of the ledger, so its invariants hold of it |
| Provider.ProviderService.CreatePayment | provider/service.py:36-58 | Stores and schedules a payment with the amount read, or refuses and changes nothing |
| Provider.ProviderService.SendWebhook | provider/service.py:72-97 | Sends the id and invoice of an outstanding payment with "Completed" if the amount it read is even and "Canceled" if not, and keeps the books: every accepted request has its one webhook, sent or outstanding |
| Provider.OneWebhookEach | provider/service.py:48-50 | An accepted payment has fired at most one webhook at any time, and has fired it exactly if its status is final |
| Services.PostWebhook | provider/service.py:83-97 | Running one task posts one webhook, which the gateway handles as the atomic transaction or which is lost, and never posts it again |
| Causality.CausalChain | app/broker/outbox_publisher.py:38-41 | A payment past CREATED has a provider payment for its invoice, made for a delivered event, whose outbox message has left PENDING |
| Causality.VerdictByParity | provider/service.py:116-118 | However many provider payments one invoice got, a settled payment has the verdict of its own parity exactly if that survives the trip; up to 100 * 2^46 COMPLETED means even and CANCELED odd |
| ClosedSystem.SplitIsWhole | scripts/run_consumer.py:27-51 | The closed system with its transactions split at their database calls, the provider being asked under the row lock, only reaches worlds that whole transactions reach |
| WholeTurns.WholeIsSplit | scripts/run_consumer.py:27-51 | Conversely it reaches every world that whole transactions reach |
| ClosedSystem.SplitCausalChain | scripts/run_consumer.py:27-51 | The causal chain holds in every state of the split system |
| ClosedSystem.SplitVerdictByParity | provider/service.py:116-118 | So does the verdict by parity |
| Causality.CanBeSettled | scripts/run_consumer.py:27-51 | Every funded order can reach COMPLETED or CANCELED, as the amount read is even or odd |
| Causality.OddPaymentCompletes | provider/service.py:116-118 | Past the bound an odd payment can end COMPLETED |
| Causality.LostParityIsMisjudged | provider/service.py:116-118 | Every funded amount whose parity does not survive the trip can get the wrong verdict |
| Causality.WireIsTheProvider | provider/service.py:36-46 | The provider accepts exactly the positive amounts, and reads each as the hundredths that the consumer's text spells |
| Publisher.OutboxPublisher.ProcessPendingMessages | app/broker/outbox_publisher.py:32-50 | For every moment at which the connection may break: the messages reached are closed in batch order, each by what publishing it came to, the one in hand stays PROCESSING if it was marked, and no other changes; unbroken, the whole batch is closed |
| Publisher.OutboxPublisher.Start | app/broker/outbox_publisher.py:16-26 | Passes that may each break at any call leave the outbox and the hand-offs of all of them in turn |
| Draining.PassMeans | app/repositories/outbox.py:26-38 | A pass takes as many PENDING messages as there are up to 100, none older than these being left; it changes only the status of those published to SENT, marks the others FAILED with one more retry and the error text, and leaves all others alone |
| Draining.PassesDrain | app/broker/outbox_publisher.py:34-36 | With no arrivals n PENDING messages are down to max(0, n - 100 k) after k passes |
| Draining.DrainedIff | app/broker/outbox_publisher.py:34-36 | k passes leave none of n PENDING messages exactly if k is at least n / 100 rounded up |
| Draining.DrainInOrder | app/repositories/outbox.py:30-36 | Over a drain no message is taken twice and they are taken in created_at order |
| Draining.HandOffsInOrder | app/broker/outbox_publisher.py:38-41 | The hand-offs of a drain are in created_at order, none twice, and, if k passes met at most 100 k PENDING messages, are exactly those the broker did not refuse |
| Draining.UnbrokenPollsArePasses | app/broker/outbox_publisher.py:16-26 | If no pass of the loop breaks it is one of these drains |
| PublisherRuns.HandedOverAtMostOnce | app/broker/outbox_publisher.py:36-50 | One publisher with crashes, restarts and broken calls anywhere: each message reaches the broker at most once, none while PENDING, every SENT one did, and retry is 1 iff FAILED, else 0 |
| PublisherRuns.PendingNeverReentered | app/repositories/outbox.py:56-79 | Messages are never lost, keep their payload, and their status never goes back |
| PublisherRuns.PaymentsAnnouncedAtMostOnce | app/broker/outbox_publisher.py:36-50 | No payment is announced to the broker twice |
| PublisherRuns.LeftForever | app/broker/outbox_publisher.py:38-41 | A message that left PENDING and is not in hand is never changed or handed over again |
| Stranding.ReachesBrokerIff | app/broker/outbox_publisher.py:36-50 | In every state a message the broker has not got can reach it by some course of events exactly if it is PENDING or about to be handed over |
| Stranding.CrashStrandsIff | app/broker/outbox_publisher.py:38-41 | After a crash such a message can still reach the broker exactly if it is PENDING |
| Stranding.LostIff | app/broker/outbox_publisher.py:37-50 | An event loses a message for good exactly if its PROCESSING commit raises and lands, the process crashes before the hand-off, the broker refuses it, or it is marked FAILED untried |
| Stranding.HandlerMarksFailed | app/broker/outbox_publisher.py:47-50 | Wherever the try block raises, the handler closes the message in hand as FAILED with that text and one retry, handed over or not, and the pass goes on with the rest of its batch |
| Stranding.PollLosesIff | app/broker/outbox_publisher.py:36-50 | Exactly which messages of its batch a pass loses, for every way its connection may break |
| Stranding.CrashStrands | app/broker/outbox_publisher.py:38-41 | After a crash between the PROCESSING commit and the hand-off the message stays in PROCESSING and the broker never gets it, whatever follows |
| Stranding.LandedMarkStrands | app/broker/outbox_publisher.py:38-39 | The same without a crash, when the PROCESSING commit lands although it raised and the handler breaks |
| Reached.StrandedFromSeed | app/broker/outbox_publisher.py:38-41 | From any seed that can pay for an order its message can be stranded so |
| PublisherRuns.TablesRun | app/broker/outbox_publisher.py:36-50 | Whatever the publisher does, the tables are those of a run of the ledger |
| PublisherRuns.PassIsMoves | app/broker/outbox_publisher.py:32-50 | A pass up to any of its messages is one run of the machine with crashes |
| PublisherRuns.BrokenPassIsMoves | app/broker/outbox_publisher.py:43-50 | What the publisher's method leaves, whole or broken at any call, is one run of that machine, so at-most-once holds of the method too |
| PublisherRuns.LoopHandsOverAtMostOnce | app/broker/outbox_publisher.py:16-26 | The polling loop hands over each message at most once and none again, however its passes break |
| Pagination.PageMeans | app/api/routes/payments.py:47-61 | A page is a newest-first run of rows before the cursor, as many as there are up to the limit; it omits nothing newer than its end, and has a next cursor exactly if there are more rows than the limit |
| Pagination.NeverRepeats | app/api/routes/payments.py:53-55 | The items of any trail of pages are distinct and newest first |
| Pagination.WalksEnd | app/api/routes/payments.py:53-55 | A walk is at most one page longer than the number of rows before its cursor, so it ends |
| Pagination.WalkExists | app/repositories/payment.py:34-44 | From any cursor some complete walk exists |
| Pagination.MissedIffTied | app/repositories/payment.py:39-42 | A complete walk misses a row iff it shares its creation time with the last item of a page that has a next cursor and is not on that page |
| Pagination.ZeroLimitEndsAtOnce | app/api/routes/payments.py:53-55 | With limit 0 the page is empty and has no next cursor |
| PageCuts.CompleteIffNoTieCut | app/api/routes/payments.py:53-55 | A finished walk lists every row before the cursor exactly if no cut of the newest-first list into pages falls between rows created at the same instant |
| PageCuts.CompleteIffDistinct | app/repositories/payment.py:39-42 | All finished walks at all limits are complete exactly if the creation times before the cursor are distinct |
| PageCuts.TieLosesARow | app/repositories/payment.py:39-42 | For any two rows created at the same instant there are a limit and a finished walk that misses a row |
| Reached.ListingLosesFromSeed | app/repositories/payment.py:39-42 | From any seed that can pay for both, two orders placed at one instant leave a listing that some walk does not complete |
| PageCuts.WalkIsComplete | app/api/routes/payments.py:47-61 | With distinct creation times a walk yields exactly the rows before the cursor, newest first |
| PageCuts.SelectedMeans | app/services/payment_service.py:65-67 | The rows before a cursor are the merchant's payments created before it whose status is the one that "created", "processing", "completed", "canceled" or "failed" names, or any status if the filter is absent or names none |
| PageCuts.ListingOfMerchant | app/services/payment_service.py:57-75 | Following the cursors from any first one lists only those payments, each once and newest first, and all of them exactly if no page cut falls inside a tie |
| Listings.WalkReversesPlacing | app/repositories/payment.py:34-44 | After any run whose creates have increasing times, every finished walk, from any cursor, with any filter and page size, lists the payments it is about in the reverse order of their placing |
| Listings.NewestFirst | app/models/payment.py:33 | In particular, asked for everything it lists all the merchant's payments, the last one placed first |

## Left out

- Eventual settlement: the consumer acknowledges failed deliveries and a crash can strand a message, so only safety is stated.
- At-most-once publication with several publishers: the first commit releases the locks on the rest of the batch.
- Publisher.OutboxPublisher.ProcessPendingMessages: a connection that breaks stays broken for the rest of the pass; calls that fail once are in `PublisherRuns`.
- Waits on index entries, foreign keys and unique keys: `NoWaitCycle` is about explicit row locks.
- Consumer.MessageConsumer.StartConsuming: deliveries are handled one after another; the prefetch window, connection and queue declarations are left out.
- Publisher.OutboxPublisher.Start: runs for a given number of passes, with no arrivals in between, in place of the `_running` flag and the sleep; arrivals are in `PublisherRuns`.
- Provider.ProviderService.SendWebhook: if two requests got the same uuid4, both webhooks would speak of the later one.
- Pagination with a negative limit, which the route does not refuse.
- Decimal texts the consumer never sends, such as exponents, signs with a positive value or non-ASCII digits: the parser model reads plain two-decimal texts and refuses the rest.
- Amounts beyond the range of binary64 or of the 28-digit decimal context, which no 64-bit column holds.
- Timestamps other than `created_at`, which is an integer ordering key here.
- `add_amount`, `delete_by_id`, `get_failed_messages`, `reset_to_pending` and the outbox wrappers other than `enqueue_event`: no running path calls them.
- Authentication, HMAC and encryption, the Redis cache, HTTP routing and validation beyond the create schema, settings, logging, migrations.
