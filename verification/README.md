# A verified model of nullsink's money path

nullsink sells prepaid credit for coin and meters it out through a proxy to language-model providers. Money lives in
two stores that never share a transaction: a payments store (open orders, a credit outbox, a sales book) and a balance
store (balances, open holds, settlement tombstones, applied credit keys, a current and many retired sessions). This
project models both stores, the two sockets that lead to the balance store, the streaming and buffered requests that
spend from it, the arithmetic that prices them, and two small algorithms beside them, and proves what the system
promises of each. `dafny verify dfyconfig.toml` checks the whole project.

## How the model is laid out

- **Session ledger** (`Ledger`, `LedgerRuns`, `LedgerAnswers`, `BalanceStore`). `Ledger` states every transaction as a
  step on the tables; a run is any list of requests, stale, duplicated or delayed. `BalanceStore.Store` is the object
  with the tables as fields, each method proved to be one such step. `LedgerRuns` proves what all runs keep:
  conservation of money, the fence around superseded sessions, settlement at most once.
- **Retrying client** (`LedgerWire`, `LedgerClient`). The client's retry loop over a socket that loses requests and
  answers, with requests of others in between, refines the simple session-free ledger the request handler is written
  against.
- **Settlement** (`Orders`, `Settlement`, `SettlementLaws`, `TickMeaning`, `Quote`). A poll tick is specified without
  any loop; the loops of the source are proved to compute it; then order-independence, independence of rails and
  survival of paid orders are proved of it, and `TickMeaning` tells all it does from the report and the tables alone.
  `Quote` adds the arithmetic of price and proportional credit.
- **Credit crossing** (`Crossing`, `CreditSender`, `SaleToBalance`). Both stores, a wire that loses, repeats and
  delays, crashes at any point: each key is credited at most once, as enqueued, and once drained the ledger adds up to
  the revenue. The drain loop is proved to be a run of it, with everything that goes on while it waits.
- **Streaming requests** (`StreamRace`, `StreamHistory`, `Streaming`, `Requests`, `RequestHistory`). End of body, read
  error, client cancel, deadline and shutdown race to settle one hold; `Streaming` writes the blocks as the source
  does and proves each one step of the race, and drains the registry of them at shutdown; `Requests` adds the buffered
  path, says what each block records, and reconciles the outcome counters. The two histories tell state, charge and
  outcome from the events alone.
- **Cost and usage** (`JsValues`, `Sse`, `Scanners`, `ScannerLaws`, `Pricing`, `Billing`, `Admission`). The
  event-stream scanners read a subset of section 9.2 of the WHATWG HTML Standard; their results, and the charges made
  of them, do not depend on packet boundaries. The hold is the worst case of the cost; `Admission` follows it to the
  ledger.
- **Reservation in /buy** (`Buy`), the **token checksum** (`Fnv`, `Token`; its alphabet is that of section 5 of RFC
  4648) and the **module closure** (`ModuleGraph`).

Conventions. Micro-dollars, atomic units and token counts are integers; the range in which JavaScript numbers are
exact is checked where the source checks it. Quotes, shares and costs are computed over exact reals. A transaction is
atomic and durable. Anything the program cannot see into (JSON parsing, path resolution, the wallet, the clock) is a
parameter: a function, a script of attempts, an oversleep.

## Where the code does less than its comments say

- `core/src/ledger/settle.ts:70` calls an order paid once. Two keys that pay one order in the same tick are both
  credited, because the open orders are a snapshot taken at line 37: `SettlementLaws.TwoPaymentsOneOrder` is such a
  tick. A tick pays every order at most once exactly when the report names one key for each order
  (`SettlementLaws.PaidOnceIff`; `SettlementLaws.PaidOnceAt` for each store and order). What holds without that
  condition is once per key.
- The order of a wallet's report matters when one key is shared by final outputs to two orders
  (`core/src/ledger/settle.ts:53-55`): `SettlementLaws.ReportOrderIrrelevantIff` gives the exact condition. The rails
  meet it by building keys from the transaction and the order index (`core/src/rails/monero.ts:90`,
  `core/src/rails/bitcoin.ts:115`).
- `core/src/hold.ts:42` says the hold always covers the cost. That takes two conditions. Reports have to keep to the
  figures the hold was sized for: `Pricing.HoldSoundIff` has the exact condition on input, output and the one-hour
  flag, and `Pricing.UnflaggedSoundIff` that on the rate card. And the model that answers, whose rate prices the
  charge (`core/src/handler.ts:247`, `core/src/handler.ts:686`), has to be no dearer than the one the hold was sized
  at: `Pricing.RatesCoverIff`. `Pricing.ReportsAboveHold` has a report of each failing kind. The clamp then charges
  the hold.
- `core/src/proxy.ts:122-123` gives a stale or indeterminate session as what ends the process. An amount beyond exact
  integers ends it as well, with the session current: `LedgerClient.FatalIff` has all reasons,
  `LedgerClient.FreshOpenFatalIff` leaves only this one for a new hold. Since no provider bounds the output cap from
  above (`core/src/providers/anthropic.ts:76-79`), `Admission.AdmissionFatalIff` says which requests meet it, and
  `Admission.HugeOutputCapIsFatal` is one.
- The accepted-request floor can exceed the hold when a token counter reports more tokens than the body has bytes:
  `Pricing.FloorWithinHoldIff`, with the case `Pricing.CountAboveBytes`. The clamp then charges the hold.
- `core/src/metrics.ts:70-71` reconciles the counters. The catch block of `core/src/handler.ts:702-731` also runs when
  a response cannot be constructed after its outcome was counted, for an upstream status no response may have; if
  nothing was charged, it counts the request again. `Requests.ReconcilesIff` gives the exact condition,
  `Requests.ReconcilesForAnswerable` the upstream statuses that never meet it, and `Requests.RelayCountedTwice` a run.
- The reservation counter of `core/src/endpoints/buy.ts:87-91` speaks for one process; `Buy.OrphanFreeIff`.

## Model

| member | source | states |
|---|---|---|
| LedgerRuns.Conservation | core/src/ledger/db.ts:192-334 | Over every run, for every token: balance + reserved + charged = what it had + first-applied credits |
| LedgerRuns.TotalConservation | core/src/ledger/db.ts:192-334 | The same over the whole store: sum of balances + sum of open holds + total charged = total first-applied credits |
| LedgerRuns.Fencing | core/src/ledger/db.ts:192-220 | In every reachable state the current session is not retired, every hold and tombstone belongs to it, no hold id is both open and settled, and no balance is negative |
| LedgerRuns.Superseded | core/src/ledger/db.ts:201-211 | Once current and no longer current, a session never becomes current again; all it still sends is answered stale_session and changes nothing |
| LedgerRuns.ReplayedStart | core/src/ledger/db.ts:193-202 | A start repeated at any later point changes nothing and reports the totals of the original recovery, or stale_session once superseded |
| LedgerRuns.EffectiveAtMostOnce | core/src/ledger/db.ts:258-334 | In any run, however duplicated and delayed, byte-identical requests change the store at most once |
| LedgerRuns.DuplicatesCollapse | core/src/ledger/db.ts:258-334 | Any run with any number of copies of a request equals a run with none, or with one at the moment it took effect |
| LedgerRuns.SettledOnce | core/src/ledger/db.ts:307-334 | After a settlement no later settle or open of that hold in that session changes anything, whatever its payload; another charge is answered conflict or stale |
| LedgerRuns.ClosedOnce | core/src/ledger/db.ts:258-334 | A hold of a session closes at most once in a run and is never open again |
| LedgerRuns.HowHoldsClose | core/src/ledger/db.ts:192-215 | What closes a hold is its settlement or another session starting, and a start returns the whole reserve of the token |
| LedgerRuns.ChangedOpenConflicts | core/src/ledger/db.ts:266-274 | Over every run, once a hold is opened, an open of it with another token or amount changes nothing and answers conflict (or is stale, or no valid amount), whether the hold is still open or settled |
| LedgerRuns.RefundedExactlyOnce | core/src/ledger/db.ts:192-334 | Over every run, a hold open at one time and not at a later one is closed by exactly one step in between, at which charge and refund together make up its reserve and the refund reaches its token |
| LedgerRuns.SumRefunded | core/src/ledger/db.ts:202-208 | A recovery moves exactly the reserved total from the journal to the balances |
| LedgerRuns.RefundOne | core/src/ledger/db.ts:204-207 | The order in which the recovery loop visits the rows is immaterial |
| LedgerAnswers.OpenAnswers | core/src/ledger/db.ts:258-284 | Each answer to an open is given exactly when its check is the first to fail; only an opened hold moves money, exactly its amount |
| LedgerAnswers.SettleAnswers | core/src/ledger/db.ts:307-334 | In every state that keeps the invariant, each answer to a settlement exactly when; only a settled one moves money, exactly what is not charged, and leaves its tombstone |
| LedgerAnswers.StartAnswers | core/src/ledger/db.ts:192-215 | Each answer to a start exactly when; a recovery reports the number and the sum of the open holds, and adds to every token what was held of it |
| LedgerAnswers.BalanceAnswers | core/src/ledger/db.ts:217-220 | A read answers the current session the balance itself, and moves nothing |
| LedgerAnswers.CreditAnswers | core/src/ledger/db.ts:234-241 | A new key adds its amount to its token alone; a known one changes nothing |
| BalanceStore.Store.BeginSession | core/src/ledger/db.ts:192-215 | The transaction on the tables is the specified step: fence, refund every open hold, clear tombstones, publish the session; or nothing |
| BalanceStore.Store.GetSessionBalance | core/src/ledger/db.ts:217-220 | The balance read is fenced by the session |
| BalanceStore.Store.OpenSessionHold | core/src/ledger/db.ts:258-284 | The transaction is the specified step, with every refusal in the order of the code |
| BalanceStore.Store.SettleSessionHold | core/src/ledger/db.ts:307-334 | The transaction is the specified step, with replay, conflict and invalid charge |
| BalanceStore.Store.CreditOnce | core/src/ledger/db.ts:234-241 | A key is credited by its first delivery and by no other |
| BalanceStore.Store.RefundAll | core/src/ledger/db.ts:202-208 | The row-by-row loop computes the token-by-token recovery, its row count and its total |
| BalanceStore.Store.RecoverHolds | core/src/ledger/db.ts:341-353 | Boot recovery returns every hold in full and makes or loses no money |
| BalanceStore.Store.Serve | core/src/credit-server.ts:32-36 | One request is one transaction, and the answer is made from its outcome after it committed |
| LedgerWire.DecodeAnswer | core/src/ledger/server.ts:83-102 | Every outcome reaches the client through JSON as a definite answer, exactly if its numbers are exact ones; true, false and fatal are exactly: on record, no money moved, everything else |
| LedgerWire.StartRoundTrip | core/src/ledger/client.ts:118-147 | A start is taken as successful exactly when it is not stale, and the totals read off the wire are those of the ledger |
| LedgerWire.AnswerInjective | core/src/ledger/server.ts:60-103 | No two outcomes have one JSON answer, apart from the two invalid amounts |
| LedgerClient.Call | core/src/ledger/client.ts:69-107 | The retry loop: its attempts begin when the earlier ones, their delays and oversleeps are over, none after the deadline but the first; an answer it returns came to the first of them that got one, at the time stated, and is the ledger's answer to the last request processed; it gives up on a mutation only if no attempt in time would get an answer, or the totals answered were no exact numbers; a read has one attempt |
| LedgerClient.LossesSurvived | core/src/ledger/client.ts:77-105 | As long as k attempts and one more, each with its delay and the longest oversleep, fit the budget, the one more is made with its full timeout, whatever became of the k |
| LedgerClient.Channel.Fetch | core/src/ledger/client.ts:79-97 | One attempt: dropped, or processed once with its answer delivered, lost, garbled replaced by a server error or late for its timeout, after any requests of others |
| LedgerClient.Client.OpenHold | core/src/ledger/client.ts:170-182 | true: debited exactly once, atomically, as the simple ledger would, or on record as asked before the call; false: nothing changed and the simple ledger would refuse; otherwise the process stopped, because no attempt in time would get an answer or because at the last answer the session was not current, the amount no safe integer, the hold open with another payload, or already settled |
| LedgerClient.Client.SettleHold | core/src/ledger/client.ts:184-195 | true: charged and refunded exactly once, atomically, as the simple ledger would, or settled with this charge before the call; false: nothing changed; otherwise the process stopped, because no attempt in time would get an answer or because at the last answer the session was not current, the hold settled with another charge, or open with the charge no safe integer within its reserve |
| LedgerClient.Client.StartSession | core/src/ledger/client.ts:118-147 | Success means this session is current, and the totals are those of the one recovery it performed; failure means that no attempt in time would get a readable answer, or that the session is superseded |
| LedgerClient.OpenRefines | core/src/ledger/port.ts:14-20 | Retries interleaved with any traffic refine one application of the port's openHold, or none; for a hold already on record as asked, none |
| LedgerClient.SettleRefines | core/src/ledger/port.ts:14-20 | Retries interleaved with any traffic, late copies of the open included, refine one application of the port's settleHold, or none; for a hold already settled so, none |
| LedgerClient.StartRefines | core/src/ledger/client.ts:118-147 | Reported recovery totals are those of the start that took effect |
| LedgerClient.EffectIsSimple | core/src/ledger/db.ts:247-303 | A session operation that takes effect is the simple openHold or settleHold on balances and journal |
| LedgerClient.FatalIff | core/src/ledger/client.ts:170-195 | An answer stops the client exactly when, in the state that answered: the session is not current, the amount or charge is invalid, or the hold is on record with another payload |
| LedgerClient.FreshOpenFatalIff | core/src/ledger/client.ts:170-182 | Over any run that leaves the session current: opening a hold id on record nowhere, that nobody else opens or settles, stops the process exactly when the amount is no safe integer |
| LedgerClient.OpenHoldSettleFatalIff | core/src/ledger/client.ts:184-195 | Over any run that leaves the session current: settling an open hold that nobody else settles stops the process exactly when the charge is no safe integer within the reserve |
| Admission.AdmissionFatalIff | core/src/hold.ts:171-179 | For the hold a request is admitted with: opening it stops the process exactly when the body, the count, the output cap and the rate together put the hold beyond exact integers |
| Admission.HugeOutputCapIsFatal | core/src/providers/anthropic.ts:76-79 | The literal: a one-byte body with an output cap of 10^15, current session, funded token, new hold id; the ledger finds the amount invalid and the client stops |
| Admission.ClampedSettlementNeverFatal | core/src/handler.ts:441-450 | Whatever cost is priced, the clamped settlement of an open hold of a current session is accepted over any run in which nobody else settles it |
| Orders.OrdersStore.TryAddOrder | core/src/ledger/orders.ts:157-162 | A row is claimed only below the cap over all rails; a taken key is an error |
| Orders.OrdersStore.RecordSighting | core/src/ledger/orders.ts:204-206 | The first sighting is recorded, later ones change nothing, and the answer says which this was |
| Orders.OrdersStore.CommitSettlement | core/src/ledger/orders.ts:273-289 | Enqueue and sale together if the key is new, the order closed in any case |
| Orders.OrdersStore.PurgeStale | core/src/ledger/orders.ts:211-214 | The backstop removes exactly the old orders of its rail |
| Orders.OrdersStore.AckCredit | core/src/ledger/orders.ts:238-240 | Acknowledging scrubs hash and amount and keeps the tombstone |
| Orders.OrdersStore.RearmLegacyAckedCredits | core/src/ledger/orders.ts:246-248 | Only acknowledged rows that kept their payload are queued again, and they are counted |
| Orders.OrdersStore.ListUnackedCredits | core/src/ledger/orders.ts:227-229 | Every unacknowledged key once, oldest first |
| Settlement.Settle | core/src/ledger/settle.ts:30-100 | The loops compute the tick as specified key by key and order by order, and return the number of newly enqueued credits |
| Settlement.Aggregate | core/src/ledger/settle.ts:43-56 | The first loop records every sighting and sums each key's final outputs to open orders |
| Settlement.Reap | core/src/ledger/settle.ts:78-95 | The two reaps remove exactly the orders past the backstop and the unfunded ones past their horizon, on this rail |
| Settlement.CommittedStep | core/src/ledger/settle.ts:58-74 | Committing one more key in any order extends the specified result by exactly that key |
| TickMeaning.RowsTold | core/src/ledger/settle.ts:44-74 | From report, tables and clock alone: a new key is enqueued exactly if its first final output to an open order pays one that expects an amount, for the owner of that order, with micros m such that 2 * credit * amount - expected < 2 * m * expected <= 2 * credit * amount + expected for all the key paid; old rows are untouched |
| TickMeaning.SalesTold | core/src/ledger/settle.ts:63-74 | One sale for each new row, with all the key paid, the credit of the row, and a gross within half a micro of the amount at the locked rate |
| TickMeaning.OrdersTold | core/src/ledger/settle.ts:45-95 | An order goes exactly if a key pays it, if it is past the backstop, or if it was never seen paying, this report included, and is past the shorter horizon; one that stays keeps its figures and its first sighting |
| SettlementLaws.ReportOrderIrrelevant | core/src/ledger/settle.ts:44-74 | Outbox, sales and open orders depend on the multiset of inbounds, not on their order, when a key determines its order |
| SettlementLaws.ReportOrderIrrelevantIff | core/src/rails/monero.ts:90 | And exactly then: for every table of orders the order of the report is irrelevant if and only if final outputs of equal keys pay one order |
| SettlementLaws.SharedKeyDependsOnOrder | core/src/ledger/settle.ts:53-55 | Literally: two outputs share a key over the orders of two owners; the one order of the report credits the first owner, its reversal the second |
| SettlementLaws.FinalDepositEnqueued | core/src/ledger/settle.ts:44-78 | Each final deposit is enqueued with a credit in proportion to its key's total, from both sides and closes its order, even in the tick the order passes the backstop |
| SettlementLaws.PaidOnceIff | core/src/ledger/settle.ts:37-74 | Whatever the store holds, a tick credits each order at most once, if and only if final outputs to one order carry one key |
| SettlementLaws.PaidOnceAt | core/src/ledger/settle.ts:37-74 | For each store and order: a tick credits the order more than once exactly when final outputs to it carry two different new keys and it expects an amount |
| SettlementLaws.TwoPaymentsOneOrder | core/src/ledger/settle.ts:67-74 | A concrete tick in which two keys that pay one order are both credited in full |
| SettlementLaws.OnlyFinalDepositsEnqueued | core/src/ledger/settle.ts:51-60 | Nothing but a final deposit to an open order is ever enqueued |
| SettlementLaws.SightedSurvives | core/src/ledger/settle.ts:45-95 | Across ticks, sales, acknowledgements and restarts a sighted order goes only by a settlement that is in the outbox or by the absolute backstop |
| SettlementLaws.SightedSurvivesTick | core/src/ledger/settle.ts:50-95 | The same for one tick, for an order sighted before it or in it |
| SettlementLaws.TickPending | core/src/ledger/settle.ts:45-95 | An order survives a tick exactly when no committed key closes it and neither reap takes it, and keeps its first sighting |
| SettlementLaws.TickRows | core/src/ledger/settle.ts:58-74 | A tick only adds outbox rows and sales, one of each for every new key |
| SettlementLaws.OtherRailUntouched | core/src/ledger/orders.ts:118-120 | A tick never changes an order of another rail |
| SettlementLaws.RailsCommute | core/src/ledger/settle.ts:36-95 | Ticks of two rails with disjoint keys commute on the whole store |
| Quote.QuoteCoversMargin | core/src/endpoints/buy.ts:81 | The quoted coin amount is worth at least credit times margin |
| Quote.QuoteIff | core/src/endpoints/buy.ts:81 | The quote is the least whole amount that covers credit and margin at the rate, and no other |
| Quote.CreditIff | core/src/endpoints/buy.ts:120 | The locked credit is the dollars to the nearest micro, and no other amount |
| Quote.ShareIff | core/src/ledger/settle.ts:63 | A whole m is the share exactly if it is within half a micro of credit times amount over expected, a half going up: 2 * credit * amount - expected < 2 * m * expected <= 2 * credit * amount + expected |
| Quote.GrossIff | core/src/ledger/settle.ts:66 | A whole g is the gross exactly if it is within half a micro of the amount at the locked rate |
| Quote.MarginPreserved | core/src/ledger/settle.ts:63-66 | For every payment, credit times margin exceeds the booked gross only by the rounding of the figures |
| Quote.MarginPreservedWhole | core/src/endpoints/buy.ts:120 | For whole-micro credits the excess is at most (margin + 1) / 2 micros |
| Quote.ShareMonotone | core/src/ledger/settle.ts:63 | Paying more never credits less, paying nothing credits nothing |
| Quote.FullPaymentCreditsInFull | core/src/ledger/settle.ts:63 | Paying the quote credits exactly the full amount, paying more at least that |
| Crossing.CreditedExactlyOnce | core/src/ledger/db.ts:234-241 | Under loss, duplication, delay and restarts, the delivery that credits a key adds exactly what it was enqueued with to the hash it was enqueued for, and no delivery of that key afterwards changes the ledger |
| Crossing.NothingElseCredits | core/src/credit-server.ts:35-36 | No move but a delivery credits |
| Crossing.AckedMeansCredited | core/src/ledger/orders.ts:130-139 | An acknowledged, scrubbed row was credited as enqueued and is never queued again |
| Crossing.EndToEnd | core/src/ledger/orders.ts:273-289 | From the empty system, once the outbox is drained: balances + open holds + everything charged = revenue booked, and every row is credited |
| Crossing.DrainedConservation | core/src/ledger/orders.ts:273-289 | The same from any state that keeps the invariant and has no legacy row |
| Crossing.NoLegacyKept | core/src/ledger/orders.ts:137-139 | After a restart no acknowledged row carries a payload, for ever |
| Crossing.NeverStuck | core/src/credit-wire.ts:31-38 | From every reachable state an acceptable queued row can still be credited and scrubbed; an unacceptable one is never acknowledged |
| SaleToBalance.SaleGoesThrough | core/src/ledger/settle.ts:44-74 | From every state that keeps the invariant: a fresh order for a well-formed hash, paid by one final output, is credited in proportion by five moves; the balance of that hash grows by it, nothing else on the ledger changes, and the row is scrubbed |
| SaleToBalance.AcceptableIff | core/src/credit-wire.ts:31-38 | The receiver takes a message exactly if its hash is 64 lower-case hexadecimal digits, its amount an exact integer from zero, and its key 1 to 200 characters |
| Crossing.InvRuns | core/src/ledger/db.ts:234-241 | What every run of the two stores and the wire keeps |
| CreditSender.Drain | core/src/credit-sender.ts:46-61 | With orders placed, proxy traffic and late copies arriving around every awaited send, the drain is a run of the crossing; it acknowledges only what landed, oldest first, changes the queue in no other way, counts as repeats the keys their request found applied, and stops exactly when the oldest row is ambiguous |
| CreditSender.SendOverSocket | core/src/credit-sender.ts:17-37 | Only an answer of applied or already_applied is definite; everything else is ambiguous whether or not the credit landed |
| StreamRace.TerminalRace | core/src/handler.ts:503-660 | Under every interleaving the first settlement fixes cause and charge, every ledger call carries that charge within the hold, at most one completes, the stream stays in flight exactly until then, and a clean close reaches the client only after it |
| StreamRace.FinalCharge | core/src/handler.ts:237-263 | The charge that completes is that of the policy on what the chunks had told when the first terminal cause came, whatever arrives or is retried afterwards: evidence alone for failures and drains, metered work or the input floor for a caller who left |
| StreamRace.ScanIsLast | core/src/handler.ts:651 | In every run what is known is what the last chunk told, or the scanner made at the start if there was none |
| StreamHistory.Story | core/src/handler.ts:503-660 | Every reachable state is told by its list of actions alone: the first terminal cause and what the chunks before it told decide; the ledger was asked once for each answer it gave and once more while a call is under way; when the client's stream is broken off, and when it ends cleanly |
| StreamHistory.ChargeOfRun | core/src/handler.ts:237-263 | From the list of actions alone: whether the stream is charged, and exactly what |
| StreamHistory.WhatCanHappen | core/src/handler.ts:503-660 | From the list of actions alone: exactly what can happen next |
| StreamRace.CleanCompletion | core/src/handler.ts:626-653 | A read woken by a local cancel is never decided as a clean completion: only a body that ended on its own, uncancelled, is served |
| StreamRace.DrainReleases | core/src/shutdown.ts:40-53 | From every reachable state of a live stream a drain puts a ledger call under way whose acceptance releases it |
| StreamRace.RetriesChargeOnce | core/src/handler.ts:433-456 | However often a stream's settlement is retried among other ledger traffic, at most one call changes the ledger |
| Streaming.Stream.SettleWith | core/src/handler.ts:515-595 | The promise latch: later callers join the pending attempt, the decision is fixed once |
| Streaming.Stream.FixDecision | core/src/handler.ts:517-546 | The first terminal cause owns the settlement; a drain also stops the blocked read |
| Streaming.Stream.OnReadDone | core/src/handler.ts:642-650 | The block that meets the end of the body is one step of the race |
| Streaming.Stream.OnReadFailure | core/src/handler.ts:626-641 | The block that meets a read error is one step of the race: settle, and error the client's stream once that is done |
| Streaming.Stream.On | core/src/handler.ts:503-660 | Whatever happens to a stream, the block that runs is one step of the race and keeps its invariant |
| Streaming.Stream.OnChunk | core/src/handler.ts:651-652 | A chunk changes what the scanner knows and nothing else |
| Streaming.Stream.OnBodyEnd | core/src/handler.ts:626-641 | The end of the upstream body is one step of the race |
| Streaming.Stream.OnCancel | core/src/handler.ts:654-657 | The client's departure is marked before the upstream read is cancelled, and settles nothing yet |
| Streaming.Stream.OnDrain | core/src/handler.ts:515-532 | The shutdown's call of settle is one step of the race |
| Streaming.Stream.OnCancelAwaited | core/src/handler.ts:654-659 | The client's cancellation is one step of the race |
| Streaming.Stream.OnDeadline | core/src/handler.ts:608-619 | The deadline is one step of the race |
| Streaming.Stream.OnLedgerAccept | core/src/handler.ts:448-455 | The ledger's acceptance is one step of the race |
| Streaming.Stream.OnLedgerReject | core/src/handler.ts:448-453 | The ledger's rejection forgets the attempt and never the decision |
| Streaming.Registry.DrainInflight | core/src/shutdown.ts:27-54 | With streams registering and stepping meanwhile: the shutdown sleeps exactly as often as there is something to wait for, until no stream is live and the handlers have returned, or the grace is over; starts every straggler's settlement before awaiting any; counts exactly those the ledger accepts; and no rejection strands another |
| Streaming.Registry.StartAll | core/src/shutdown.ts:46-47 | Every straggler has its settlement pending before any is awaited |
| Streaming.Registry.AwaitAll | core/src/shutdown.ts:47 | Each settlement is fulfilled or rejected by the first answer the ledger gives it, whatever else happens meanwhile |
| Requests.Reconciliation | core/src/metrics.ts:66-71 | In every reachable state, requests + those counted twice = served + partial + aborted + refunded in full + all upstream causes + those outstanding; each single counter is the number of times the requests recorded it |
| Requests.ReconcilesIff | core/src/metrics.ts:70-71 | The formula holds exactly on the runs in which no outcome was recorded at no charge for a reply whose status admits no response |
| Requests.ReconcilesForAnswerable | core/src/metrics.ts:70-71 | In particular in every reachable state as long as each upstream status is one a response may have |
| Requests.RelayCountedTwice | core/src/handler.ts:700-715 | Literally: one buffered request, a reply of status 600, its body, the refund accepted; the request is counted once and its outcomes are a server error and an unreachable upstream |
| Requests.MiscountsIff | core/src/handler.ts:477-731 | A block records two outcomes exactly when it must construct a response of a status that admits none (or admits no body, for one read) after a charge of zero, and otherwise at most one |
| RequestHistory.PlainRequest | core/src/handler.ts:477-731 | In every reachable state, from the events a request without a stream waited for: it is charged, once the ledger has accepted, a metered 2xx body its cost and a broken 2xx body the input floor, both within the hold, and everything else nothing; and exactly the outcomes it has recorded |
| RequestHistory.KindIff | core/src/handler.ts:112-157 | Each upstream cause is counted exactly for its replies: the operator account first, then an unknown model, then the status |
| RequestHistory.ServedPaysItsCost | core/src/handler.ts:684-687 | A buffered request counted as served was charged the cost its body was priced at, floored at zero and capped at the hold |
| RequestHistory.StreamRequest | core/src/handler.ts:503-595 | In every reachable state, a request with a stream: the stream is where the request's own events have taken it from its own figures, and its outcome is that of its first terminal cause |
| Requests.CountedOnce | core/src/handler.ts:477-731 | What a request has recorded and what it was charged never change again |
| Requests.CountedAtTheEnd | core/src/handler.ts:477-731 | A request has recorded an outcome exactly when it has ended with its ledger call accepted |
| Requests.OutcomesArePaidFor | core/src/handler.ts:433-456 | In every reachable state, on both paths: aborted, refunded and every upstream cause are charged nothing, save the input floor after a body that broke off; and nothing is charged above the hold |
| Pricing.HoldIsWorstCase | core/src/cost/pricing.ts:223-231 | The hold is the maximum of the cost over all reports within the bounds: never short, never a micro too large |
| Pricing.HoldSoundIff | core/src/hold.ts:37-46 | For reports of up to n input and m output tokens, with one-hour writes or not: the hold covers them at every admissible rate and every no dearer answering rate if and only if n is within the tokens it was sized for, m within the cap, and the request flagged what is billed |
| Pricing.RatesCoverIff | core/src/handler.ts:247 | For a requested and an answering rate: the hold sized at the first covers every report within its bounds priced at the second, for all token counts, if and only if the second is no dearer, in its dearest input class and in output |
| Pricing.UnflaggedSoundIff | core/src/cost/pricing.ts:219-229 | At a rate, the unflagged hold covers one-hour writes for all token counts if and only if they are no dearer than the dearest other input class |
| Pricing.ReportsAboveHold | core/src/hold.ts:37-46 | Four literal reports that cost more than their hold: more input than bytes, more output than the cap, a one-hour write nobody asked for, a dearer model in the answer; each is then charged the hold |
| Pricing.OneHourNeverCheaper | core/src/cost/pricing.ts:62 | One-hour classification never bills less, on any report, exactly when the asserted table invariant holds |
| Pricing.CostNonNegative | core/src/cost/pricing.ts:176-198 | No report, however malformed, costs less than nothing |
| Billing.CostIff | core/src/cost/pricing.ts:176-198 | A whole amount is the cost of a report exactly if it is the exact price, each class at its own field of the rate, rounded down |
| Billing.ClassPrices | core/src/cost/pricing.ts:190-197 | n million tokens of one class alone cost n times that class's own field: input, output, five-minute write, one-hour write, read |
| Billing.CostAddsUp | core/src/cost/pricing.ts:179-198 | The parts of a report cost together what the whole costs, or one micro-dollar less |
| Billing.InsaneIsFree | core/src/cost/pricing.ts:176 | A count that is no finite non-negative number costs what zero costs, in each field |
| Billing.CountedIff | core/src/hold.ts:165-170 | A counter's reply is used exactly if it is an object whose input_tokens is a number of at least one |
| Billing.CoveredIs | core/src/hold.ts:171-179 | The tokens a hold is sized for: the bytes, or the count, a tenth more rounded up, and 64, if that is less |
| Billing.HoldIff | core/src/cost/pricing.ts:223-231 | A whole amount is the hold exactly if it is the price of those tokens in the dearest applicable class and of the output cap, rounded down |
| Billing.FloorIff | core/src/handler.ts:461-466 | A whole amount is the input floor exactly if it is the price at the plain input rate of the count, or of a quarter of the bytes rounded up, rounded down |
| Billing.OpenAIScanTold | core/src/handler.ts:533-541 | What a settlement is given of an OpenAI stream, from its frames: when each of the two results exists, its cost, its evidence, and the error flag |
| Billing.AnthropicScanTold | core/src/handler.ts:533-541 | The same for an Anthropic stream, which has one result |
| Pricing.CountedHoldSize | core/src/hold.ts:171-179 | Capping the hold at the byte bound is sizing it for the smaller token count |
| Pricing.ChargedExactly | core/src/handler.ts:441-442 | Within the bounds, and answered by a model no dearer than the requested one, the clamp never bites, whichever estimator answered: the charge is the exact cost |
| Pricing.OpenAIChargedExactly | core/src/cost/usage/openai.ts:24-32 | The same for every OpenAI report, whatever slices it names |
| Pricing.FloorWithinHoldIff | core/src/handler.ts:461-466 | The accepted-request floor is within the hold at every rate exactly when the count does not exceed the bytes of the body |
| Pricing.CountAboveBytes | core/src/handler.ts:412 | A concrete reply, body and rate at which the floor exceeds the hold |
| Pricing.BufferedAgreesWithStreamed | core/src/cost/usage/anthropic.ts:8-21 | One usage object costs the same buffered and streamed |
| Pricing.Observe | core/src/handler.ts:533-534 | What a settlement asks of a scanner is the function of what was absorbed: error flag, priced result, priced result on evidence |
| Pricing.ChargeIgnoresPackets | core/src/handler.ts:533-541 | For every terminal cause and hold, decision and charge of an OpenAI stream are those of its complete lines, however it was cut into packets |
| Pricing.AnthropicChargeIgnoresPackets | core/src/handler.ts:533-541 | The same for an Anthropic stream |
| Scanners.SlicesPartition | core/src/cost/usage/openai.ts:24-32 | The slices are non-negative, add up to the total, equal the reported ones when those are consistent, and otherwise take what is left, read before written |
| ScannerLaws.OpenAIReportsRead | core/src/cost/usage/openai.ts:36-48 | Every count of a consistent report reaches its own class, in the chat and in the responses shape |
| ScannerLaws.AnthropicReportRead | core/src/cost/usage/anthropic.ts:54-79 | Every count of a report reaches its own class, at the start of a stream and in a delta |
| ScannerLaws.FrameIs | core/src/cost/usage/openai.ts:84-95 | A data line carries what the parser makes of its payload, whatever white space surrounds it; the end marker, an empty payload and every other line carry nothing |
| ScannerLaws.ChatFrames | core/src/cost/usage/openai.ts:96-113 | A text chunk counts its text and its reasoning, a last chunk tells model and usage, an error frame fails |
| ScannerLaws.ResponsesFrames | core/src/cost/usage/openai.ts:198-204 | The same for the responses shape |
| Scanners.OpenAIScanner.Feed | core/src/cost/usage/openai.ts:80-115 | The buffered loop absorbs every line that is now complete and keeps the remainder |
| Scanners.OpenAIScanner.AbsorbResponses | core/src/cost/usage/openai.ts:184-207 | What one frame of the Responses shape changes |
| Scanners.OpenAIScanner.Result | core/src/cost/usage/openai.ts:117-149 | The answer in either mode is the specified function of what was absorbed |
| Scanners.ScannerKnows | core/src/cost/usage/openai.ts:209-236 | After any lines: the last usage and model reported, all visible text, whether any frame was seen or was an error |
| Scanners.OpenAIChunking | core/src/cost/usage/openai.ts:80-149 | Any split into packets gives the result, in both modes, and the error flag of the whole stream |
| Scanners.EvidenceOnly | core/src/cost/usage/openai.ts:117-149 | With evidence alone a scanner answers exactly when usage was reported or text was shown, and prefers the report |
| ScannerLaws.ScannerAnswers | core/src/cost/usage/openai.ts:117-149 | In each mode exactly when there is an answer; the last usage reported, or an estimate of the request's own input and one output token for every four characters or part of four |
| Scanners.AnthropicScanner.Feed | core/src/cost/usage/anthropic.ts:39-82 | The buffered loop absorbs every line that is now complete and keeps the remainder |
| Scanners.AnthropicScanner.Absorb | core/src/cost/usage/anthropic.ts:44-80 | What one line changes |
| Scanners.AnthropicChunking | core/src/cost/usage/anthropic.ts:39-89 | Any split into packets gives the result and the error flag of the whole stream |
| Scanners.AnthropicKeeps | core/src/cost/usage/anthropic.ts:54-80 | Reported usage, the model and an error are never lost again |
| ScannerLaws.AnthropicKnows | core/src/cost/usage/anthropic.ts:54-80 | After any lines each of the five totals is the last one told of it, by a start or by a later delta that names it |
| ScannerLaws.AnthropicAnswers | core/src/cost/usage/anthropic.ts:84-88 | There is an answer exactly if a start reported usage and one named a model, and it holds the last totals |
| Sse.ChunkingInvariance | core/src/cost/usage/anthropic.ts:39-43 | For any fold over lines, feeding packets is feeding their concatenation |
| Sse.LinesRoundTrip | core/src/cost/usage/openai.ts:80-84 | Lines and remainder joined back are the text, and no line holds a newline |
| Buy.PreCheckShedsOnlyDoomed | core/src/endpoints/buy.ts:57-60 | Over any run that makes no room: whoever the pre-check turns away would be refused by the reservation gate at the end of it, at any rate; and whoever that gate admits would pass the pre-check then |
| Buy.Handler.OnArrival | core/src/endpoints/buy.ts:57-60 | The pre-check is the arrival step of the shop |
| Buy.Handler.OnRate | core/src/endpoints/buy.ts:84-96 | Rate check, gate and reservation in one block are the rate step of the shop |
| Buy.Handler.OnAddress | core/src/endpoints/buy.ts:97-145 | The row is claimed and the reservation released on every path: the address step of the shop |
| Buy.GateAnswers | core/src/endpoints/buy.ts:57-96 | Exactly when a request passes the pre-check, gets a reservation, or is told which way it failed; only a reservation moves a counter, and only its own process's |
| Buy.AddressAnswers | core/src/endpoints/buy.ts:97-145 | A created address gets its row and the buyer a quote exactly if the table has room and the index is fresh; the reservation is released in every case |
| Buy.TableCapped | core/src/ledger/orders.ts:97-100 | With any number of processes the table never exceeds the cap, each counter is the number of its creations in flight, and all reservations are released |
| Buy.NoOrphanedAddress | core/src/endpoints/buy.ts:84-96 | In one process open orders plus creations in flight never exceed the cap, and an address minted for a fresh index always gets its row |
| Buy.OrphanFreeIff | core/src/endpoints/buy.ts:109-130 | No minted address is refused its row exactly when a single process serves |
| Buy.TwoProcessesOrphan | core/src/endpoints/buy.ts:109-130 | For any two processes the literal run of six events over an empty table with one slot: both reserve, both addresses are minted, the second is answered busy_try_later |
| Token.TokenChecksum | core/src/token-format.ts:22-27 | The loop computes the checksum |
| Token.IsValidTokenFormat | core/src/token-format.ts:31-35 | Shape and checksum decide validity |
| Token.ValidIffMinted | core/src/token-format.ts:18-35 | A string is valid exactly when some 43 allowed characters mint it |
| Token.TestVectors | core/test/token-format.test.ts:8-9 | The checksums of 43 times a and of 43 times 0 that the tests expect, and a valid token written out |
| Token.SingleTypoRejected | core/src/token-format.ts:29-35 | Replacing any one character of a valid token by any other is always rejected |
| Token.TranspositionRejected | core/src/token-format.ts:29-35 | Exchanging any two different neighbours of a valid token is always rejected, across the border of the checksum too |
| Fnv.TailTellsUnits | core/src/token-format.ts:24-26 | A step with another ASCII character changes one of the three last letters |
| Token.HashInjective | core/src/token-format.ts:23-25 | Different low 24 bits stay different through any common suffix |
| Token.EncodeInjective | core/src/token-format.ts:26 | Four letters determine all 24 bits |
| Fnv.TimesInjective | core/src/token-format.ts:24 | The product with the prime is injective on the low 24 bits |
| Fnv.StepsDoNotCommute | core/src/token-format.ts:24 | Different ASCII characters in either order lead to different low bits |
| ModuleGraph.RuntimeModuleGraph | core/scripts/trust-domain-graph.ts:140-164 | Ends on cyclic graphs; returns exactly the files reachable from the entries, every unresolved and opaque import of a parsed one as often as it occurs and nothing else; or the last entry that is no file |
| ModuleGraph.ScanImports | core/scripts/trust-domain-graph.ts:153-160 | The imports of one file, followed or recorded |
| ModuleGraph.FirstFileIff | core/scripts/trust-domain-graph.ts:136 | The file found is the first candidate that is one, and none exactly if no candidate is |
| ModuleGraph.WithExtension | core/scripts/trust-domain-graph.ts:118-137 | Package imports resolve to nothing; a JavaScript name means its TypeScript source first, in the order of the table; any other extension that file alone |
| ModuleGraph.WithoutExtension | core/scripts/trust-domain-graph.ts:129-136 | A bare name resolves to a file exactly if it is that name, else the first with a source extension, else the first index file below |
| ModuleGraph.ReachableInClosed | core/scripts/trust-domain-graph.ts:146-161 | A set that holds the entries and is closed under imports holds every reachable file |

## Left out

- LedgerClient.Call: an attempt is dropped, or processed once before the next attempt begins; a copy processed after a
  later attempt is covered by the ledger's own results (`LedgerRuns.DuplicatesCollapse`), not by the client's. The
  retry delay is taken to be at least one millisecond.
- LedgerClient.Client.OpenHold: while the call runs nobody else opens this hold id, as ids are fresh UUIDs.
- LedgerClient.Client.SettleHold: while the call runs nobody else settles this hold id with another request; late
  copies of its open are allowed.
- LedgerClient.Client.StartSession: a start whose recovery totals exceed JavaScript's exact integers takes effect, but
  the client does not accept the answer and the process ends; the contract says so.
- LedgerRuns.Superseded: only superseded sessions are fenced; one that never became current may still start late.
- Streaming.Registry.DrainInflight: the callbacks the source keeps in a set are the streams of a sequence, in the
  registry while their flag says so; they are values here, not aliased objects. Happenings during the final await are
  finitely many, and every settlement is answered in the end.
- Streaming.Stream.OnLedgerAccept: the promises that later callers join are the attempt field; what runs after the
  await besides counting and releasing the stream (logging) is not modelled.
- Requests.Reconciliation: request preparation and the construction of a streaming response are taken not to throw;
  which statuses a response may have with a body follows section 5.5 of the Fetch Standard. Gate and rejection
  counters before forwarding are left out, and so are the failure sub-counters.
- CreditSender.Drain: no poll tick and no restart happens during a drain: the tick runs it at its tail under one
  guard, and a restart ends it. When a late copy of the very message arrives around its own send, the run does not say
  which of the two the answer was made for.
- Settlement.Settle: the source iterates its groups in insertion order; here any order is allowed, which is more.
- Orders.OrdersStore.CommitSettlement: the sales book is a multiset of rows; the source's table has no key either.
- Quote.MarginPreserved: exact reals; floating-point rounding of quotes, shares and gross amounts is not modelled.
- Pricing.ChargedExactly: exact reals, and an output cap that is a whole number. The price table, its rounding to
  integer rates and model lookup are not modelled; rates are non-negative integers and the load-time assertion is the
  predicate `Pricing.Asserted`.
- Scanners.OpenAIChunking: a frame that parses to null counts as one without properties, where the source would throw;
  the length of a text is its number of characters rather than of UTF-16 units; the input estimate is an integer.
- Sse.ChunkingInvariance: packets are already decoded text; UTF-8 decoding across packets is not modelled.
- Token.ValidIffMinted: generation of random characters and hashing of tokens are not modelled.
- ModuleGraph.RuntimeModuleGraph: entries are resolved paths; the TypeScript parser, path arithmetic and the file
  system are functions of the host, constant during the walk.
- Buy.TableCapped: the rate source and the wallet are events that may fail; request validation, the rate limiter and
  the quote text are left out.
- SQLite itself, its pragmas, 64-bit overflow and SUM casts; restoring one database without the other.
- Migration of old schemas and holds without a session: the session ledger starts with no such rows. The vestigial
  received_atomic column.
- Sockets, HTTP framing and wire-version headers: a request refused for its version or shape is one that was lost.
- Wallet and node calls, rate sources and rate caches, poll classification, header policy, provider routing, order
  status and balance pages: no state that the results above depend on, or easier than what is here.
- The user interface, prerendering, command-line tools and log text.
