# Verification of the NAHA backend

This project models the transactional core of the backend and proves properties of it over
every run and, where the code relies on row locks, leases or workers, over every interleaving.

The state is a set of tables. A table is a sequence of rows and a row's identifier is its
position; unique indexes of the migrations are part of the operations. Each service function has
a specification: a function from the tables before to the tables after, with the error it raises.
Beside it a class performs the function statement by statement, in place, and is proved to leave
exactly the specified rows and error. What the services promise is then proved of the
specification: an invariant that every operation keeps, and from it statements about every
reachable state. Callers may commit or roll back after an error, so both are steps of a run.

| files | what they model |
|---|---|
| `Marketplace*.dfy` | service requests, offers, dispatch waves and delivery jobs |
| `OfferLocks.dfy`, `OfferAlone.dfy` | the same operations split at their row locks and interleaved; each of them run alone |
| `Trade*.dfy` | products, carts, checkout, counter sales, orders, payments and the wallet ledger, on top of the marketplace |
| `Settlement.dfy`, `Refunds.dfy`, `Payouts.dfy` | settlement journals and quotes, refunds, payouts |
| `Claims.dfy`, `Inbox.dfy`, `RetryQueue.dfy`, `RetryOnce.dfy`, `Lease.dfy` | claim statements, the message inbox, the two sending queues and when they send once, the dispatch lease |
| `AgentActions.dfy` | actions proposed by the agent and confirmed or declined, on top of the marketplace |
| `Template.dfy`, `Workflow.dfy` | JSON templates and paths, partner workflows with compensation |
| `Routing.dfy` | payment-route ranking |
| `Money.dfy`, `Payments.dfy`, `Prelude.dfy` | rounding to cents, payment statuses, shared vocabulary |

Amounts are whole cents, quantities thousandths of a unit. Time is an integer clock that never
goes back. The outside world is a parameter: which providers a query finds and how they rank,
whether a send succeeds, what a partner answers, how a value prints.

Where the code and what one would expect of it part, the code is modelled and the difference is a
result:

- `create_payment` returns an existing payment of the same reference unchanged, whoever made it, for
  whatever amount and in whatever currency, and it then pays the order (`TakenReferencePays`);
  `CheckoutMatchesWhen` gives the exact condition under which the debit is the order's.
- Refund requests are checked against what is refunded, not against what is outstanding: two full
  refunds can both complete (`TwoFullRefunds`, `OverRefundedWhen`).
- Journal lines must be positive, so a settlement with a waived or a total fee is refused
  (`SettlesWhen`).
- The unique index on (user, merchant, status) of carts lets a user check out once per merchant
  (`OneCheckoutPerMerchant`).
- Each insert of a dispatch wave computes the next wave number anew, so numbers increase inside a
  wave; `create_offers` uses the column's default, so numbers can repeat (`DefaultNumbersRepeat`);
  `NumbersIncreaseWhen` gives the exact condition, `DispatchedStayAbove` what always holds. Two
  dispatches of one request that overlap compute the same number (`OverlappingDispatchesClash`).
- A row claimed by a worker that stops is never taken back by the sending queues (`UnheldIsFinal`);
  a raise after a hand-over with attempts left sends again, and nothing else does
  (`AMessageCanBeSentTwice`, `OnceExactlyWhen`).
- Nothing takes the order table's edge from ready to out for delivery: an order goes out only in the
  call that makes it ready (`OrdersFollowTheirMachine`).
- A payout that was only prepared cannot be completed (`CompletesUnlessOvertaken`).
- The ten-minute ceiling of the event relay's backoff is never reached (`DelaysDouble`).
- Renewing a lease with a shorter time-to-live shortens it (`RenewalShortensWhen`).
- Candidates with the same least key and different fees, which needs two policies for one provider
  and channel, make the quoted fee depend on their order (`FeeDependsOnOrder`); exactly those do
  (`OrderIsIgnoredWhen`).
- Three statements are modelled as intended rather than as written: the status update of
  `transition_request` (`app/services/execution.py:66-67`) has a stray comma; `complete_payout`
  (`app/services/reconciliation.py:68`) sets a column `paid_at` that `provider_payouts` does not
  declare; and two calls of `create_action` in `app/api/agent.py` pass a `trace_id` it does not take.

The `*Effects.dfy` files and the lemmas named `...When` and `...Does` say, with every status and
constant written out, exactly when an operation succeeds and what it leaves behind; the invariants
and the theorems over runs rest on the same specifications.

Most proofs are invariants kept step by step. An operation with a big case distinction has one
lemma per case, and the lemma named in the table only puts them together. Every statement has its
method; the table names those with a loop or with several coupled writes, since a method of one
guarded update says no more than the specification the theorems are about.

## Model

| member | source | states |
|---|---|---|
| `Money.HalfUpIsNearest` | app/services/financial.py:9-10 | rounding an amount gives a nearest whole cent, on a tie the one further from zero, symmetric in sign |
| `Money.HalfEvenIsNearest` | app/services/payment_routing.py:28-29 | `quantize` in the default context gives a nearest whole cent, on a tie the even one |
| `Money.HalfUpMonotone` | app/services/commerce.py:14 | rounding keeps order: a larger amount never rounds to fewer cents |
| `MarketplaceTables.Tables.CreateOffers` | app/services/execution.py:9-26 | the insert loop leaves exactly the specified tables: one new pending offer per provider not offered before, the request offered if it was searching |
| `MarketplaceTables.Tables.AcceptOffer` | app/services/execution.py:28-54 | the statements leave exactly the specified tables and error in every branch: not found, unavailable, expired (offer lapses), request closed, awarded |
| `MarketplaceTables.Tables.DeclineRivals` | app/services/execution.py:46-49 | exactly the other pending offers of the same request are rejected |
| `MarketplaceTables.Tables.SelectOffers` | app/services/dispatch.py:70-82 | the selection loop, stopping at the wave size, inserts exactly the offers the specification selects, each with its own new number |
| `MarketplaceTables.Tables.DispatchWave` | app/services/dispatch.py:66-86 | selection, request update and attempt row together leave exactly the specified tables, or none of it when the attempt index refuses |
| `MarketplaceTables.Tables.ExpireOffers` | app/services/dispatch.py:89-93 | exactly the pending offers past their expiry, in scope, lapse, and their number is returned |
| `MarketplaceTables.Tables.Reassign` | app/services/dispatch.py:96-105 | expiry, the live-offer check, the return to searching and the new wave compose to the specified tables |
| `MarketplaceTables.Tables.CreateJob` | app/services/delivery.py:24-43 | an order's job is created once, with its request and a first wave |
| `MarketplaceTables.Tables.AssignCourier` | app/services/delivery.py:52-58 | a searching job gets its courier; the request follows only if it was searching or offered |
| `MarketplaceTables.Tables.TransitionDelivery` | app/services/delivery.py:60-86 | courier, transition table and proof are checked; the request is moved as each stage prescribes |
| `MarketplaceRuns.ExecuteKeeps` | app/services/provider_os.py:54-66 | every one of the fifteen writers keeps the cross-table invariant and the two-state one (owner and accepted provider fixed, terminal rows frozen, versions grow, answers final), also when its caller commits after an error |
| `MarketplaceRuns.RunKeeps` | app/services/execution.py:28-67 | the same over every run of committed and rolled-back calls |
| `MarketplaceRuns.MaxWaveIsMaximum` | app/services/dispatch.py:75 | the running maximum is attained by an offer of the request and bounds them all |
| `MarketplaceRuns.WaveNumberIsFresh` | supabase/migrations/008_dispatch_intelligence.sql:17 | for dispatches run one at a time: the wave number recorded was never recorded for that request, so the unique index never refuses it |
| `MarketplaceTheorems.AcceptedProviderIsSetOnce` | app/services/execution.py:42-53 | no provider while searching or offered; once set it never changes or disappears under any writer |
| `MarketplaceTheorems.OneAwardedOffer` | app/services/execution.py:45-53 | at most one accepted offer per request, and its provider is the request's accepted provider |
| `MarketplaceTheorems.OfferIsAnsweredOnce` | app/services/dispatch.py:89-93 | an offer leaves pending at most once; the answered row never changes again |
| `MarketplaceTheorems.AcceptClearsTheField` | app/services/execution.py:45-53 | what an accept does to every offer: its own awarded, visible rivals answered, answered ones and other requests' untouched |
| `MarketplaceTheorems.TerminalStatesAbsorb` | app/services/delivery.py:10-16 | completed and cancelled requests and delivered, failed and cancelled jobs never change again |
| `MarketplaceTheorems.VersionDetectsEveryWrite` | app/services/execution.py:51 | equal versions of a request at two times mean an untouched row |
| `MarketplaceTheorems.RequestsFollowTheirMachine` | app/services/execution.py:57-65 | whoever writes, a request moves only along the machine's edges: accepted from searching or offered, started only when accepted, completed only once in progress, deliveries included |
| `MarketplaceTheorems.DeliveryStaysCoupled` | app/services/delivery.py:52-86 | a job past searching has a fixed courier and its request is neither searching nor offered; past pick-up the request is in progress or closed; a delivered or cancelled job's request is completed or cancelled |
| `MarketplaceTheorems.DeliveredJobsStory` | app/services/delivery.py:60-70 | the event log of a delivered job is every stage in order with at least one proof recorded in transit, and nothing else |
| `MarketplaceTheorems.SelectionIsAPrefix` | app/services/dispatch.py:71-82 | the loop picks exactly the first wave-size candidates never offered before, repetitions in the ranking included |
| `MarketplaceTheorems.WaveNumbersIncrease` | app/services/dispatch.py:75 | the numbers one dispatch gives are above all earlier ones of the request, each one above the highest before it |
| `MarketplaceTheorems.WaveSelection` | app/services/dispatch.py:66-86 | a dispatch never fails, offers exactly the first never-offered candidates with fresh increasing numbers and records one unused attempt; with no such candidate nothing changes |
| `MarketplaceTheorems.DispatchedStayAbove` | app/services/dispatch.py:71-76 | in every reachable state, and after whatever follows, each dispatched offer's number stays above those of all earlier offers of its request |
| `MarketplaceTheorems.NumbersIncreaseWhen` | supabase/migrations/008_dispatch_intelligence.sql:4 | in every reachable state a request's numbers increase from offer to offer if and only if none but its first offer carries the column's default |
| `MarketplaceTheorems.DefaultNumbersRepeat` | app/services/execution.py:13-23 | a reachable state in which two offers made by one create_offers call carry the same number |
| `MarketplaceTheorems.OverlappingDispatchesClash` | app/services/dispatch.py:75 | two dispatches computed from the same tables record the same number, so if they overlap the unique index refuses the second |
| `MarketplaceTheorems.WavesAreBounded` | app/services/dispatch.py:83-85 | the non-empty waves of a request are at most as many as the providers it was offered to |
| `MarketplaceTheorems.ReassignSendsOrSearches` | app/services/dispatch.py:96-105 | exactly the overdue offers lapse; with a live offer nothing else changes; without one the first never-offered candidates get a wave, or the request returns to searching |
| `MarketplaceEffects.AcceptsWhen` | app/services/execution.py:28-54 | in every reachable state an accept succeeds exactly for that provider's pending, unexpired offer of a request that is searching or offered; then the offer is accepted, exactly the visible pending rivals are rejected and the request is accepted for the provider; an expired offer is marked so, any other refusal changes nothing |
| `MarketplaceEffects.RejectsWhen` | app/services/provider_os.py:80-84 | exactly the provider's own pending offer, which is then rejected |
| `MarketplaceEffects.OffersOneEach` | app/services/execution.py:9-26 | one new pending offer, good for 120 seconds, for each found provider not offered before, no other new one, and a searching request is then offered |
| `MarketplaceEffects.ExpiresWhen` | app/services/dispatch.py:89-93 | exactly the pending offers in scope whose time has come expire |
| `MarketplaceEffects.DispatchMoves` | app/services/dispatch.py:71-84 | a dispatch that selects somebody makes a searching or offered request offered, for 120 seconds, and touches no other row |
| `MarketplaceEffects.TransitionsWhen` | app/services/execution.py:56-67 | started only when accepted, completed only in progress, cancelled from any status before; anything else is refused and changes nothing |
| `MarketplaceEffects.ProviderMovesWhen` | app/services/provider_os.py:60-66 | exactly the accepted provider, along the same machine |
| `MarketplaceEffects.CancelsWhen` | app/services/agent_execution.py:99-110 | exactly the owner's request that is searching, offered, accepted or in progress |
| `MarketplaceEffects.CreatesOneJob` | app/services/delivery.py:24-43 | an order without a job gets one, with a request of its customer and offers to the first five candidates; an order with one is left alone |
| `MarketplaceEffects.AssignsWhen` | app/services/delivery.py:52-58 | exactly a searching job gets the courier; a request that was searching or offered is accepted for that courier, any other stays |
| `MarketplaceEffects.DeliversWhen` | app/services/delivery.py:60-86 | in every reachable state, exactly its courier along the stages and to delivered only with a recorded proof; delivering completes an accepted or started request, picking up starts an accepted one, cancelling cancels an open one, and otherwise the request row is the same |
| `MarketplaceEffects.ProvesWhen` | app/services/delivery.py:96-115 | a proof is recorded exactly in transit, by the courier or the customer |
| `OfferLocks.EveryStepKeepsOrder` | app/services/execution.py:28-54 | every lock, scan, write, commit and abort step, by any number of transactions, keeps what each open transaction relies on |
| `OfferLocks.EveryStepRefines` | app/services/dispatch.py:89-105 | each step changes the committed tables exactly as one atomic call, or not at all |
| `OfferLocks.InterleavingsSerialize` | app/services/execution.py:28-54 | every interleaving of accepts, sweeps, reassignments, assignments and single statements has the outcome of a serial run of atomic calls |
| `OfferLocks.ConcurrentAcceptsAreSafe` | app/services/execution.py:42-53 | under every interleaving: one awarded offer per request, of the accepted provider; every offer answered at most once |
| `OfferAlone.UncontendedAccept` | app/services/execution.py:28-54 | run alone the locked protocol never waits and does exactly what accept_offer does in one piece |
| `OfferAlone.UncontendedLapse` | app/services/execution.py:38-41 | the same for an offer found expired |
| `OfferAlone.UncontendedSweep` | app/services/dispatch.py:89-93 | the same for an expiry sweep |
| `OfferAlone.UncontendedReassign` | app/services/dispatch.py:96-105 | the same for a reassignment, whichever way it ends |
| `OfferAlone.UncontendedAssign` | app/services/delivery.py:52-58 | the same for assigning a courier |
| `OfferAlone.UncontendedSingle` | app/services/provider_os.py:80-84 | an operation of one statement happens at once when nobody holds a row; posting a request, creating a job and recording a proof never wait |
| `TradeTables.Tables.AddToCart` | app/services/commerce.py:51-61 | checks and upsert leave exactly the specified cart, quantity and unit price; a cart created before a failing check remains in the session |
| `TradeTables.Tables.UpdateCartItem` | app/services/food_delivery.py:30-49 | zero removes the line, a positive quantity within stock replaces it and its unit price |
| `TradeTables.Tables.CheckLines` | app/services/commerce.py:77-80 | the first loop accepts exactly when every line is in stock and then yields the sum of rounded line totals |
| `TradeTables.Tables.DecrementStock` | app/services/commerce.py:82-83 | the second loop takes every line's quantity from its product |
| `TradeTables.Tables.GetOrCreatePayment` | app/services/payments.py:8-15 | one payment per reference: an existing one is returned unchanged, whatever amount is asked for |
| `TradeTables.Tables.PlaceOrder` | app/services/commerce.py:82-91 | once nothing refuses it checkout writes exactly the stock, payment, order and cart rows specified |
| `TradeTables.Tables.Checkout` | app/services/commerce.py:71-94 | the whole function: every error branch leaves every table as it was, including the two unique indexes |
| `TradeTables.Tables.SellLines` | app/services/pos.py:14-20 | the interleaved check-and-decrement loop sells exactly when every line is in stock from the start, and returns the exact worth of the lines |
| `TradeTables.Tables.CounterSale` | app/services/pos.py:6-23 | a sale takes all its units and stores its lines with prices and total or, rolled back, nothing; repeated products are refused |
| `TradeTables.Tables.Settle` | app/services/payments.py:25-45 | payment, debit, provider credit, earning and order in one transaction, exactly as specified; with a non-positive amount the paid write stands beside the error until the caller rolls back |
| `TradeTables.Tables.MerchantTransition` | app/services/merchant_os.py:78-126 | the order machine, including the delivery job an order made ready sends out |
| `TradeStock.LevelSinceSet` | app/services/merchant_os.py:140-143 | the level a history leaves is the value last set less the units taken since |
| `TradeStock.TakeStockTakes` | app/services/commerce.py:82-83 | decrementing line by line lowers each product by exactly the units the lines hold of it |
| `TradeStock.CheckFirstIsEnough` | app/services/commerce.py:78-83 | checking all lines before decrementing any is safe when a product occurs once: no stock becomes negative |
| `TradeStock.RunKeepsStock` | app/services/commerce.py:51-94 | carts hold known products of their merchant once each, and stock is accounted for, in every run |
| `TradeStock.StockIsConserved` | app/services/pos.py:14-20 | stock is never negative and is the last set value less all units taken since; all units ever taken are exactly those on orders and counter sales, cancelled orders included |
| `TradeStock.AddToCartAdds` | app/services/commerce.py:51-61 | adding raises exactly one quantity of exactly one cart, the user's active one at the merchant, never above the stock, and refreshes its unit price only |
| `TradeStock.UpdateSetsTheQuantity` | app/services/food_delivery.py:30-49 | updating sets exactly that quantity within the stock, zero removes it, every other quantity and cart stays |
| `TradeStock.SalesAddUp` | app/services/pos.py:13-21 | in every run a counter sale's total is the nearest cent to what its lines are worth; against the lines rounded one by one it differs by at most half a cent for each and one half more |
| `TradeMoney.ExecuteKeepsMoney` | app/services/payment_provider_service.py:31-34 | every writer, status-rewriting webhooks included, keeps every ledger entry explained by exactly one payment |
| `TradeMoney.RunKeepsMoney` | app/services/payments.py:25-45 | the same over every run, with orders, payments and carts only moving forward |
| `TradeMoney.SettleKeeps` | app/services/payments.py:25-45 | settling, first time or after a rewind, keeps the books in order |
| `TradeTheorems.PaidOrdersAreDebitedOnce` | app/services/payments.py:31-44 | an order paid or later has exactly one debit under its payment's reference, of the payment's amount, whatever webhooks did since; it is the order total on the order's user in the order's currency exactly when order and payment match; the total is the rounded lines plus the rounded fee |
| `TradeTheorems.CheckoutMatchesWhen` | app/services/commerce.py:84-87 | order and payment match exactly when the cart's reference was free, or taken for the same user, total and currency |
| `TradeTheorems.MatchingLasts` | app/services/payments.py:8-15 | whether they match is decided at checkout for ever |
| `TradeTheorems.TakenReferencePays` | app/services/payments.py:8-15 | for every payer, positive amount and currency: if they registered the cart's reference first, that payment pays the order and is all that is debited |
| `TradeTheorems.TakenReferenceUndercharges` | app/services/payments.py:8-12 | two such runs: a stranger's single cent, and the buyer's own payment in another currency |
| `TradeTheorems.ProviderIsCreditedOnce` | app/services/payments.py:34-40 | however often a payment is rewound and settled again: at most one credit under its reference, of its amount, to the accepted provider, and one earning saying the same |
| `TradeTheorems.SettlingPostsEverything` | app/services/payments.py:31-40 | settling leaves the buyer's debit and, with an accepted provider, the credit and the earning, all of the payment's amount, first time or after a rewind; no earlier entry changes |
| `TradeTheorems.SettlingMarksTheOrder` | app/services/payments.py:41-44 | the order behind the payment is paid if it awaited payment; no other order moves |
| `TradeTheorems.ResettlingPostsNothingNew` | app/services/ledger_v2.py:19-23 | settling again once everything is posted changes neither entries nor earnings |
| `TradeTheorems.OutForDeliveryHasAJob` | app/services/merchant_os.py:119-125 | an order out for delivery has its delivery job |
| `TradeTheorems.OrdersFollowTheirMachine` | app/services/merchant_os.py:78-126 | whoever writes, an order keeps everything but its status; only settling its own payment makes it paid, only its customer cancels it before, only its merchant moves it along the state table afterwards |
| `TradeTheorems.OneCheckoutPerMerchant` | supabase/migrations/017_whatsapp_commerce.sql:9 | in every run the cart index refuses an otherwise valid checkout exactly when an earlier checkout by the same user at that merchant succeeded |
| `TradeEffects.UpdatesStockWhen` | app/services/merchant_os.py:140-143 | exactly the merchant's own product, to any quantity that is not negative |
| `TradeEffects.AddsWhen` | app/services/commerce.py:51-61 | exactly a positive quantity of the merchant's own product that, with what the cart has, is in stock; a refusal leaves at most a new empty cart |
| `TradeEffects.UpdatesWhen` | app/services/food_delivery.py:30-49 | exactly a line of the user's own active cart, to nothing or to what is in stock; a refusal changes nothing |
| `TradeEffects.ChecksOutWhen` | app/services/commerce.py:71-91 | in every reachable state, exactly when a checkout succeeds: a filled active cart of the user, every line in stock, no negative fee or total, no order on the reference's payment and no earlier checkout there; otherwise nothing changes |
| `TradeEffects.CheckingOutDoes` | app/services/commerce.py:77-91 | the order is at the prices of the moment and awaits payment, its total the sum of its rounded lines and the rounded fee; a free reference gets a pending payment of that total; every product loses the units the lines hold; the cart is closed |
| `TradeEffects.SellsWhen` | app/services/pos.py:6-23 | exactly positive quantities of distinct products in stock; the sale is at the prices of the moment and the units are off the shelf |
| `TradeEffects.CreatesPaymentWhen` | app/services/payments.py:8-15 | a known reference returns its payment untouched, a new one gets a pending payment |
| `TradeEffects.StatusMovesWhen` | app/services/financial.py:60-74 | authorizing takes exactly a pending payment, capturing a pending or authorized one; a webhook rewrites any |
| `TradeEffects.SettlesWhen` | app/services/payments.py:25-45 | in every reachable state settling succeeds exactly for a paid payment, which it leaves alone, or for a pending or authorized one of a positive amount; then exactly the buyer's debit, the accepted provider's credit and the earning are there, of that amount, under its reference |
| `TradeEffects.MerchantActsWhen` | app/services/merchant_os.py:78-126 | in every reachable state, for each action exactly the statuses it starts from and the one it leads to; made ready, a deliverable order goes out with a delivery job; any other pair is refused and changes nothing |
| `TradeEffects.CustomerCancelsWhen` | app/services/food_delivery.py:88-99 | exactly the customer's own order that still awaits payment |
| `Claims.PickedOldestFirst` | app/services/outbox.py:31-36 | a claim passes over no older ready, unlocked row unless its limit is reached by older ones |
| `Claims.Pick` | app/services/whatsapp_reliability.py:46-51 | the scan picks exactly the specified rows |
| `Inbox.Table.Recover` | app/services/whatsapp_reliability.py:72-82 | exactly the processing events with a lease older than 300 seconds go back to failed, and their number is returned |
| `Inbox.Table.Claim` | app/services/whatsapp_reliability.py:45-55 | exactly the picked events are leased and counted one more attempt |
| `Inbox.NextKeeps` | app/services/whatsapp_inbox_worker.py:91-108 | every step of every worker, zombies included, keeps the protocol invariant |
| `Inbox.EffectAtMostOnce` | app/services/whatsapp_inbox_worker.py:42-88 | over every interleaving with crashes, recoveries, re-claims and zombies a message's effect commits at most once, and its reply at most once and never without it |
| `Inbox.ProcessedMeansEffected` | app/services/whatsapp_inbox_worker.py:91-108 | an event is processed only if the effect of its message is committed, exactly once |
| `Inbox.AttemptsAreBudgeted` | app/services/whatsapp_reliability.py:38-82 | attempts never exceed eight plus the lease recoveries; a dead letter has at least eight, exactly eight if never recovered |
| `Inbox.HistoryIsKept` | app/services/whatsapp_reliability.py:10-26 | messages, attempts and deduplication keys are never lost |
| `Inbox.EffectIsFinal` | app/services/whatsapp_inbox_worker.py:52-56 | a committed effect is neither undone nor repeated by anything that follows |
| `Inbox.PassTakes` | app/services/whatsapp_reliability.py:45-82 | a worker's pass leases only events that are due or whose lease is older than 300 seconds, each at one more attempt; an abandoned one it does not lease goes back to failed; every other event, a younger lease included, stays as it is |
| `Inbox.PassTakesAll` | app/services/whatsapp_reliability.py:45-55 | it leases every such event that nobody has locked, as far as its limit goes |
| `Inbox.AbandonedIsTakenUp` | app/services/whatsapp_reliability.py:72-82 | an event whose worker crashed is under a new worker at its next attempt as soon as one comes by after its lease ran out |
| `Inbox.ProcessingIsLeased` | app/services/whatsapp_reliability.py:45-55 | in every reachable state exactly the events in process have a lease |
| `Inbox.ProcessingDoes` | app/services/whatsapp_inbox_worker.py:42-88 | an event waits while its message is being processed, is skipped when its key is committed, and otherwise commits effect and key together, the reply with them or after |
| `Inbox.MarkingDoes` | app/services/whatsapp_inbox_worker.py:91-108 | a worker may raise at any point; what was processed is marked so, what raised failed, or dead from the eighth attempt on |
| `Inbox.OnePassProcesses` | app/services/whatsapp_inbox_worker.py:91-108 | undisturbed, one pass processes a fresh event at its first attempt with effect and reply committed |
| `Inbox.BackoffDoubles` | app/services/whatsapp_reliability.py:41 | the wait starts at five seconds and doubles with each attempt up to fifteen minutes |
| `Inbox.RetryWaits` | app/services/whatsapp_reliability.py:38-55 | marking failed leaves exactly the failed or dead row with its wait, and no other attempt starts before the wait is over, whatever workers, recoveries and zombies do |
| `RetryQueue.Table.Claim` | app/services/outbox.py:29-41 | exactly the picked pending rows are in process with one more attempt |
| `RetryQueue.NextKeeps` | app/services/whatsapp_outbox_worker.py:10-33 | every step of every worker keeps the protocol invariant |
| `RetryQueue.OneHolder` | app/services/outbox.py:32-37 | a row has at most one worker in every interleaving |
| `RetryQueue.BudgetHolds` | app/services/whatsapp_outbox_worker.py:30-33 | at most five (messages) or ten (events) attempts, no more hand-offs than attempts, failed only at exactly that count, sent only after a hand-off |
| `RetryQueue.OneMessagePerKey` | app/services/outbox.py:21-27 | however often a key is enqueued its message is handed over at most five times in all |
| `RetryQueue.EnqueuesWhen` | app/services/outbox.py:21-27 | a message is queued unless its own key is there already, a message without a key always |
| `RetryQueue.PassTakes` | app/services/outbox.py:29-41 | a pass takes exactly the due rows nobody has locked, as far as its limit goes, each at one more attempt, and no other row changes |
| `RetryQueue.WorkingDoes` | app/services/whatsapp_outbox_worker.py:17-33 | what each worker step does to its first row in each phase: handed over once, marked sent only after that, and after a raise failed exactly from the budget on and otherwise pending again after the delay |
| `RetryQueue.UnheldIsFinal` | app/services/realtime_worker.py:14-34 | a row neither pending nor held never changes again: sent and failed are final, and a stopped worker's row is stranded for good |
| `RetryQueue.DelaysDouble` | app/services/realtime.py:69 | the wait doubles up to five minutes for messages; for events it stops at 512 seconds, so the ten-minute ceiling is never reached |
| `RetryQueue.RetryWaits` | app/services/outbox.py:29-41 | after a failure with budget left the row is pending and untouched until its delay has passed |
| `RetryQueue.AMessageCanBeSentTwice` | app/services/whatsapp_outbox_worker.py:25-32 | a reachable state in which one message was handed over twice: delivery is at least once |
| `RetryOnce.HandedOverOnce` | app/services/whatsapp_outbox_worker.py:25-32 | in every interleaving in which no worker raises after a hand-over with attempts left, no row of either queue is handed over twice |
| `RetryOnce.LapseRepeats` | app/services/outbox_worker.py:22-29 | from every reachable state, once a worker does raise so, a continuation without another such raise hands the same row over once more |
| `RetryOnce.OnceExactlyWhen` | app/services/realtime_worker.py:20-33 | the two together: a step keeps every row to one hand-over, whatever follows without such a raise, if and only if it is not such a raise |
| `Lease.OneOwner` | app/services/realtime.py:74-87 | no two owners both hold an unexpired, unreleased lease, for whatever time-to-live each asks |
| `Lease.GrantedWhenUnheld` | app/services/realtime.py:78-80 | a lease is granted exactly when no other owner holds one |
| `Lease.LeaseLasts` | app/services/realtime.py:85-87 | until it expires nothing others do, late releases included, ends or shortens a lease |
| `Lease.RenewalNeverShortens` | app/services/realtime.py:77-80 | with one fixed time-to-live a renewal is granted and never shortens |
| `Lease.RenewalShortensWhen` | app/services/realtime.py:77-80 | in general it shortens exactly when it asks for less than is left |
| `Settlement.SplitIsExact` | app/services/settlement.py:10-14 | a split exists exactly when 0 < gross and 0 <= fee <= gross after rounding; then fee and earning add up to gross and lie within it |
| `Settlement.QuotesConserve` | app/services/financial.py:14-26 | for every rate in [0,1] a quote is made exactly when the subtotal rounds above zero; it conserves it and its fee is the nearest cent |
| `Settlement.QuoteFeeGrows` | app/services/financial.py:17-20 | a higher rate never lowers the platform's share |
| `Settlement.Tables.SettlePayment` | app/services/settlement.py:16-39 | the statements leave exactly the specified journal, lines and settlement in every branch, on-conflict branches and a refused line included |
| `Settlement.SettleAdds` | app/services/settlement.py:21-38 | in reachable states a settlement either changes nothing or adds one journal, its three lines and one row |
| `Settlement.RunKeeps` | supabase/migrations/014_settlement_ledger.sql:35 | over every run settlements are only appended, one per payment |
| `Settlement.BooksBalance` | app/services/settlement.py:29-34 | in every reachable state each settlement's journal has exactly three lines, debit equal to credits equal to the payment's amount; all debits equal all credits |
| `Settlement.SharesArePosted` | app/services/settlement.py:29-34 | in every run each settlement's journal debits clearing by the gross amount, credits the platform the fee and the provider the earning, and posts nothing else |
| `Settlement.RefusedBecause` | app/services/settlement.py:10-34 | which refusal for which cause, and that nothing is left behind |
| `Settlement.QuotesWhen` | app/services/financial.py:14-26 | for any rate at all a quote is made exactly when the subtotal rounds above zero and the fee lies between nothing and all of it |
| `Settlement.SettlesWhen` | supabase/migrations/014_settlement_ledger.sql:15 | a payment settles exactly when it is paid and already settled or the fee lies strictly between nothing and everything |
| `Settlement.DefaultFee` | app/services/settlement.py:23 | the default fee is within half a cent of a tenth; with it exactly payments of five cents or more settle |
| `Settlement.SettledOnce` | app/services/settlement.py:21 | settling again, by any provider for any fee after any status rewrites, changes nothing and returns the first settlement |
| `Refunds.RequestsWhen` | app/services/financial.py:76-86 | exactly on a paid payment for an amount that rounds to at least a cent and at most what is not refunded |
| `Refunds.CompletesWhen` | app/services/financial.py:88-96 | the first completion adds the amount and calls a fully refunded payment refunded; a second changes nothing |
| `Refunds.RefundedIsTheSum` | app/services/financial.py:93-95 | after every run the refunded amount is the sum of completed refunds; `refunded` status implies it covers the amount |
| `Refunds.CompletesOnce` | app/services/financial.py:91 | completing again, whatever happened since, is accepted and changes nothing |
| `Refunds.CompletingConserves` | app/services/financial.py:93-95 | completions only move money from outstanding to refunded |
| `Refunds.OverRefundedWhen` | app/services/financial.py:76-96 | what is requested can be completed in any order without exceeding the amount exactly when refunded and outstanding together stay within it |
| `Refunds.RequestFitsWhen` | app/services/financial.py:81-82 | exactly when an accepted request keeps that total within the amount; always when nothing is outstanding |
| `Refunds.RefundsAreBounded` | app/services/financial.py:76-96 | requested one at a time, no run refunds more than the amount |
| `Refunds.TwoFullRefunds` | app/services/financial.py:81-82 | a run in which two full refunds of one payment both complete |
| `Payouts.MaxNumberIsMax` | app/services/reconciliation.py:59 | the highest attempt number is attained and bounds the payout's attempts |
| `Payouts.Tables.CompletePayout` | app/services/reconciliation.py:64-71 | exactly the specified rows; a payout that is not in process rolls the attempt back |
| `Payouts.ExecutesWhen` | app/services/reconciliation.py:52-62 | exactly for a requested or processing payout and a destination verified for its provider; it opens one attempt numbered one above the last and leaves the payout processing |
| `Payouts.PreparesWhen` | app/services/settlement.py:56-68 | exactly for such a payout the spare balance covers; its first attempt is processing, reopened or new, and the payout is as it was |
| `Payouts.CompletesWhen` | app/services/reconciliation.py:64-71 | exactly for a processing attempt of a processing payout; both are then finished |
| `Payouts.CanBePaid` | app/services/reconciliation.py:52-71 | from every reachable state a payout that can be executed can be paid |
| `Payouts.SomethingIsPaid` | app/services/reconciliation.py:52-71 | a run that ends with a paid payout |
| `Payouts.PaidByOneAttempt` | app/services/reconciliation.py:64-71 | in every interleaving a payout is paid exactly when one of its attempts succeeded, and it is exactly one |
| `Payouts.AttemptNumbersAreDistinct` | supabase/migrations/014_settlement_ledger.sql:62 | attempt numbers of a payout are distinct in every interleaving |
| `Payouts.PaidWasExecuted` | app/services/reconciliation.py:57-61 | a payout in process or paid was executed, against a destination verified for its provider |
| `Payouts.SuccessIsFinal` | app/services/settlement.py:65-67 | no later prepare, execute or complete reopens a succeeded attempt or moves its payout |
| `Payouts.CompletesUnlessOvertaken` | app/services/reconciliation.py:64-71 | a begun completion changes nothing exactly when the payout was only prepared or another attempt has paid it |
| `AgentActions.Session.ServiceRequest` | app/services/agent_execution.py:78-97 | exactly the specified request and offers, or the payload error |
| `AgentActions.Session.Approve` | app/services/agent_execution.py:35-76 | the session's rows after every branch, the failed status written before re-raising included |
| `AgentActions.NextKeeps` | app/api/agent.py:108-119 | every proposal, confirmation, decline, abort and marketplace call, interleaved, keeps the invariant |
| `AgentActions.OneDecision` | app/services/agent_execution.py:35-76 | at most one service request per action, one receipt exactly when executed, and exactly the events of its one decision |
| `AgentActions.ExecutedMeansDone` | app/services/agent_execution.py:78-110 | an executed action's request exists and is its owner's, or is cancelled, after everything the marketplace did since |
| `AgentActions.DecisionIsFinal` | app/api/agent.py:108-119 | a declined action never executes; an executed one is never declined or repeated |
| `AgentActions.ConfirmsWhen` | app/api/agent.py:115-119 | exactly when confirming executes; otherwise nothing is left behind although the function wrote a failure |
| `AgentActions.ConfirmingDoes` | app/services/agent_execution.py:78-110 | a confirmed request is its owner's, new and offered, with one pending offer for each provider found and no other; a confirmed cancellation cancels that one request |
| `AgentActions.ConfirmingTakesTurns` | app/api/agent.py:108-119 | confirming begins exactly for the owner's own pending action that nobody else is confirming; a decline waits |
| `AgentActions.ProposesWhen` | app/services/agent_execution.py:20-33 | a new key makes one pending action with what was proposed, a known one none |
| `AgentActions.DeclinesWhen` | app/api/agent.py:111-115 | exactly the owner's own pending action |
| `AgentActions.ProposingAgain` | supabase/migrations/004_agent_core.sql:22 | proposing again under a key yields the same action and changes nothing |
| `Template.TemplateValueLoop` | app/services/template_engine.py:6-13 | the loop follows the dotted key through nested objects, null when it leaves them |
| `Template.SubstituteLoop` | app/services/template_engine.py:25-29 | the loop replaces the variables one after another |
| `Template.JsonPathLoop` | app/services/template_engine.py:33-44 | the loop's result and its three errors |
| `Template.FirstIsReplaced` | app/services/template_engine.py:25-29 | str.replace and str.count treat the first occurrence and then the rest after it |
| `Template.IndexSelects` | app/services/template_engine.py:33-44 | list indices count from the front or, negative, from the end; which error otherwise |
| `Template.LookupInRendered` | app/services/template_engine.py:16-44 | looking up a path in a rendered template is rendering what the path reaches in the template and going on from there |
| `Template.RenderCommutes` | app/services/template_engine.py:16-44 | rendering commutes with path lookup, errors included, unless the path runs past a string of the template |
| `Template.RenderKeepsShape` | app/services/template_engine.py:17-20 | keys, their order and list lengths are kept at every level |
| `Template.PlainIsUnchanged` | app/services/template_engine.py:25-30 | a template without `{{` renders to itself |
| `Template.OtherTextIsSubstituted` | app/services/template_engine.py:21-30 | text that is not one placeholder from end to end has its variables replaced and stays text |
| `Template.PlaceholderGivesTheValue` | app/services/template_engine.py:21-24 | a padded whole-string placeholder renders to the value itself, or to itself when there is none |
| `Workflow.RunSteps` | app/services/partner_integrations.py:259-283 | the loop of the try block stops at the first refusal or failure with exactly the specified state, results and calls |
| `Workflow.Compensate` | app/services/partner_integrations.py:284-305 | the exception handler's loop visits the completed steps in reverse |
| `Workflow.ExecuteWorkflow` | app/services/partner_integrations.py:244-308 | the whole function equals its specification |
| `Workflow.FailedRunCalls` | app/services/partner_integrations.py:258-306 | a failed run made the calls of the steps before the failure in order, the failing call if any, then the configured compensations in reverse, the same whatever the partner answers; the original error is raised |
| `Workflow.CompensatedInReverse` | app/services/partner_integrations.py:285-297 | the i-th compensation is that of the i-th completed step from the end |
| `Workflow.SuccessfulRunCalls` | app/services/partner_integrations.py:258-308 | a successful run made one call per step in order and no compensation |
| `Workflow.CompensatesWhen` | app/services/partner_integrations.py:284-297 | without a template of its own a step is compensated exactly when it names an operation, and with its own result |
| `Workflow.CompensationIsRendered` | app/services/partner_integrations.py:284-301 | with one, by what the template renders to if that is an object |
| `Workflow.FailureRestores` | app/services/partner_integrations.py:284-306 | when failed calls have no effect and every completed step's compensation undoes it, a failed run leaves the partner as it found it |
| `Workflow.EarlierResultIsSent` | app/services/partner_integrations.py:266-283 | a step whose template names an earlier step's result sends exactly that object |
| `Routing.OrderIsTotal` | app/services/payment_routing.py:41 | the sort key order is total and antisymmetric |
| `Routing.TextOrder` | app/services/payment_routing.py:41 | strings are compared like a dictionary does |
| `Routing.RoutesOrder` | app/services/payment_routing.py:41 | routes are ordered by score, then provider, then channel |
| `Routing.ScoredWhen` | app/services/payment_routing.py:31-40 | exactly healthy, available candidates within their limit are eligible; the score is the fee and a hundred times the priority |
| `Routing.Rank` | app/services/payment_routing.py:31-41 | the loop and the sort give the specified ranking |
| `Routing.RankingIsSorted` | app/services/payment_routing.py:31-41 | the ranking holds exactly the eligible candidates with their own fee and score, in key order, ties in input order |
| `Routing.ChosenIsBest` | app/services/payment_routing.py:43-50 | a route is chosen exactly when one is eligible; it is one of those with the least key, quoting its fee and score; none eligible scores lower, and all others are fallbacks |
| `Routing.DecisionIgnoresOrder` | app/services/payment_routing.py:43-50 | provider, channel, score and fallbacks do not depend on the order of the candidates |
| `Routing.RankingIgnoresOrder` | supabase/migrations/012_payment_routing.sql:19 | with distinct provider and channel pairs the whole ranking does not |
| `Routing.OrderIsIgnoredWhen` | app/services/payment_routing.py:39-50 | the whole decision, fee included, is the same for every order of the candidates if and only if all eligible candidates with the least key charge the same fee |
| `Routing.FeeDependsOnOrder` | app/services/payment_routing.py:39-41 | for every amount there are candidates for which it is not |
| `Routing.FeeIsMonotone` | app/services/payment_routing.py:28-29 | the fee never falls as the amount grows and is within half a cent of exact |

## Left out

- HTTP routes, authentication, adapters, provider clients, OAuth, media, AI calls and the web UI: outside calls are parameters or arbitrary outcomes.
- Regular-expression intent and command parsers: tables of patterns.
- PostGIS distance and the dispatch score: candidates are an arbitrary ranked list.
- Risk limits, KYC, capability catalogue, onboarding, reviews, disputes, conversation memory: single guarded updates.
- Reconciliation batches and items: items can still be added after a batch is closed, so no invariant of closed batches holds.
- Balance reserves: `Payouts.Prepare` takes the spare balance as a parameter; payouts never debit the ledger, so no bound by the balance is claimed.
- Quote acceptance and expiry, and reserve holds: one guarded update each.
- The events and notification rows that accompany writes, except those a theorem speaks of (delivery events, action events, receipts).
- Webhook event deduplication: a webhook is modelled as an unguarded status rewrite, which allows more than the code does.
- Authorization timestamps, provider references, metadata and the idempotency key of payment intents.
- Quantities finer than a thousandth of a unit, and the status of counter sales, which nothing modelled moves.
- Deadlocks are aborts that may happen to any transaction at any point; liveness of the queues is not stated.
- mark_inbox_processing, which the worker does not call.
- TradeTables.Tables.UpdateCartItem: which of several active carts is meant (the most recently updated one) is a parameter, because update times are not modelled.
- TradeTables.Tables.Checkout: how the payment reference is derived from the cart identifier is a parameter; the theorems hold for every reference, fresh or taken. The two unique indexes are tested before the writes they would abort.
- TradeTables.Tables.Settle: account rows are not separate; an entry's key names the owner and currency of its account.
- OfferLocks.InterleavingsSerialize: the writes of create_delivery_job, of a dispatch by itself and of a status move are one step each; recording a proof takes no lock in the code and is one step here.
- MarketplaceRuns.WaveNumberIsFresh: speaks of dispatches one at a time; a dispatch is one step in OfferLocks too, so that overlapping ones are refused by the index is said by OverlappingDispatchesClash and not by a run.
- MarketplaceTables.Tables.AddProof: the proof row is a flag of the job, since a second proof replaces the first.
- Template.RenderCommutes: printing by str() and parsing by int() are arbitrary functions, so nothing is said about the text a substitution inserts.
- Workflow.FailureRestores: the partner is a deterministic function of its own state; exceptions that are not of class Exception (cancellation) are not modelled.
- Settlement.Tables.SettlePayment: uses exact arithmetic; the 28-digit limit of Python's decimal context is not modelled.
- Routing.FeeIsMonotone: the same, for amounts in cents and rates in millionths.
- RetryQueue.Table.MarkFailed: exponents beyond the range of a 32-bit integer cannot occur within the budget and are not modelled.
- Refund statuses other than requested and succeeded: `complete_refund` refuses them in the model too, but no modelled function writes them.
