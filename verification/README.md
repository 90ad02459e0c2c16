# Verified model of the trading, hashing and indexing plugins

A Dafny 4.11 model of the parts of this repository whose correctness spans many steps, with proofs.
`dafny verify dfyconfig.toml` checks the whole project.

**Trading engine** (`Trading*.dfy`, `StorageSpec`, `OpsSpec`, `Storage`, `Ops`). The Kraken plugin is a persistent state
machine driven by agent tools and a minute cron. `StorageSpec` and `OpsSpec` give the meaning of every operation as a
function on the value of the store: every I/O may throw before or after its effect and may take time, as a script that is
universally quantified says. `Storage` and `Ops` are the classes and methods of the plugin, updated in place, with its
`try`, `catch` and `finally`, each proved to end exactly where its function says. `TradingInvariant` states one invariant
and proves that every operation keeps it; `TradingRuns` draws the guarantees over whole runs from it; `TradingCalls`,
`TradingHistory` and `TradingProgress` say which orders one tick sends, what is append-only, how the lock is released and
how the queue drains; `TradingEffects` says what each operation stores, in the fields of what the caller gave it;
`TradingLosses` says what a lost write of the latch costs; `TradingExamples` holds concrete runs. A ghost history records
exchange calls, stagings, the human's approvals and losses; no operation reads it.

**Timed lock** (`TimedLock`). Any interleaving of any number of ticks over atomic acquire and release.

**Risk arithmetic** (`OrderBook`, `PositionSizing`). The order-book walk is compared with every possible allocation; the
position size is compared with every multiple of the step, and with what the risk gate computes for the same order.

**Policy file** (`PolicyLoader`, `PolicyGrammar`, `PolicyValidation`, `PolicyLayout`, `PolicyPrinter`,
`PolicyRoundTrip`). The hand-written line parser, the fail-closed validator and the printer; exactly which texts parse,
which values are valid, which policies survive a round trip, and what in a file carries no meaning.

**Hashing and codecs** (`Utf8`, `HashPadding`, `Sha256`, `Sha512`, `Hmac`, `Base64Bits`, `Base64Url`). The in-place loops
against the recursive definitions of FIPS 180-4, RFC 2104, RFC 3629 and RFC 4648, with their inverses and injectivity.
`ShaConstants` derives every constant of the hash functions from the primes it stands for, and `Sha256Example` and
`Sha512Example` follow the example message of the standard through every round to its digest.

**Feed index** (`FeedIndex`, `FeedIndexRuns`, `FeedConvergence`). A catalog file that must stay consistent with an external
vector index across refreshes that fail anywhere, and how fast quiet refreshes catch up.

Five expectations turned out false of the code; each has a concrete run, ticks a minute apart, and its exact condition.

- A live order can be repeated under one approval when the write of the latch is lost: `OneApprovalManyOrders` and
  `RestagingReusesTheApproval` are the runs, `LiveAttemptLeavesIff` says after which failures. `NoBoundOnLostOrders`
  breaks the bound by stagings, the cap of five and the bound of one under live policies in the same way. The guarantees
  over runs count exactly the losses that leave that approval, that record or an order undone (`LossNotedIff`), and
  `AtMostFivePerApproval` is what holds whatever is lost.
- A live order under required approval need not have been approved: `RestagingSkipsTheHuman` is the run,
  `StagedCountsAsApproved` and `ApprovedBeforeSent` the condition.
- A record whose `human_approval_id` is white space only blocks the queue: `BlankReferenceBlocks` is the run,
  `UnreadableIff` and `TickActsIff` the condition.
- Switching to a paper policy does not stop live records already staged: `PaperPolicySendsALiveOrder` is the run,
  `SwitchingToPaperDoesNotStopLiveRecords` the condition.
- A lost catalog write can leave an index row that does not match its entry: `LostCatalogLeavesAWrongRow` is the run,
  `RefreshKeepsMatchIff` the condition.

Where the code and its own defaults disagree the model follows the code: staging names 10 and 15 basis points and the
policy's fraction as fallbacks for `max_slippage_bps`, `max_spread_bps` and `risk_fraction`, but an absent field is read
as zero and only one that is no finite number takes the fallback (`DefaultsTakenIff`, `AbsentNumbers`).

## Model

| member | source | states |
|---|---|---|
| TradingRuns.RunKeeps | core_plugins/kraken/trading-ops.ts:77-513 | the invariant of the engine holds at every step boundary of every run of stagings, cancels, policy refreshes, ticks, approvals and waits, with a fault allowed before or after the effect of every I/O |
| TradingRuns.OrdersAreJustified | core_plugins/kraken/trading-ops.ts:273-458 | every order sent in any run was sent under a valid, enabled, bounded policy, with the kill switch neither latched nor in panic, after a passing system check, for an unexpired staged or approved live record; a buy's (limit - invalidation) * quantity, and a sell's (invalidation - limit) * quantity, is at most the policy's fraction of the equity at the time |
| TradingRuns.PolicyIsAlwaysBounded | core_plugins/kraken/policy-loader.ts:217-388 | at every point of every run the policy in force is within its documented bounds or disabled |
| TradingRuns.NoOrderAfterTheLatch | core_plugins/kraken/trading-storage.ts:126-136 | once latched a run stays latched and never again sends or records an order |
| TradingRuns.OrdersUnderAnApproval | core_plugins/kraken/trading-ops.ts:457-496 | in every run an approval backs at most one live order, plus one for each lost latch that left it unused and one for each time its id was generated again; losses under other approvals do not matter |
| TradingRuns.NoApprovalBacksTwoOrders | core_plugins/kraken/trading-ops.ts:457-496 | while human approval is required two live orders of a run never share their approval, whatever throws after the order was sent, unless a lost latch left that approval unused or its id was generated again |
| TradingRuns.AtMostFivePerApproval | core_plugins/kraken/trading-safety.ts:246-282 | with ticks at least a minute apart, as the cron schedules them, no approval backs more than five live orders whatever is lost, because each falls within its five minutes, unless its id is generated again |
| TradingRuns.ApprovedBeforeSent | core_plugins/kraken/trading-ops.ts:397-458 | under required approval every live order has, before the step that sent it, a step in which the human approved its key, or a staging that brought the reference of its approval with it |
| TradingLosses.LiveAttemptLeavesIff | core_plugins/kraken/trading-ops.ts:457-496 | a live attempt leaves its record open, its order unrecorded or its approval unused, with trading not latched, exactly when an exception came before that write took effect and the write of the latch was lost too |
| TradingLosses.LossNotedIff | core_plugins/kraken/trading-ops.ts:457-496 | exactly then the history notes the loss, under the key of the record and of the approval it left: the run guarantees give up no more than that |
| TradingLosses.AttemptsAreReady | core_plugins/kraken/trading-ops.ts:411-458 | every order a tick sends is such an attempt: its record is open, its approval stored and unused when one is required |
| TradingLosses.LostLatchRepeatsTheOrder | core_plugins/kraken/trading-ops.ts:457-496 | a record left open that way is still the stored one, and is sent again under the same approval as soon as its checks pass again |
| TradingExamples.OneApprovalManyOrders | core_plugins/kraken/trading-ops.ts:265-513 | for every n up to five, a run from a fresh store with ticks a minute apart, one staging, one approval and the shown adapter's order lists sends n orders under the one approval when n latches are lost: five is the least bound |
| TradingExamples.NoBoundOnLostOrders | core_plugins/kraken/trading-ops.ts:457-496 | where no approval is required, for every n a run with ticks a minute apart and one staging sends n orders of the one record under a policy of one open order, when n latches are lost |
| TradingExamples.RestagingReusesTheApproval | core_plugins/kraken/trading-ops.ts:55-56 | closing the record is not enough: after a loss that comes later, staging the id again with the same reference sends a second order under the same approval a minute after the first |
| TradingExamples.RestagingSkipsTheHuman | core_plugins/kraken/trading-ops.ts:55-56 | a concrete run without any approval step: a record whose approval was asked for is staged again with that reference, and the next tick sends it |
| TradingCalls.StagedCountsAsApproved | core_plugins/kraken/trading-safety.ts:158-159 | a staged record with a reference is sent exactly when the approved one would be |
| TradingExamples.LiveOrderIsReachable | core_plugins/kraken/trading-ops.ts:265-487 | a concrete run from a fresh store that stages, asks for approval a minute later, is approved and sends a live order at the next minute: the guarantees about orders are not empty |
| TradingRuns.OrdersNeverExceedStagings | core_plugins/kraken/trading-ops.ts:430-496 | for every key, paper orders recorded plus live orders attempted never exceed the accepted stagings of that key plus the lost latches that left its record open |
| TradingRuns.AtMostFiveLiveOrders | core_plugins/kraken/trading-safety.ts:98-118 | with the shown adapter a whole run sends at most five live orders under any sequence of policies, and at most one if no paper policy was ever in force, plus one for each lost latch that left its order unrecorded |
| TradingRuns.LivePolicyPlacesOnce | core_plugins/kraken/trading-safety.ts:100-107 | under policies that are live whenever enabled the stale private stream stops every order after a recorded one: one live order, plus one for each lost latch that left its order unrecorded |
| TradingRuns.PaperIsolation | core_plugins/kraken/trading-ops.ts:117-120 | a run in which no enabled live policy is ever loaded never calls the exchange, neither to place nor to cancel |
| TradingRuns.JournalAgreesWithBooks | core_plugins/kraken/trading-storage.ts:182-194 | in a fault-free run the journal holds one LIVE_ORDER entry per open order and one PAPER_ORDER entry per paper order, and the last stamp is that of the newest entry, although a tick writes back the runtime it read at its start |
| TradingRuns.RunGrows | core_plugins/kraken/trading-storage.ts:182-194 | in every run the journal and the calls made are append-only, the latch is permanent, and faults come only from the script |
| TradingRuns.Reached | core_plugins/kraken/trading-storage.ts:67-77 | every run from a freshly initialised store stays inside the invariant |
| TradingRuns.StepKeeps | core_plugins/kraken/index.ts:191-307 | each tool action and each cron entry keeps the invariant |
| TradingInvariant.CronKeeps | core_plugins/kraken/trading-ops.ts:265-513 | a tick keeps the invariant wherever it fails, through the inner catch, the outer catch and the finally |
| TradingInvariant.ExecuteLiveKeeps | core_plugins/kraken/trading-ops.ts:457-496 | between sending the order and finishing its bookkeeping the invariant is owed; finishing or latching pays it, on every path |
| TradingInvariant.TryLiveOwes | core_plugins/kraken/trading-ops.ts:457-487 | the inner try either settles its order completely or leaves exactly what latching settles |
| TradingInvariant.LatchSettles | core_plugins/kraken/trading-ops.ts:488-496 | latching restores the invariant after any exception in the live branch |
| TradingInvariant.ExecutePaperKeeps | core_plugins/kraken/trading-ops.ts:430-455 | a paper order uses up the record's turn before it is recorded |
| TradingInvariant.RequestApprovalKeeps | core_plugins/kraken/trading-ops.ts:183-228 | asking for approval never gives an approval a second order or another expiry, unless its id was generated again |
| TradingInvariant.StageKeeps | core_plugins/kraken/trading-ops.ts:77-181 | staging keeps the invariant; only an accepted staging opens a turn |
| TradingCalls.DefaultsTakenIff | core_plugins/kraken/trading-ops.ts:44-75 | the fallbacks of 10 and 15 basis points and of the policy's risk fraction are taken exactly where the field is present but no finite number: an absent one is read as zero |
| TradingCalls.AbsentNumbers | core_plugins/kraken/trading-ops.ts:28-34 | without a price, a quantity or an invalidation price staging rejects; without a spread tolerance the record is refused in every market that has a spread |
| TradingInvariant.CancelKeeps | core_plugins/kraken/index.ts:203-216 | cancelling a record in any status keeps the invariant |
| TradingInvariant.RefreshKeeps | core_plugins/kraken/index.ts:19-26 | loading any policy file keeps the invariant |
| TradingInvariant.SweepKeeps | core_plugins/kraken/trading-ops.ts:359-377 | the expiry sweep writes back only records that are still the stored ones |
| TradingInvariant.PlacingIsCapped | core_plugins/kraken/trading-safety.ts:202-203 | an order is placed only while fewer than the policy's cap are open |
| TradingCalls.ActSendsIff | core_plugins/kraken/trading-ops.ts:397-458 | acting on a record sends exactly one order when its approval could be read, all checks pass and its own mode is live, and none otherwise, whatever fails |
| TradingCalls.TickSendsAtMostOnce | core_plugins/kraken/trading-ops.ts:265-513 | one tick sends at most one order and takes none back; the order is sent after the tick began, under an approval that was already stored then |
| TradingCalls.SwitchingToPaperDoesNotStopLiveRecords | core_plugins/kraken/trading-safety.ts:143-217 | validation ignores the policy's mode: a live record staged earlier is sent under a paper policy exactly when it would be under a live one |
| TradingExamples.PaperPolicySendsALiveOrder | core_plugins/kraken/trading-ops.ts:397-458 | a concrete run with ticks a minute apart: a record staged and approved under a live policy is sent after a refresh to the paper default |
| TradingCalls.ShownAdapterLatchesIff | core_plugins/kraken/kraken-adapter.ts:364-419 | with the snapshot the shown adapter assembles the order lists always agree, and the safety check latches exactly for a daily or weekly realised loss beyond the policy's fraction of equity, too many open orders, or a stale stream beside live ones, each read off the runtime and the policy |
| TradingCalls.LatchesIff | core_plugins/kraken/trading-safety.ts:43-119 | for any snapshot the safety check latches exactly when the order lists disagree, permissions look wrong, positions are too many or those limits are passed; trouble with the exchange or the markets only refuses |
| TradingCalls.StagedPassesUntilExpiryIff | core_plugins/kraken/trading-ops.ts:83-139 | a record that staging accepted passes the same field checks at execution under the same policy exactly until it expires |
| TradingCalls.RequestedApprovalAcceptsIff | core_plugins/kraken/trading-safety.ts:246-282 | an approval as requested accepts the approved record exactly while it is unexpired, the risk estimate is unchanged, the slippage allowance is not negative and the market mid is within it |
| TradingHistory.TickReleasesItsLock | core_plugins/kraken/trading-ops.ts:265-271 | a locked tick changes nothing; any other tick that returns has journalled and freed the lock; after an exception the lock is free unless this tick's release write was lost or the tick never entered |
| TradingHistory.GuardedBodyJournals | core_plugins/kraken/trading-ops.ts:272-509 | a tick that ends normally has appended at least one journal entry |
| TradingEffects.StagingStores | core_plugins/kraken/trading-ops.ts:77-181 | staging stores under the key of its id the record the caller asked for: side sell exactly for a sell, trimmed texts, each number in its own field, mode, reference and dates with their defaults; as staged exactly when it may be staged, as rejected otherwise, and no other record |
| TradingEffects.NormalizedIff | core_plugins/kraken/trading-ops.ts:44-75 | the normalized record is the only one that is as asked |
| TradingEffects.StagingAcceptsIff | core_plugins/kraken/trading-ops.ts:83-139 | staging accepts exactly the records that may be staged: policy valid and enabled, known symbol, limit order, positive numbers, dates, policy id and mode of the policy, risk within its fraction, autonomous notional within its limit |
| TradingEffects.CancelMarks | core_plugins/kraken/index.ts:203-216 | cancelling answers whether a record is stored under the key, and changes its status to cancelled and nothing else |
| TradingEffects.ActDecides | core_plugins/kraken/trading-ops.ts:397-458 | the record taken is sent to the human exactly when it is live, approval is required and none is stored; otherwise it is executed in its own mode exactly when it is acceptable, and rejected when it is not |
| TradingEffects.RequestStores | core_plugins/kraken/trading-ops.ts:183-228 | asking stores an approval with the record's own terms, its loss, and five minutes to live, and the reference to it in the record |
| TradingEffects.RejectStores | core_plugins/kraken/trading-ops.ts:414-427 | a refused record is stored as rejected, and nothing else but the journal changes |
| TradingEffects.PaperStores | core_plugins/kraken/trading-ops.ts:430-455 | a paper order closes its record and is appended under the record's id to the paper orders |
| TradingEffects.LiveStores | core_plugins/kraken/trading-ops.ts:457-496 | a live order that went through closes its record, is appended with its own symbol and side to the open orders, and uses up its approval; one that did not leaves trading latched |
| TradingEffects.LatchStores | core_plugins/kraken/trading-ops.ts:230-263 | latching keeps the time of an earlier latch, and cancels at the exchange exactly in live mode |
| TradingEffects.RefusalStores | core_plugins/kraken/trading-ops.ts:313-341 | an unsafe system latches exactly for a critical reason, with a cancel of all orders under a live policy; no record changes either way |
| TradingEffects.TickLocks | core_plugins/kraken/trading-ops.ts:265-271 | a tick that enters holds the lock for ninety seconds |
| TradingProgress.TakesTheOldest | core_plugins/kraken/trading-safety.ts:219-233 | after the sweep the scheduler finds nothing exactly when no record waits, and otherwise takes the stored record with the least createdAt among those that wait, the first in file name order among those with the same date |
| TradingProgress.GatedTickProgress | core_plugins/kraken/trading-ops.ts:359-487 | a fault-free tick past the gates strictly decreases the waiting records exactly when the approval reference of the one created first is readable; a reference of white space only makes the tick fail and leaves every record waiting, and its record waits until it expires |
| TradingProgress.UnreadableIff | core_plugins/kraken/trading-storage.ts:175-180 | an approval reference cannot be read exactly when it is a non-empty string of white space |
| TradingProgress.ActConsumes | core_plugins/kraken/trading-ops.ts:397-487 | acting rewrites the chosen record so that it no longer waits, or, when its approval reference is unreadable, changes nothing |
| TradingProgress.TickActsIff | core_plugins/kraken/trading-ops.ts:265-513 | a whole fault-free tick acts on a record exactly when the lock is free, the policy valid and enabled, the kill switch off, safety and reconciliation clear, a record waits and the oldest one's reference is readable; then strictly fewer wait; past open gates an empty queue is reported as nothing to do and an unreadable head as an error |
| TradingProgress.WaitingRecordsDrain | core_plugins/kraken/trading-ops.ts:359-487 | when nothing new is staged or approved, n ticks that find their gates open and their head readable leave at most the initial number less n waiting, and none once n reaches it |
| TradingProgress.ReadableQueuesDrain | core_plugins/kraken/trading-ops.ts:359-487 | if every waiting record is readable that many ticks past their gates empty the queue, and an empty queue means that every record that has not expired was readable |
| TradingExamples.BlankReferenceBlocks | core_plugins/kraken/trading-ops.ts:397-397 | for every n a concrete run: a record staged with a reference of white space is still there after n ticks, a minute apart, that come before it expires, and the next one fails too |
| TradingProgress.SweepEffect | core_plugins/kraken/trading-safety.ts:235-244 | the sweep turns only expired staged records into expired ones |
| TradingSafety.ValidateSystemSafety | core_plugins/kraken/trading-safety.ts:43-119 | the loops push exactly the listed reasons, accept exactly the safe systems, and report the critical ones |
| TradingSafety.SystemSafetyMeaning | core_plugins/kraken/trading-safety.ts:43-119 | no reason is given exactly when the exchange is usable, every market fresh, the order ids of both lists equal, and the account within its limits |
| TradingSafety.AcceptedIff | core_plugins/kraken/trading-safety.ts:143-217 | validation gives no reason exactly for the acceptable intentions, in their own fields: policy, dates, price against the market, spread, the approval's terms, and the loss between limit and invalidation by the side of the order, also where the zero estimate fell back to the declared fraction |
| TradingSafety.SelectNextSpec | core_plugins/kraken/trading-safety.ts:219-233 | nothing is selected exactly when no candidate exists; otherwise a candidate is, and where creation dates are valid it is the one with the least createdAt, before every other with that date |
| TradingSafety.SelectsFirstOldest | core_plugins/kraken/trading-safety.ts:219-233 | the candidate with the least createdAt, strictly less than that of every candidate listed before it, is the one selected |
| TradingSafety.RejectExpired | core_plugins/kraken/trading-safety.ts:235-244 | only staged records whose expiry has passed change, and only their status |
| Ops.RunMinuteCron | core_plugins/kraken/trading-ops.ts:265-513 | the imperative tick with its lock, try, catch and finally takes the store exactly where the tick on values does |
| Ops.ExecuteLive | core_plugins/kraken/trading-ops.ts:457-496 | the inner try and catch, step by step, agree with the function on values |
| Ops.Execute | core_plugins/kraken/trading-ops.ts:359-487 | sweep, listing, selection and action agree with the function on values |
| Ops.SweepExpired | core_plugins/kraken/trading-ops.ts:359-377 | the loop over the listed records agrees with the recursive sweep |
| Ops.StageIntention | core_plugins/kraken/trading-ops.ts:77-181 | staging on the object agrees with staging on values, whose effect StagingStores gives in the caller's fields |
| Ops.RequestApproval | core_plugins/kraken/trading-ops.ts:183-228 | requesting approval agrees with the function on values |
| Ops.LatchCritical | core_plugins/kraken/trading-ops.ts:230-263 | latching, cancelling, incident and journal agree with the function on values |
| Ops.CancelIntention | core_plugins/kraken/index.ts:203-216 | cancelling on the object agrees with cancelling on values |
| Ops.RefreshProjectPolicy | core_plugins/kraken/index.ts:19-26 | the loaded policy state is what the store then holds |
| Ops.RunSteps | core_plugins/kraken/index.ts:153-307 | any sequence of steps on the live objects ends in the state of the run on values, inside the invariant |
| Storage.TradingStorage.AppendJournal | core_plugins/kraken/trading-storage.ts:182-194 | the entry is appended before the runtime is read back and stamped |
| Storage.TradingStorage.LatchKillSwitch | core_plugins/kraken/trading-storage.ts:126-136 | the latch keeps the time of the first latching |
| Storage.TradingStorage.ListIntentions | core_plugins/kraken/trading-storage.ts:156-169 | the records are read in the order of their sorted file names |
| Storage.TradingStorage.SaveIntention | core_plugins/kraken/trading-storage.ts:146-148 | a record is stored under the storage key of its id, or the call throws |
| Storage.TradingStorage.ReadApproval | core_plugins/kraken/trading-storage.ts:175-180 | an absent or empty reference reads nothing; one without a storage key throws |
| Storage.TradingStorage.AcquireLock | core_plugins/kraken/trading-storage.ts:221-232 | an unexpired lock refuses without a write; otherwise the lock is taken for its time to live |
| Storage.TradingStorage.ReleaseLock | core_plugins/kraken/trading-storage.ts:234-242 | the lock is freed by an expiry in the past |
| Storage.TradingAdapter.GetRuntimeSnapshot | core_plugins/kraken/kraken-adapter.ts:403-419 | whatever the adapter answers or throws, a snapshot is recorded as foreign when its order lists are not those of the stored runtime |
| Storage.TradingAdapter.PlaceLimitOrder | core_plugins/kraken/kraken-adapter.ts:429-441 | every attempt is recorded whether or not the exchange answers |
| JsStrings.SafeIdFixpoint | core_plugins/kraken/trading-storage.ts:21-29 | an id is its own storage key exactly when it is short, non-empty and made of safe characters |
| JsStrings.SafeIdIdempotent | core_plugins/kraken/trading-storage.ts:21-29 | a storage key is its own storage key |
| JsStrings.SafeIdMeaning | core_plugins/kraken/trading-storage.ts:21-29 | a storage key is the trimmed id, each unsafe character replaced by an underscore, cut to a hundred and twenty; there is none exactly for a blank id |
| JsStrings.TrimSplits | core_plugins/kraken/trading-storage.ts:21-29 | trimming takes all white space off both ends and nothing else |
| JsStrings.IsSpaceIff | core_plugins/kraken/trading-storage.ts:21-29 | what is trimmed is the white space and the line terminators of sections 12.2 and 12.3 of ECMA-262 |
| JsStrings.LexLeqIff | core_plugins/kraken/trading-storage.ts:156-169 | file names are listed by the first unit in which they differ, a beginning before what continues it |
| StableSort.SortSpec | core_plugins/kraken/trading-safety.ts:228-231 | sorting orders by the key, permutes, and keeps equal keys in input order |
| StableSort.SortHead | core_plugins/kraken/trading-safety.ts:228-231 | the head of the sorted list is the first of the least elements |
| TimedLock.StoreStepsAreEvents | core_plugins/kraken/trading-storage.ts:221-242 | the lock operations of the store, when their write succeeds, are the atomic steps of the interleavings |
| TimedLock.MutualExclusion | core_plugins/kraken/trading-storage.ts:221-242 | in every interleaving of any number of ticks at most one is inside while none outlives its lock |
| TimedLock.SecondTickEntersIff | core_plugins/kraken/trading-storage.ts:228-229 | a second tick gets in exactly when the first has used up its time to live |
| TimedLock.OverrunAdmitsAThird | core_plugins/kraken/trading-storage.ts:234-242 | release checks only the name, so an overrunning tick frees its successor's lock and a third tick gets in while the second is still in time |
| OrderBook.NormalizeLevels | core_plugins/kraken/risk-tools.ts:451-469 | the loop keeps the positive levels among the first two hundred, sorted by price |
| OrderBook.NormalizedIsSortedBook | core_plugins/kraken/risk-tools.ts:451-469 | the normalised book has positive levels only, best price first |
| OrderBook.NormalizedKeepsPositive | core_plugins/kraken/risk-tools.ts:451-469 | of the first two hundred levels the book holds every positive one, as often as it occurs |
| OrderBook.EstimateVwap | core_plugins/kraken/risk-tools.ts:471-490 | the loop answers null exactly when the depth is less than the quantity, reports what was fillable, and otherwise returns the greedy notional over the quantity |
| OrderBook.GreedyIsTheMinimum | core_plugins/kraken/risk-tools.ts:481-487 | on an ascending book the walk's total is the minimum over all allocations of the quantity: some allocation costs exactly that and none costs less |
| OrderBook.GreedyIsTheMaximum | core_plugins/kraken/risk-tools.ts:481-487 | on a descending book it is the maximum |
| OrderBook.GreedyIsCheapest | core_plugins/kraken/risk-tools.ts:481-487 | on an ascending book no allocation of the quantity costs less than the walk |
| OrderBook.GreedyEarnsMost | core_plugins/kraken/risk-tools.ts:481-487 | on a descending book no allocation of the quantity earns more than the walk |
| OrderBook.AveragePriceRises | core_plugins/kraken/risk-tools.ts:481-489 | the average price of a buy does not fall as the quantity grows |
| OrderBook.AverageAtLeastBestAsk | core_plugins/kraken/risk-tools.ts:481-489 | the average price of a buy is at least the best ask |
| OrderBook.LiquidityCheck | core_plugins/kraken/risk-tools.ts:492-585 | the gate accepts exactly the liquid orders: best ask less best bid within the limit of their mean, levels that hold the quantity, and a total within the slippage limit; each of them fills completely within that limit |
| OrderBook.LiquidOrderFills | core_plugins/kraken/risk-tools.ts:542-568 | an accepted order fills completely from the levels of its side, at a total within the slippage limit of the best price times the quantity |
| PositionSizing.SizeIsTheLargestThatFits | core_plugins/kraken/risk-tools.ts:217-247 | the accepted size loses, with fees and slippage, at most its fraction of equity and costs at most its fraction; no larger multiple of the step does (no larger quantity at all without a step) |
| PositionSizing.SizingSucceedsIff | core_plugins/kraken/risk-tools.ts:191-247 | sizing succeeds exactly when equity, prices and fractions are positive, the stop is on the losing side, a unit loses something, and one step fits both budgets |
| PositionSizing.FitsIffAtMostRaw | core_plugins/kraken/risk-tools.ts:223-226 | fitting both budgets is being at most the unrounded quantity |
| PositionSizing.SizingAndGateAgreeOnTheLoss | core_plugins/kraken/risk-tools.ts:345-360 | for the sized order the gate computes the loss and the notional that sizing reported |
| PositionSizing.SizedOrderPassesTheGate | core_plugins/kraken/risk-tools.ts:362-448 | when the sizing fractions do not exceed the policy's, the gate approves the sized order exactly when the order and the account meet the policy's other fields |
| PositionSizing.GateApprovesIff | core_plugins/kraken/risk-tools.ts:250-448 | the gate approves exactly when the account has equity and stays within its limits, latch, live mode, symbol, order type and leverage are as the policy's fields ask, the stop is on the losing side, and loss and notional are within their fractions of equity |
| PositionSizing.SizingReports | core_plugins/kraken/risk-tools.ts:228-247 | notional, loss and risk fraction reported beside a size are those of that size |
| PolicyLoader.StripComment | core_plugins/kraken/policy-loader.ts:75-85 | the loop keeps the text before the first unquoted comment mark |
| PolicyLoader.ParsePolicyYaml | core_plugins/kraken/policy-loader.ts:107-166 | the loop over the lines, with its root and open key, computes the recursive parse, errors included |
| PolicyLoader.ValidatePolicy | core_plugins/kraken/policy-loader.ts:217-388 | the validator's steps compute the declarative result, which ValidatedIff characterises: its errors, its policy, disabled when there is any error |
| PolicyLoader.ValidatedIsBoundedOrDisabled | core_plugins/kraken/policy-loader.ts:217-388 | whatever the file holds, a policy reported valid is within bounds and an invalid one is disabled |
| PolicyLoader.LoadedPolicyIsBoundedOrDisabled | core_plugins/kraken/policy-loader.ts:433-454 | no project file, missing, unreadable or malformed, puts an enabled policy out of bounds in force |
| PolicyValidation.ValidatedIff | core_plugins/kraken/policy-loader.ts:205-388 | a value is a valid policy exactly when it, its execution and its live block hold the documented keys and no other, each of its documented kind and range; the policy then says what the value says, and is disabled otherwise |
| PolicyGrammar.ParsesIff | core_plugins/kraken/policy-loader.ts:107-166 | a text is parsed exactly when its lines fit one after the other: unindented keys, and below an open key either items or nested keys indented by two spaces |
| PolicyGrammar.AliasIsSpelling | core_plugins/kraken/policy-loader.ts:53-73 | a key read as another is the snake_case spelling of that field's name |
| PolicyRoundTrip.PolicyRoundTripIff | core_plugins/kraken/policy-loader.ts:390-417 | printing a policy whose numbers print as plain decimals and loading the text gives the policy back exactly when it is within bounds and its id is a plain scalar |
| PolicyRoundTrip.IdComesBackIff | core_plugins/kraken/policy-loader.ts:75-105 | a trimmed id survives its line exactly when it has no line end and no unquoted comment mark and looks like no other scalar |
| PolicyRoundTrip.PrintedParses | core_plugins/kraken/policy-loader.ts:107-166 | the printed text parses into the printed fields, or fails exactly as its id line does |
| PolicyRoundTrip.LoadedIdIsOneLine | core_plugins/kraken/policy-loader.ts:107-166 | no text loads as a valid policy whose id spans lines |
| PolicyPrinter.NumberRoundTrip | core_plugins/kraken/policy-loader.ts:92-92 | a plainly printed number reads back as the same number |
| PolicyPrinter.ScalarKeptIff | core_plugins/kraken/policy-loader.ts:87-105 | a trimmed scalar is read as the string it shows exactly when it looks like nothing else |
| PolicyPrinter.ValidatesIff | core_plugins/kraken/policy-loader.ts:217-388 | the validator returns the printed policy exactly when the id was read as the policy's |
| PolicyPrinter.ReadsRest | core_plugins/kraken/policy-loader.ts:391-416 | everything printed after the id line is read into the printed fields, whatever the id line left |
| PolicyLayout.LayoutDoesNotMatter | core_plugins/kraken/policy-loader.ts:111-117 | files that say the same parse the same, or fail the same way, whatever their line ends, blank lines and comments |
| PolicyLayout.ParseEssential | core_plugins/kraken/policy-loader.ts:113-117 | the parse depends only on the lines that say something |
| PolicyLayout.AddedCommentSaysNothing | core_plugins/kraken/policy-loader.ts:75-85 | a comment added after a line that leaves no quote open changes nothing |
| PolicyLayout.BlankAndCommentedLines | core_plugins/kraken/policy-loader.ts:113-117 | a line that says nothing can be put anywhere, and a line replaced by one that says the same |
| PolicyLayout.SplitJoined | core_plugins/kraken/policy-loader.ts:111-111 | lines joined by any mix of line feeds and carriage returns with line feeds are seen by the parser as those lines |
| Utf8.Utf8Bytes | core_plugins/kraken/crypto.ts:14-49 | the loop over the 16-bit units computes the encoder |
| Utf8.DecodeEncode | core_plugins/kraken/crypto.ts:14-49 | every sequence of units, lone surrogates included, is recovered from its bytes |
| Utf8.EncodeInjective | core_plugins/kraken/crypto.ts:14-49 | two strings with the same bytes are the same string |
| Utf8.EncodesUtf8Iff | core_plugins/kraken/crypto.ts:14-49 | the bytes are UTF-8 by the grammar of section 4 of RFC 3629 exactly when the string is well-formed UTF-16 |
| Utf8.CharIffScalar | core_plugins/kraken/crypto.ts:29-46 | the grammar accepts the bytes of a code point exactly when it is no surrogate |
| Base64Url.Base64Encode | core_plugins/gmail/gmail.ts:68-83 | the loop over groups of three bytes computes the padded encoding |
| Base64Url.Base64UrlEncode | core_plugins/gmail/gmail.ts:85-90 | the three replacements give the unpadded url-safe text |
| Base64Url.Base64UrlDecode | core_plugins/gmail/gmail.ts:92-112 | the loop over groups of four characters computes the decoder, foreign characters counting as zero |
| Base64Url.UrlRoundTrip | core_plugins/gmail/gmail.ts:68-112 | decoding the unpadded url-safe text gives back the bytes, for every length |
| Base64Url.ReencodesIff | core_plugins/gmail/gmail.ts:68-112 | a text is the encoding of what it decodes to exactly when it uses only the url-safe letters and its spare bits are zero |
| Base64Url.RepaddedIsEncoded | core_plugins/gmail/gmail.ts:93-98 | the padding recomputed from the length is the padding that was dropped |
| Base64Url.EncodeUrlIsBody | core_plugins/gmail/gmail.ts:85-90 | the url text is the letters of the encoding in the url-safe alphabet, without padding |
| Base64Url.EncoderShifts | core_plugins/gmail/gmail.ts:75-81 | the encoder's shifts and masks on 32-bit words are the divisions and remainders of the model |
| Base64Url.DecoderShifts | core_plugins/gmail/gmail.ts:105-109 | so are the decoder's, on the four joined sextets |
| HashPadding.Pad | core_plugins/kraken/crypto.ts:90-94 | the padding loops compute the padded message of section 5.1 of FIPS 180-4, with the least number of zeros |
| HashPadding.PaddedIsWhole | core_plugins/kraken/crypto.ts:245-251 | the padded message is a whole number of blocks, begins with the message and is less than two blocks longer |
| HashPadding.PaddingInjective | core_plugins/kraken/crypto.ts:245-251 | distinct messages have distinct padded forms |
| Sha256.Hash | core_plugins/kraken/crypto.ts:88-160 | padding, block loop and output compute the digest of sections 5.3 and 6.2 of FIPS 180-4 for every message, with the constants of Sha256Constants and Sha256InitialValue |
| Sha256.ExtendWords | core_plugins/kraken/crypto.ts:112-122 | the schedule extended in place is the recursive schedule |
| Sha256.CompressBlock | core_plugins/kraken/crypto.ts:124-148 | the eight rolling variables end as the standard's working variables and are added into the hash value |
| Sha256.ChainedInParts | core_plugins/kraken/crypto.ts:101-149 | what follows whole blocks is hashed from the value they leave |
| Sha256.PaddedMessagesDiffer | core_plugins/kraken/crypto.ts:89-94 | no two messages share a padded form |
| Sha256Example.DigestOfAbc | core_plugins/kraken/crypto.ts:88-160 | the digest of the three bytes of abc is the one FIPS 180-4 gives, by its sixty-four rounds |
| ShaConstants.Sha256Constants | core_plugins/kraken/crypto.ts:69-82 | the round constants are the first 32 bits of the fractional parts of the cube roots of the first sixty-four primes |
| ShaConstants.Sha256InitialValue | core_plugins/kraken/crypto.ts:96-99 | the initial words are the first 32 bits of the fractional parts of the square roots of the first eight primes |
| ShaConstants.FirstPrimes | core_plugins/kraken/crypto.ts:69-82 | the table of primes begins with two and goes on with the next prime, eighty times |
| Sha512.Hash | core_plugins/kraken/crypto.ts:245-318 | padding, block loop and output compute the digest of sections 5.3 and 6.4 of FIPS 180-4 for every message, with the constants of Sha512Constants and Sha512InitialValue |
| Sha512.ExtendWords | core_plugins/kraken/crypto.ts:272-282 | the schedule extended in place is the recursive schedule |
| Sha512.CompressBlock | core_plugins/kraken/crypto.ts:284-309 | the eight rolling variables end as the standard's working variables and are added into the hash value |
| Sha512.PackWord | core_plugins/kraken/crypto.ts:267-270 | shifting in eight bytes gives their big-endian word |
| Sha512.ChainedInParts | core_plugins/kraken/crypto.ts:264-310 | what follows whole blocks is hashed from the value they leave |
| Sha512Example.DigestOfAbc | core_plugins/kraken/crypto.ts:245-318 | the digest of the three bytes of abc is the one FIPS 180-4 gives, by its eighty rounds |
| ShaConstants.Sha512Constants | core_plugins/kraken/crypto.ts:162-243 | the round constants are the first 64 bits of the fractional parts of the cube roots of the first eighty primes |
| ShaConstants.Sha512InitialValue | core_plugins/kraken/crypto.ts:253-262 | the initial words are the first 64 bits of the fractional parts of the square roots of the first eight primes |
| Hmac.HmacSha512 | core_plugins/kraken/crypto.ts:320-327 | the steps compute HMAC of section 2 of RFC 2104 with 128-byte blocks for keys of every length |
| Hmac.MacByBytes | core_plugins/kraken/crypto.ts:320-327 | the code is the digest of the block masked with 0x5c and the digest of the block masked with 0x36 and the text, each byte for byte |
| Hmac.TrailingZerosOfTheKey | core_plugins/kraken/crypto.ts:321-323 | zeros appended to a key that still fits a block do not change the code |
| Hmac.LongKeyIsItsDigest | core_plugins/kraken/crypto.ts:322-322 | a key longer than a block gives the code of its digest |
| Hmac.Sha256OfText | core_plugins/kraken/crypto.ts:88-89 | hashing a string hashes its UTF-8 bytes |
| Hmac.DistinctTextsDiffer | core_plugins/kraken/crypto.ts:14-94 | distinct strings reach the compression function as distinct padded messages |
| FeedIndex.Indexer.RefreshLocalFeeds | core_plugins/rss_feed_indexer/index.ts:493-582 | the refresh on the object takes catalog and index exactly where the refresh on values does |
| FeedIndex.Indexer.ScanSource | core_plugins/rss_feed_indexer/index.ts:504-561 | the loop over one feed's items, with its break and its catch, computes the scan |
| FeedIndex.Indexer.UpsertRows | core_plugins/rss_feed_indexer/index.ts:565-570 | the loop over chunks of twenty-five applies the rows in order up to the failing call |
| FeedIndex.Indexer.WriteCatalog | core_plugins/rss_feed_indexer/index.ts:416-436 | the file holds the newest ten thousand entries, or what the failing write left |
| FeedIndexRuns.IndexBeforeCatalog | core_plugins/rss_feed_indexer/index.ts:493-575 | in every run, whatever fetch, embedding, database call or file operation fails, each catalogued id has a row in the index |
| FeedIndexRuns.ChangedIdsMatch | core_plugins/rss_feed_indexer/index.ts:527-574 | after a refresh that completes the row of every changed id shows the source, texts and hash of its catalog entry and carries the embedding of the content of the item delivered for it, the last change winning |
| FeedIndexRuns.RowsMatchInRuns | core_plugins/rss_feed_indexer/index.ts:493-575 | when no refresh loses its catalog after touching the index, every row shows what its entry says, in every run |
| FeedIndexRuns.RefreshKeepsMatchIff | core_plugins/rss_feed_indexer/index.ts:565-574 | one refresh leaves every row showing what its entry says exactly when its catalog lands together with its rows, or those rows show nothing new of a catalogued id |
| FeedIndexRuns.LostCatalogLeavesAWrongRow | core_plugins/rss_feed_indexer/index.ts:517-520 | the exception is real: a lost catalog write followed by the feed going back leaves a row that no later refresh of that feed repairs |
| FeedIndexRuns.TruncationDropsTheOldest | core_plugins/rss_feed_indexer/index.ts:421-423 | of the entries beyond ten thousand none that is dropped has a later publishedAt than one that is kept, and nothing is lost besides |
| FeedConvergence.QuietStepExact | core_plugins/rss_feed_indexer/index.ts:503-563 | a failure-free refresh of feeds with distinct ids settles exactly the first five hundred stale items |
| FeedConvergence.QuietStep | core_plugins/rss_feed_indexer/index.ts:503-563 | a failure-free refresh of consistent feeds settles at least five hundred stale items, or all |
| FeedConvergence.PendingDrains | core_plugins/rss_feed_indexer/index.ts:480-582 | n failure-free refreshes settle five hundred stale items each until none is left |
| FeedConvergence.SettlesIff | core_plugins/rss_feed_indexer/index.ts:480-582 | from an empty catalog enough failure-free refreshes leave the next one nothing to change exactly when the feeds show no id in two forms |
| FeedConvergence.EmptyHasRoom | core_plugins/rss_feed_indexer/index.ts:49-53 | a hundred sources of a hundred items never exceed the ten thousand entries kept |
| FeedConvergence.IdleRefresh | core_plugins/rss_feed_indexer/index.ts:416-436 | with nothing stale a refresh leaves catalog and index as they are |

## Left out

- TradingRuns.AtMostFiveLiveOrders: assumes snapshots whose two order lists are those of the stored runtime, as the adapter's `getRuntimeSnapshot` builds them; so does TradingRuns.LivePolicyPlacesOnce.
- TradingRuns.AtMostFivePerApproval: assumes ticks that begin at least a minute apart, which is the interval of the cron, and says nothing of an approval whose generated id was already in use.
- Storage.TradingAdapter.GetRuntimeSnapshot: answers with an arbitrary snapshot; what the shown adapter fills in from the runtime is StorageSpec.ShownSnapshot, and only TradingCalls.ShownAdapterLatchesIff is about it.
- PolicyLayout.LayoutDoesNotMatter: the line number in the text of a parse error is not modelled, and does depend on layout.
- FeedIndex.Indexer.RefreshLocalFeeds: the list of sources and what each fetch yields are inputs; discovering them, and its failures, are not modelled.
- PolicyRoundTrip.PolicyRoundTripIff: is about policies whose numbers ECMAScript prints as plain decimals; exponent notation is not part of the parser's number pattern.
- Unreadable or half-written store files: `readJson` falls back to its default, so a corrupted kill-switch file would read as unlatched; reads of files that exist are taken to succeed and a write either happens or does not.
- The first writes of `initialize`, and `writePolicyState` as two files: a run starts from an initialised store and the policy state is one value.
- Interleaving at every `await`: tool actions and ticks are serial steps, acquire and release of the lock are atomic; only whole ticks interleave, in TimedLock.
- Floating-point rounding, NaN and Infinity: numbers are exact reals, times are integer milliseconds, and one operation reads the clock once per decision.
- JsStrings.SafeIdMeaning: is about ids of the basic plane, where characters are the units the original replaces one by one.
- Strings count Unicode characters where the original counts 16-bit units: slices at 60, 120 and 500 units may differ on characters outside the basic plane; Utf8 itself works on 16-bit units.
- Texts of reasons, journal entries and notifications, and the order of validation errors: reasons are values, errors are a set.
- Policy warnings, `loaded_at` and paths in the loaded policy: they drive nothing.
- Policy keys that name members of every JavaScript object, such as `constructor`: the alias table would return a non-string for them.
- HTTP, WebSocket and request signing: the adapter answers with an arbitrary snapshot or throws.
- `get_status`, `get_policy`, `new_policy` and the read-only tools: refreshes followed by reads.
- `validateOrderIntent` and `feeEdgeCheck`: chains of independent field checks.
- `riskGate` and `sizePosition` on raw records: field lookup with fallbacks is done before the model's inputs, and metrics and suggested actions are not modelled.
- Discovering feeds, parsing XML and hashing content: a refresh starts from its list of sources, and the content hash and the embedding are arbitrary functions.
- The two `indexedAt` stamps of a changed item: the original reads the clock twice, the model once; matching of rows and entries does not mention them.
- `rss_query` and `mergeSemanticRowsWithCatalog`: read-only searches.
- TextEncoder, TextDecoder, `atob` and `btoa`: base64url is modelled between bytes and text.
- The shift of the length field by powers of two in floating point: lengths are unbounded integers, so messages longer than the format allows are hashed with their length modulo the field.
- Provider plugins, the desktop application and the website: thin wrappers.
