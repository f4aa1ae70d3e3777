# PolyNTU in Dafny

PolyNTU is a funded prediction-market exchange. Prices come from a logarithmic market scoring
rule (LMSR); every market has its own reserve, funded from the platform's treasury; trades,
settlement and purges are database transactions; a cache, event streams, a bracket scheduler and
a bus watcher run beside them. This project models that core and proves what it is for.

## How it is built

* `RealMath`, `Amm`, `Lmsr`, `Engine`: the pricing engine over exact reals, and with computed costs
  that are off by small errors. `exp` and `ln` are a pair of functions that obey the addition law,
  the tangent bound `exp(x) >= 1 + x` and that `ln` inverts `exp`; everything else is derived. The
  engine's incremental formula is proved against an independent definition of the cost function C.
  `Engine` states the contract the exchange relies on, so that the exchange is modelled over any
  engine that meets it, and the LMSR engine does, within an error budget.
* `Fee`, `Books`, `Rules`, `Text`, `MapSum`: fees, the double-entry ledger with its constraints,
  resolution rules, text lengths, and sums over maps.
* `Exchange`: the rows and every transaction as a function from a state to a new state or an error.
  `Invariant` says what holds of every committed state; `Preservation`, `Settlement`,
  `Transactions` prove that each transaction keeps it; `Effects` tells from outside when single
  transactions commit and what they do, without the functions that define them.
* `Runs`, `Evolution`, `Audit`, `Theorems`: all interleavings of transactions at a clock that never
  goes back, and the main results about every reachable state. `Distribution` follows a market's
  money through such runs, and `Verdicts` its outcome, from what was observed or stated to what is
  paid; `Confluence` and `Submissions` treat settlement under any batching and evidence under any
  arrival order; `Witnesses` has concrete runs on which a property fails.
* `Database`, `Worker`, `Progress`: the store as a class whose methods change its rows in place
  through transactions that commit or are abandoned, the worker's passes over it, each method proved
  against the transaction functions, and what a pass gets done.
* `Caching`, `Bus`, `Streams`, `Schedule`, `Scheduler`, `Locks`, `PriceHistory`, `FaithfulHistory`,
  `ChartedRows`, `Watching`, `Coverage`: the concurrent pieces and the replay components, as classes
  or loops with the step relations they run in.

The central argument joins the engine and the exchange. The run-time coverage check of a trade
counts the fee pot as cover, while settlement takes the fees out before it releases the rest. The
invariant therefore carries the stronger fact that the cash net of fees is at least C(q), and one
micro more less the errors made so far; the LMSR bound keeps it through every trade, and
settlement's release can then never be negative.

Assumptions: the database clock does not go back; a settlement transaction selects what its query
returns; brackets of a series are created only by scheduler passes; a resolver is asked only about
instances of resolver series that the worker selected.

## Where the code differs from its comments, or falls short of them

* `backend/src/api.rs:511-514` and `backend/src/events.rs:5-7` say that a lost notification delays an
  event but never drops it. `Streams.SilentLossSkipsForGood` is a run in which one lost notification
  followed by a delivered one skips a row for good, and `Streams.WholeRecordIff` says of every run
  exactly when it does not.
* `record_resolver_evidence` (`backend/src/resolution.rs:111-172`) does not check the observation
  window. `Transactions.ResolverKeepsInv` says exactly when its evidence is in order, and
  `Witnesses.EarlyAnswerIsAccepted` shows it taking an answer too early. Evidence still comes after
  the window because the worker selects only instances past it (`Worker.SelectionIsExact`,
  `Worker.Tick`).
* The price history reads at most 5000 trades (`backend/src/store.rs:848`).
  `FaithfulHistory.TruncatedHistory` says exactly when the chart is still that of the whole history,
  and `Witnesses.LongHistoryIsCut` is a run of 5001 purchases after which it is not.
* The bus watcher promises a no only when it watched the whole window (`provider/ntubus/service.py:12-18`),
  but the stretch after its last poll is not checked. `Coverage.UnwatchedNo` is a run in which the
  service, healthy, answers no about a window it hardly watched;
  `Coverage.DefiniteIsWatchedThroughIff` says exactly when an answer keeps the promise.
* The watcher answers before the window has ended (`provider/ntubus/service.py:182-183` checks only its
  start), so a no can be taken back. `Coverage.NoCanStillFlipIff` says exactly when;
  `Coverage.YesNeverBecomesNo` says that a yes never is.
* The purge (`backend/src/store.rs:1394-1430`) deletes instances in the order its query happens to list
  them. `Locks.PurgesCanCircle` shows two purges waiting for each other; `Locks.NoCircularWait` says
  that nothing else can.
* The active-window check divides toward zero and the titles toward minus infinity;
  `Schedule.MinutesAgree` says when they name the same minute (always, from 1970 on).

## Model

| member | source | states |
|---|---|---|
| `Amm.Target` | backend/src/amm.rs:100-112 | a trade is accepted exactly when both inventories are within the supported shape, range and spread, the outcome exists and the quantity is 1 to 100000; it leads to the moved inventory, and a refusal is an input or stored-inventory error |
| `Amm.Validate` | backend/src/amm.rs:34-54 | accepts exactly the supported inventories, and reports a stored inventory out of range as an internal error |
| `Amm.ProbabilitiesArePrices` | backend/src/amm.rs:57-71 | normalising weights shifted by the maximum gives the prices of the unshifted definition, for every inventory |
| `Amm.PricesNormalized` | backend/src/amm.rs:114-116 | all prices are strictly between 0 and 1 and sum to 1 |
| `Amm.IncrementalCost` | backend/src/amm.rs:117-123 | the incremental `b ln(1 + p (growth - 1))` is exactly C(next) - C(inventory), C being the independent log-sum-exp definition |
| `Amm.ScaledPricesAreRecomputed` | backend/src/amm.rs:132-143 | scaling the old prices by growth and argument gives exactly the prices recomputed from the new inventory |
| `Lmsr.CalculateIsReference` | backend/src/amm.rs:93-150 | the whole calculation succeeds exactly for acceptable trades, no numerical branch ever refuses, and returns the rounded difference of C, the moved inventory and both price vectors |
| `Lmsr.RoundedAgainstTrader` | backend/src/amm.rs:124-128 | the signed rounded amount is never below the true cost and less than one micro above it |
| `Lmsr.CostAboveMax` | backend/src/amm.rs:80-91 | C(q) is at least 1000 times the largest inventory |
| `Lmsr.FundingCoversOpening` | backend/src/amm.rs:80-91 | funding is granted exactly for 2 to 8 outcomes and liquidity 10 to 100000, and lies between C(0) + 1 and C(0) + 2 |
| `Lmsr.CostBracket` | backend/src/amm.rs:117-123 | the true cost lies between the old price and the new price of the outcome times the quantity, for purchases and sales |
| `Lmsr.PurchaseMovesPrices` | backend/src/amm.rs:132-143 | a purchase strictly raises the traded price and strictly lowers every other one |
| `Lmsr.AmountInRange` | backend/src/amm.rs:124-131 | the amount of a purchase is in [1, 1000 quantity], of a sale in [0, 1000 quantity] |
| `Lmsr.TradeBounds` | backend/src/amm.rs:93-150 | for every accepted trade: amount range, normalised prices before and after, and the right strict direction of every price |
| `Lmsr.RunCost` | backend/src/amm.rs:117-131 | over any run of fills with numerical errors, what the market took in is at least the growth of C up to the total error and at most one micro a fill above it |
| `Lmsr.Solvent` | backend/src/amm.rs:80-131 | from zero inventory, after any run of buys and sells, funding plus net takings is at least C(q), hence 1000 max(q), even when the computed funding and costs carry errors of up to one micro in total |
| `Lmsr.NoFreeCycle` | backend/src/amm.rs:117-131 | no run that returns the inventory to its start takes money out of the market |
| `Lmsr.SplittingDoesNotPay` | backend/src/amm.rs:117-131 | buying in k pieces costs at least the single purchase and at most k - 1 micros more |
| `PricingEngine.LmsrIsSound` | backend/src/amm.rs:80-150 | the LMSR engine meets the contract the exchange is modelled over, with exact arithmetic and with numerical errors of its funding and of every computed cost that total at most one micro for a market: trades are accepted only in range, amounts are no less than the growth of what cash must cover, funding no less than its start, and what is covered is no less than the largest payout |
| `PricingEngine.UniformErrors` | backend/src/amm.rs:83-91 | errors of one size on the first n computed trades add up to n times that size, so any size up to 1/n micros is within the budget the extra microcredit leaves |
| `Lmsr.ExactFillIsCalculated` | backend/src/amm.rs:117-131 | a fill without error is charged exactly what the calculation returns |
| `Amm.SamePricesIff` | backend/src/amm.rs:57-78 | two inventories have the same prices exactly when they differ by the same quantity in every outcome |
| `Fee.TradeFee` | backend/src/fee.rs:12-20 | the fee is the least whole number not below 25 basis points of the amount, and for a nonnegative amount between 0 and the amount |
| `Fee.CreatorShare` | backend/src/fee.rs:25-27 | the creator's share is at most the treasury's, within one micro of it, and zero without a creator |
| `Fee.ChargedSplits` | backend/src/fee.rs:32-46 | for every engine amount charging succeeds, is nonnegative, and moves the signed amount plus the fee into the reserve |
| `Books.PostKeepsBalanced` | backend/src/store.rs:150-163 | an admitted transfer keeps balances summing to zero, each equal to its signed ledger sum, and only issuance negative |
| `Books.BoundedByIssuance` | backend/src/store.rs:150-163 | no balance exceeds what was issued |
| `Preservation.TradeMoney` | backend/src/execution.rs:337-349 | after any sound deal, the cash net of the fee pot still covers C of the new inventory, so the reserve covers the largest payout without counting fees |
| `Preservation.TradeCommits` | backend/src/execution.rs:256-336 | under a new key a trade commits if and only if its market is known, open, not suspended and before its close, the trader not its creator, the quote before its expiry and at the current version, the engine returns the claimed amount and the claimed fee is the one on it, amount plus fee is at most the limit for a purchase and amount less fee at least the limit for a sale, and the trader has the units or the shares; the coverage check never refuses |
| `Theorems.RequestCommitsIff` | backend/src/execution.rs:149-336 | in every reachable state a whole request commits if and only if its key, user, engine and limit are in form and it either repeats what its key committed or meets the conditions of a new trade |
| `Effects.QuoteEffects` | backend/src/execution.rs:74-146 | a quote is issued if and only if the market is open to the trader, the engine prices the trade and the shares to sell are held; it states the engine's amount, the fee, the row's version, and an expiry fifteen seconds later or at the close, whichever is first |
| `Effects.TradeEffects` | backend/src/execution.rs:256-400 | everything a committed trade does: it is within the limit, the quote and the close; one all-in amount moves between trader and reserve; the shares, inventory, version, trade, event and idempotent reply change as they should and nothing else changes |
| `Preservation.ExecuteKeepsInv` | backend/src/execution.rs:223-404 | a committed trade or replay keeps the whole invariant |
| `Effects.AmountsRoundTrip` | backend/src/execution.rs:45-54 | amounts of up to 16 digits survive rendering and parsing; parsing refuses exactly malformed text and never overflows |
| `Theorems.CoverageNeverRefuses` | backend/src/execution.rs:343-349 | in every reachable state no trade request is refused for reserve coverage |
| `Theorems.TradesExactlyOnce` | backend/src/execution.rs:156-189 | after a trade committed under a key, in whatever later state, every retry returns the first response and changes nothing, and every other body is refused |
| `Audit.ApplyKeepsAudit` | backend/src/execution.rs:231-255 | over every transaction: idempotency rows and ledger trades correspond one to one, every row has its response and every trade its row; nothing is issued; no market costs the platform more than its funding |
| `Audit.CommitKeepsAudit` | backend/src/execution.rs:374-400 | a trade commit adds one key and one trade transfer with a new reference together |
| `Invariant.CreditsWithinPayout` | backend/src/resolution.rs:413-427 | for every winner and for a void, all credits together are at most 1000 times the largest inventory; for a void each credit is the floor of the equal share |
| `Settlement.ReleaseNonnegative` | backend/src/resolution.rs:449-469 | when a market is settled, the reserve covers the fee pot, so the release is never negative |
| `Settlement.BatchSucceeds` | backend/src/resolution.rs:410-445 | every batch of distinct unclaimed holders is paid: each claim finds enough reserve, exactly the batch gains claims, and the invariant holds |
| `Settlement.DrainSucceeds` | backend/src/resolution.rs:449-493 | the release and the fee split always succeed, leave the reserve at exactly zero, the creator with its share of the fee pot and the treasury with the rest |
| `Settlement.SettleSucceeds` | backend/src/resolution.rs:346-508 | a settlement transaction of any valid batch commits, keeps the invariant, pays the batch, and closes the market exactly when nobody is left |
| `Theorems.SettlementNeverAborts` | backend/src/resolution.rs:346-508 | in every reachable state a settlement of any valid batch commits with the stated effect |
| `Theorems.TerminalReserveIsEmpty` | backend/src/store.rs:1394-1403 | a terminal market has an empty reserve, so the balance guard of the purge never blocks |
| `Theorems.PlatformLossWithinFunding` | backend/src/resolution.rs:449-492 | over every run the platform loses on a market at most the funding it put in |
| `Confluence.SettlementIsConfluent` | backend/src/resolution.rs:346-508 | any two ways of settling a market to the end, with any batches, rollbacks and times and nothing else in between, give the same market and the same balances |
| `Confluence.TerminalIsDetermined` | backend/src/resolution.rs:346-508 | the terminal market and all balances in closed form, for settlements of one market with nothing else in between |
| `Distribution.ReserveIsConserved` | backend/src/resolution.rs:449-456 | at every point of every run, with everything else interleaved, the reserve of an unsettled market is exactly its funding plus what its traders paid in, less the claims paid so far |
| `Distribution.TerminalDistribution` | backend/src/resolution.rs:396-493 | in every reachable state, however settlement was batched and interleaved with everything else, the ledger rows that settled a terminal market are one claim for each holder of shares and no other: with a winner of 1000 micros a winning share, in a void market of the equal part rounded down; and the release and fee rows that funding, trades, claims and creator determine |
| `Theorems.TerminalClaimsAreCredits` | backend/src/resolution.rs:396-448 | in every reachable state, whatever was interleaved, a terminal market has one claim for each holder of shares and none for anybody else; with winner w each is 1000 times the position in w and they sum to 1000 times the inventory of w; in a void market of n outcomes each is the largest c with n c at most 1000 times all shares of the holder |
| `Invariant.CreditIsExact` | backend/src/resolution.rs:411-427 | a credit is 1000 micros for each winning share, or for a void the largest whole amount within the equal part of the shares summed over all outcomes |
| `Invariant.WinningCredits` | backend/src/resolution.rs:411-427 | all credits for a winner together are 1000 times its inventory |
| `Confluence.SettlementProgresses` | backend/src/resolution.rs:401-448 | each committed transaction uses up exactly one of the remaining rounds |
| `Confluence.SettlementTerminates` | backend/src/resolution.rs:346-508 | a market being settled is terminal exactly when as many transactions have committed as its number of holders requires |
| `Confluence.FinalizeDecides` | backend/src/resolution.rs:355-392 | the result a market is finalized with does not depend on when that happens |
| `Runs.RunKeepsInv` | backend/src/resolution.rs:346-508 | the invariant holds after every legal run of grants, creations, trades, closings, suspensions, evidence, settlements and purges |
| `Theorems.EveryReachableStateReconciles` | backend/src/store.rs:1439-1458 | every reachable state passes reconciliation: zero total, balances equal to ledger sums and within 64 bits, inventory equal to positions, every reserve covering what it may still have to pay |
| `Theorems.MarketOwesWithinReserve` | backend/queries/reconcile_reserves.sql:1-23 | the reserve is never below the credits still unclaimed, or, before a result, the largest payout |
| `Theorems.LifecycleOverRuns` | backend/migrations/0009_market_series.sql:60-82 | between any two points of any run: states only move forward, versions grow and name one row, terms, frozen inventory, result, evidence and claims stay, a terminal market never changes, and a purged one never returns |
| `Theorems.TimesInOrder` | backend/src/resolution.rs:48-58 | every trade precedes the close, which precedes the end of the observation, which precedes all evidence; nothing is finalized or claimed before the finalization time |
| `Theorems.LmsrExchangeIsSafe` | backend/src/store.rs:1439-1458 | with the LMSR engine, exact or with errors of at most one micro in total for each market, every reachable state reconciles with reserves covering what they owe, keys and trades correspond, no coverage refusal is possible and every settlement commits |
| `Theorems.ReachableIsSound` | backend/src/store.rs:302-310 | the initial issuance establishes the invariant and the audit, and every run keeps both |
| `Transactions.ObserveKeepsInv` | backend/src/resolution.rs:178-289 | recording an observation keeps the invariant, in particular that evidence is received after the window |
| `Transactions.CreatorKeepsInv` | backend/src/resolution.rs:17-103 | recording a creator's resolution keeps the invariant |
| `Transactions.ResolverKeepsInv` | backend/src/resolution.rs:111-172 | recording a resolver's answer keeps the invariant exactly when the answer is a repeated one or the observation window has ended; the recorder itself does not check the window |
| `Witnesses.EarlyAnswerIsAccepted` | backend/src/resolution.rs:111-172 | in a reachable state with a market opened a second before, the recorder takes an answer for it, and the evidence then precedes the end of its window |
| `Transactions.CloseKeepsInv` | backend/src/resolution.rs:326-344 | closing any set of due instances keeps the invariant |
| `Transactions.PurgeKeepsInv` | backend/src/store.rs:1404-1431 | deleting expired brackets keeps the invariant: the books still balance and their references stay used |
| `Effects.CreationEffects` | backend/src/store.rs:942-1023 | a creation commits if and only if its rule is valid, its liquidity can be funded within the budget, its texts have the published lengths, a simulated market is a demo with the simulator as source, its times are ahead, in order and within a year, its template has the category of the rule, no market of the template closes at the same time, the creator is known and the id new; it moves the funding to a new reserve and opens an untraded market |
| `Effects.GrantEffects` | backend/src/store.rs:481-522 | a grant commits if and only if the account is new, its trimmed name has 2 to 60 bytes and no control characters, and the budget suffices; it moves just its amount |
| `Effects.SuspensionEffects` | backend/src/resolution.rs:291-324 | a suspension or its end commits if and only if the market is open and the reason has 5 to 1000 bytes; it sets the flag and announces a new version, and nothing else changes |
| `Effects.ClosingEffects` | backend/src/resolution.rs:326-344 | exactly the listed markets that are open past their close are closed and announced, and nothing else changes |
| `Effects.PurgeEffects` | backend/src/store.rs:1394-1431 | exactly the listed settled brackets a day past their deadline are deleted, and nothing else changes |
| `Submissions.EvidenceIsOrderIndependent` | backend/src/resolution.rs:178-289 | the same eligible submissions with distinct events and revisions, in any order and with any duplicates, leave the same selected record, row and final result |
| `Submissions.HighestRevisionDecides` | backend/src/resolution.rs:355-379 | the selected record is the highest revision that arrived, and its result is the final one |
| `Submissions.ArrivalIsRecorded` | backend/src/resolution.rs:202-289 | an eligible submission is recorded when new and changes nothing when repeated |
| `Submissions.SharedRevisionIsFirstComeFirstServed` | backend/src/resolution.rs:256-267 | two submissions sharing a revision: only the first to arrive is kept, so the order matters without distinct revisions |
| `Submissions.NothingChangesAfterFinalization` | backend/src/resolution.rs:213-219 | once the result is set, none of the three ways of recording evidence changes the market |
| `Rules.EvaluateMeans` | backend/src/market.rs:170-269 | over all rules and observations: evidence is refused if and only if its kind, its ids, its values, its number of arrivals, its being fictional or its named winner or answer do not fit; otherwise it gives none while incomplete, void without a sole winner, and else the side it decides for: yes if and only if the reading reaches the threshold or an arrival lies inside [start, end), or the index of the named candidate or answer |
| `Rules.EveryOutcomeCanWin` | backend/src/market.rs:170-269 | under a valid rule every outcome can win: for each there is an observation that fits, is complete and evaluates to it |
| `Rules.DecidesForOne` | backend/src/market.rs:170-269 | no observation decides for two outcomes |
| `Verdicts.VerdictsFollowEvidence` | backend/src/resolution.rs:178-392 | over every run each evidence row of a market holds the result its observation or statement means, revisions differ, an authority's market has at most one row, and the market's result is that of its highest revision, or void once the deadline passed without one |
| `Verdicts.FinalizedExactly` | backend/src/resolution.rs:355-392 | a closed market is finalized if and only if its finalization time has come and its highest revision has a result or the deadline has passed; with that result, and without one as void |
| `Effects.ObservationEffects` | backend/src/resolution.rs:178-289 | a new observation is recorded if and only if texts, revision and payload are within bounds, the market is not final and has no other authority, the window has ended and the deadline not passed (or a demo is replayed), source and window are the published ones, the rule fits and the revision is new; the row gained holds the result it means |
| `Effects.RepeatedObservation` | backend/src/resolution.rs:202-212 | a known event changes nothing when repeated and is refused with other content |
| `Effects.CreatorResolutionEffects` | backend/src/resolution.rs:17-103 | a creator's resolution commits if and only if nonce, authority, submitter, phase, window, deadline, first statement, signature and outcome are in order; the row gained says that the signed outcome won |
| `Effects.ResolverAnswerEffects` | backend/src/resolution.rs:111-172 | a resolver's answer commits if and only if the market is not final, the deadline not passed (or a demo is replayed) and the outcome known or an answer recorded before; a first answer gains a row saying that its outcome won, a later one nothing |
| `Verdicts.CreatorResolutionDecides` | backend/src/resolution.rs:17-103 | in every run on from a recorded resolution, the market has that one evidence row, can have no other result than the signed outcome, is finalized with it from the finalization time on, and pays 1000 micros for each share of it |
| `Verdicts.ResolverAnswerDecides` | backend/src/resolution.rs:111-172 | the same for a resolver's first answer, whatever answers follow |
| `Verdicts.ObservationDecides` | backend/src/resolution.rs:236-289 | a reachable market with one observation is finalized with, and pays, the side the observation decides for, or void without a sole winner; with an incomplete one it is voided, and not before the deadline |
| `Database.Transaction.Send` | backend/src/store.rs:150-163 | one ledger row and two balance updates, or a refusal that changes nothing |
| `Database.Transaction.FinalizeTrade` | backend/src/execution.rs:200-221 | the one statement that writes inventory and version, position, trade row, reply and event |
| `Database.Transaction.Book` | backend/src/execution.rs:301-400 | the checks under the account locks and all writes of a trade, equal to the commit function |
| `Database.Transaction.Pay` | backend/src/resolution.rs:410-445 | one claim: a transfer and a claim row of 1000 micros for each winning share or of the equal part in a void market, or an abort |
| `Database.Transaction.PayAll` | backend/src/resolution.rs:410-445 | the loop over the selected accounts pays exactly the batch, or aborts |
| `Database.Transaction.Close` | backend/src/resolution.rs:449-504 | the closing transfers and the terminal row |
| `Database.CreditOf` | backend/src/resolution.rs:411-427 | summing over the position rows gives 1000 times the holding in the winner, and in a void market the largest whole amount within the equal part of all shares |
| `Database.Claimants` | backend/src/resolution.rs:401-402 | selects distinct unclaimed holders, a hundred or all |
| `Database.Store.constructor` | backend/src/store.rs:302-310 | a new database has the two system accounts, with the two issuance transfers and nothing else, and satisfies the invariant |
| `Database.Store.ExecuteOnce` | backend/src/execution.rs:223-404 | one attempt at a trade on the store commits the state and response of the transaction function or aborts with its error and no change; under a new key it commits if and only if the market is known, the quote stands, its total is within the limit and the trader can pay or deliver |
| `Database.Store.Requote` | backend/src/execution.rs:268-308 | the rechecks under the instance lock pass if and only if the market is open to the trader, the quote before its expiry and current, a fresh calculation returns its amount, its fee is the one on it, and the total is at most a purchase's limit or at least a sale's; the total is amount and fee combined |
| `Database.Store.Execute` | backend/src/execution.rs:149-189 | up to three attempts, with any transactions of others before each: the result is that of the first attempt without a transient failure in the state the others left, and a refusal or three failures change nothing else |
| `Database.Store.Absorb` | backend/src/execution.rs:156-189 | any legal run of other transactions on the store leads where the run leads and keeps the invariant |
| `Database.Store.SettleBatch` | backend/src/resolution.rs:346-508 | finalization, payment loop and closing on the store equal one settlement transaction of a valid batch and never abort; the accounts of the batch gain claims, and every claim is 1000 micros a winning share or the equal part of a void |
| `Database.Store.CloseDue` | backend/src/resolution.rs:326-344 | closes due, unlocked instances, at most a hundred, and all of them when fewer |
| `Database.Store.Suspend` | backend/src/resolution.rs:291-324 | sets or lifts the suspension of an open instance for a reason of valid length, and refuses every other call |
| `Database.Store.RecordEvidence` | backend/src/resolution.rs:178-289 | records an observation with the result it means under the published rule and window, repeats a duplicate, or refuses, exactly as the transaction function says, bounds on texts and payload included |
| `Database.Store.RecordCreatorResolution` | backend/src/resolution.rs:17-103 | records that the signed outcome won and selects that row, or refuses, exactly as the transaction function says, for an unfit nonce or signature too |
| `Database.Store.RecordResolverEvidence` | backend/src/resolution.rs:111-172 | records that the answered outcome won, repeats, or refuses, exactly as the transaction function says, and keeps the invariant exactly when nothing changed or the window has ended |
| `Database.Store.CreateInstance` | backend/src/store.rs:942-1023 | creates and funds an instance or refuses, exactly as the transaction function says |
| `Database.Store.Welcome` | backend/src/store.rs:481-522 | opens and funds an account or refuses, exactly as the transaction function says |
| `Database.Store.PurgeExpiredBrackets` | backend/src/store.rs:1381-1437 | deletes settled expired brackets, at most twenty and all of them when fewer, and leaves books and keys alone |
| `Worker.SimulatedDecides` | backend/src/market.rs:271-321 | a simulated observation always fits its rule, is complete and decides for the side its sample picks, counts and elections included |
| `Worker.SimulatedIsRecorded` | backend/src/worker.rs:256-283 | the observation the worker makes of a closed demo market without evidence is always accepted, and its row decides for the side its sample picks |
| `Worker.SelectionIsExact` | backend/src/worker.rs:103-109 | a selected instance is past its window; one being settled is always selected, an open or terminal one never, and a closed one exactly when it can be finalized now or has no evidence and a source to ask |
| `Worker.Select` | backend/src/worker.rs:103-110 | selects due instances, at most a hundred and all of them when fewer |
| `Worker.ProcessInstance` | backend/src/worker.rs:239-327 | the run of a turn exactly: the simulated observation or the answer of the resolver when one is due, then one settlement batch if the market is final by then, with any transactions of others before each; the count is the claims paid |
| `Worker.Tick` | backend/src/worker.rs:94-149 | the run of a pass exactly: closing up to a hundred due instances, the turns of up to a hundred selected ones, purging up to twenty expired ones, all of them when fewer, with any transactions of others before each step; it is one legal run and keeps the invariant, and the count is the claims paid |
| `Progress.PassSettles` | backend/src/worker.rs:94-136 | whatever the others do meanwhile, an instance selected while being settled, or closed past its deadline, comes out of the pass being settled or terminal, and terminal if at most a hundred holders were left, unless it is purged |
| `Caching.Cache.Lookup` | backend/src/cache.rs:52-57 | hits exactly for entries younger than two seconds |
| `Caching.Cache.PutInstance` | backend/src/cache.rs:59-67 | inserts the row, after clearing a full map |
| `Caching.Cache.ApplyTrade` | backend/src/cache.rs:72-85 | the next version is applied, a gap drops the entry, an older version is ignored |
| `Caching.Cache.Handle` | backend/src/events.rs:75-88 | a trade notification is applied, any other drops the entry |
| `Caching.CacheAgreesWithDatabase` | backend/src/cache.rs:52-89 | under any interleaving of transactions, stale fills, write-through, and duplicated, reordered or lost notifications, every cached entry is the row as committed at its version |
| `Caching.SameVersionSameRow` | backend/src/cache.rs:69-85 | over a whole run a version of a market names one committed row |
| `Caching.GenuineQuoteNeverChanges` | backend/src/execution.rs:278-300 | a quote issued from any committed row is never refused as changed, and while its version is current it executes for the quoted total |
| `Caching.FreshQuoteCommits` | backend/src/execution.rs:130-141 | a quote issued from any committed row and executed within fifteen seconds, before the close, at the current version and at its own total commits if and only if the trader has the units or the shares |
| `Caching.HeardTradeStaysCurrent` | backend/src/events.rs:75-88 | a current entry that hears of the next trade is current again, and no other entry changes |
| `Caching.CachedQuoteNeverChanges` | backend/src/execution.rs:74-146 | the same for a quote issued from the cache, executed any time later |
| `Bus.EventBus.Subscribe` | backend/src/events.rs:54-60 | a new receiver joins the channel of its instance, which is made when missing |
| `Bus.EventBus.Send` | backend/src/events.rs:62-73 | every open receiver of the instance gets the event once; no other is touched |
| `Bus.EventBus.Drop` | backend/src/events.rs:68-72 | dropping an unheard channel closes the receivers that joined it meanwhile, so none is left listening to nothing |
| `Bus.PublishedExactly` | backend/src/events.rs:54-73 | what an open receiver has got is exactly the publications of its instance since it subscribed, in order |
| `Streams.Stream.CatchUp` | backend/src/api.rs:538-556 | one catch-up page sends the rows above the cursor in order, and ends catching up when it is not full |
| `Streams.Stream.Receive` | backend/src/api.rs:557-569 | a received row is sent when above the cursor; a lag notice restarts catching up |
| `Streams.EmittedIdsIncrease` | backend/src/api.rs:532-572 | in every run, with any losses, the emitted ids strictly increase, lie above the starting cursor and are real rows |
| `Streams.StreamSkipsNothing` | backend/src/api.rs:532-572 | when every gap is noticed, the stream sends exactly the rows above its starting cursor up to its cursor, and all of them once its queue is read |
| `Streams.CatchUpFinishes` | backend/src/api.rs:538-556 | however long the backlog, all of it has been sent after one page for every full hundred rows and one more, and the stream waits for broadcasts then and not a page earlier |
| `Streams.BroadcastCompleteIff` | backend/src/api.rs:562-565 | a broadcast row keeps the record complete exactly when no committed row lies between the cursor and it |
| `Streams.WholeRecordIff` | backend/src/api.rs:532-572 | over any run, with any losses, duplicates and reorderings, the record is exactly what was committed between the starting cursor and the present one if and only if no broadcast row was ever taken past an older committed row not yet sent |
| `Streams.PassedRowsNeverComeBack` | backend/src/api.rs:562-565 | a row the cursor has passed unsent is never sent |
| `Streams.SilentLossSkipsForGood` | backend/src/api.rs:511-514 | a possible run in which one silently lost notification makes the stream skip a row, and no continuation ever sends it, against what the comment there promises |
| `Schedule.MinutesAgree` | backend/src/market.rs:651-654 | the truncating window minute and the Euclidean title minute agree for every instant from the epoch on, and before it exactly in the stated cases |
| `Schedule.DaysAdvance` | backend/src/market.rs:521-524 | ISO days advance by one a day and the epoch was a Thursday |
| `Schedule.DayAndMinute` | backend/src/market.rs:514-524 | day and minute locate an instant in the Singapore calendar |
| `Schedule.BracketTitle` | backend/src/market.rs:530-542 | stepping back to a character boundary keeps exactly the most characters of the base that leave room in 240 bytes, before the suffix with the times |
| `Schedule.BracketNameIsValid` | backend/src/market.rs:361-380 | every bracket's title is within the limits on titles, whatever the series' title |
| `Schedule.PassCoversHorizon` | backend/src/store.rs:1296-1300 | the indexes of a pass are exactly the grid points of (now, now + concurrency interval] |
| `Schedule.EligibleIsScheduled` | backend/src/store.rs:1305-1312 | wherever the two divisions agree, and so from 1970 on, a pass takes up an instant if and only if it is before the end of the series, on one of its days counted from Thursday 1 January 1970 in UTC+8, and within its hours of that day |
| `Schedule.BracketsAreScheduled` | backend/src/store.rs:1290-1332 | in every reachable state each instance of a series closes at a grid point that is so scheduled, is observed for one interval from there on, may be final a second later and has its deadline a minute after, under the rule, authority and liquidity of the series |
| `Schedule.SpecValidIffAhead` | backend/src/market.rs:361-403 | a bracket spec of a published series passes the validation of rule, funding, texts and mode always, and of times exactly while its slot is ahead of the clock |
| `Schedule.RunKeepsSeries` | backend/src/store.rs:949-978 | over every run no slot has two instances, the series stays within its horizon, and all instances of a template have its category |
| `Schedule.AtMostConcurrencyUnclosed` | backend/src/store.rs:1290-1332 | at most the maximum concurrency of brackets are unclosed at any time, with disjoint observation windows |
| `Scheduler.BracketIsCreated` | backend/src/store.rs:942-1023 | while its slot is ahead of the clock, a bracket of a published series fails to be created only because the slot is taken, the creator or id unfit, or the budget spent |
| `Scheduler.GenesisIsHealthy` | backend/src/store.rs:302-310 | the initial state meets what a pass relies on: the invariant, unique slots, the horizon of the series and its category |
| `Scheduler.SpawnSeriesBrackets` | backend/src/store.rs:1290-1332 | after a successful pass, with rivals acting between its steps, every grid point of the horizon that is scheduled in the Singapore calendar has its instance; in every state a pass leaves, each instance of the series is the market of one scheduled grid point, no slot has two, and without rivals the count is the number of new instances |
| `Locks.Plan` | backend/src/execution.rs:233-316 | each transaction but the purge locks exactly its key or template, its instance and its accounts, in ascending order, accounts by id |
| `Locks.NoCircularWait` | backend/src/store.rs:131-139 | in every reachable configuration of trades, settlements, closings, creations, grants, updates and purges, with their foreign-key locks, a circle of waits consists of purges only, at least two |
| `Locks.PurgesCanCircle` | backend/src/store.rs:1394-1430 | two purges whose unordered queries list two instances in different orders do reach such a circle |
| `Locks.ReferencesNeverWait` | backend/src/store.rs:131-139 | a foreign-key lock on an account neither waits for a balance update nor holds one up |
| `Locks.ClosingNeverWaits` | backend/src/resolution.rs:326-330 | the closing pass, which skips locked rows, waits for nobody |
| `Locks.SomeoneProceeds` | backend/src/resolution.rs:405-409 | while at most one purge is under way, in every reachable configuration some transaction has all its locks or finds its next one free |
| `PriceHistory.InstanceHistory` | backend/src/store.rs:845-901 | the replay loop draws an opening point and, for each bucket with a trade, one point with the prices of the inventory at its end and the volume traded in it; it fails only if a boundary cannot be priced |
| `FaithfulHistory.TieBreakIsIrrelevant` | backend/src/store.rs:848-851 | the chart does not depend on how trades with equal time stamps are ordered |
| `FaithfulHistory.VolumesAddUp` | backend/src/store.rs:862-899 | the bucket volumes add up to everything traded |
| `FaithfulHistory.BoundaryShowsRealInventory` | backend/src/store.rs:862-899 | the replayed inventory at a time is the one the market row really had then, over every run |
| `FaithfulHistory.HistoryNeverFails` | backend/src/store.rs:862-899 | every boundary of a reachable market can be priced, so the replay succeeds |
| `FaithfulHistory.TruncatedHistory` | backend/src/store.rs:848-851 | when more trades exist than are read, all points but the last are still exact; and the chart as a whole is exact if and only if every omitted trade falls into the last bucket, moved no money, and together they moved every outcome by the same quantity |
| `Witnesses.LongHistoryIsCut` | backend/src/store.rs:848-851 | in a reachable state with 5001 purchases, whatever chart is drawn of the 5000 trades read, in whatever buckets and whenever the last purchase was made, is not the chart of the history |
| `ChartedRows.ChartShowsCommittedRows` | backend/src/store.rs:845-901 | each point of the chart drawn for a market of a run shows the prices of the row that run had committed when exactly the trades before the point's boundary were made; for the last point when at most 5000 trades exist |
| `Watching.Watcher.Record` | provider/ntubus/service.py:121-133 | one poll stamps the route, and records an arrival exactly at the route's stops that some bus is close to |
| `Watching.Watcher.PollOnce` | provider/ntubus/service.py:116-138 | one round: for each route the stops when they were fetched, then the poll and its arrivals, nothing of a failed call; then a prune |
| `Watching.Watcher.Prune` | provider/ntubus/service.py:140-145 | polls and arrivals are cut at one shared cutoff |
| `Watching.Watcher.Reply` | provider/ntubus/service.py:162-200 | the answer is the specified function of what is remembered |
| `Watching.Watcher.Post` | provider/ntubus/service.py:228-238 | no answer if and only if the last successful call is three polling periods old, else the reply |
| `Watching.DefiniteAnswerIsRecordedTruth` | provider/ntubus/service.py:184-200 | a yes means an arrival inside the window was recorded, a no that none was, however much has been pruned |
| `Watching.RecordedArrivalIsNeverNo` | provider/ntubus/service.py:184-200 | a recorded arrival inside [start, end) is never answered with no, after any later polls and prunes |
| `Watching.AnswersAreStable` | provider/ntubus/service.py:162-200 | asked once the window has ended, a definite answer stays the same or becomes pending |
| `Coverage.ReplyIff` | provider/ntubus/service.py:162-200 | the answer is definite if and only if route and stop are known, the outcomes told apart, the start reached, and the remembered polls include one before the start and one inside and bridge every instant up to the last inside within two and a half periods; and then yes if and only if a remembered arrival lies inside [start, end) |
| `Coverage.DefiniteIsWatchedThroughIff` | provider/ntubus/service.py:184-193 | at any point of any run, a definite answer is backed by a poll at most two and a half periods before each instant of the window if and only if the last poll inside is that near to its end |
| `Coverage.UnwatchedNo` | provider/ntubus/service.py:12-18 | a run from a new watcher in which the healthy service answers no for a quarter of an hour of which it watched one second |
| `Coverage.EarlyNoCanFlip` | provider/ntubus/service.py:182-193 | the next poll turns a no into yes exactly when it sees a bus at the stop before the end of the window and at most two and a half periods after the last poll inside |
| `Coverage.NoCanStillFlipIff` | provider/ntubus/service.py:182-193 | over all continuations, a no can still become yes if and only if some of the window is left and the last poll inside is at most two and a half periods old |
| `Coverage.YesNeverBecomesNo` | provider/ntubus/service.py:184-200 | a yes, early or late, is never answered with no afterwards |
| `Coverage.OpenNo` | provider/ntubus/service.py:182-193 | a run from a new watcher in which the healthy service answers no and, a second later, yes |

## Left out

- Theorems.LmsrExchangeIsSafe: rests on the laws of exp and ln as hypotheses, because Dafny has no real exponential; the real functions obey them.
- PricingEngine.LmsrIsSound: the errors of the decimal library are parameters, one for each computed cost, and not computed from its digits; prices carry no error.
- Locks.NoCircularWait: leaves out locks on child rows, which belong to the instance locked with them, and publishing a series, which locks its creator's account first.
- Streams.StreamSkipsNothing: assumes that every gap is noticed, which a reconnecting listener does not guarantee; see the iff next to it.
- Watching.Watcher.Record: the distance between coordinates is a parameter, `close`; so are the results of the network calls and the moments at which stops are fetched again.
- Confluence.SettlementIsConfluent: compares settlements of one market in isolation, because other transactions move the balances too; `Distribution.TerminalDistribution` gives the rows of one market under any interleaving.
- Database.Store.constructor: the demo mode is a parameter of the transactions it matters to; the clock offset and the seeded demo markets are not modelled.
- Worker.Tick: takes the turns of the selected instances one after the other, others acting in between; the code runs a few turns at a time, and the spawning and seeding inside a tick count as others.
- Scheduler.SpawnSeriesBrackets: says nothing in calendar terms about slots before 1970, where the truncating check may name another minute; `Schedule.MinutesAgree` says which.
- Bus.EventBus.Send: the bounded queue of a receiver is modelled in `Streams`, as notices of lag.
- Account ids, outcome ids and trade ids: accounts are a datatype, outcomes are positions, and a trade's unique reference is its market and version.
- Positions: one vector of quantities per holder instead of one row per outcome.
- Signatures, tokens and hashes: a verified quote is a record, whether a signature verifies is a parameter, a body hash is equality of bodies, and the length of a JSON text is a field of the input.
- Audit rows, series rows apart from the fields a bracket needs, the titles of templates.
- Listing, portfolio and detail views, floating-point display values, the probability views.
- Registration, login, creator verification, demo seeding and demo trading, connection tuning: no hard property.
- HTTP routing, JSON encoding, tracing, process start-up, the web frontend and the archived Python backend.
