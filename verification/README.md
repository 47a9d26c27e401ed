# abr-out: verified model of the money and lifecycle protocols

abr-out is a pay-per-byte marketplace: sellers list outbounds on a 3x-ui panel, buyers hold configs on
them, workers bill traffic, pay out earnings and keep listings and configs in the right state. This
project models the parts of it where the panel, the chain, the database and the process can fail between
any two steps, and proves what survives.

Each protocol is a state machine: a `World` or `System` value, an `Event` for every step of the program
and of its environment, a total `Step` and a `Run` over any sequence of events. Every failure is an event
or an argument of one (a reset that took effect although its call raised, a commit that raised after taking
effect, a crash). Safety is stated over every run; `CycleOutcome` and `PayoutOutcome` say besides what a cycle and a
tick get done. The source's imperative code is modelled beside it as
classes whose methods update their fields in place, with the source's loops and branches; each is proved
to end in exactly the state of the machine's step or run, so all the theorems apply to it.

| module | what it models |
|---|---|
| `Rounding`, `BillingMath`, `MeteredMoney`, `ListingLedger` | two-stage decimal rounding (roundTiesToEven, section 4.3.1 of IEEE 754-2008), error bounds, margin, what a run debits |
| `Metering`, `MeteringSafety`, `SellerSafety`, `ByteConservation`, `InboundConservation`, `MeteringLimits`, `Poller`, `PollCycles`, `CycleOutcome` | read, reset, bill: panel counters against database anchors |
| `Withdrawals`, `PayoutSafety`, `PayoutLedger`, `PayoutSharing`, `PayoutRuns`, `PayoutCap`, `PayoutWorker`, `PayoutOutcome` | crash-safe payouts, ledger, caps, hot wallet |
| `TransferScan` | the adaptive backward log scan |
| `ListingHealth` | the probe log, its cached maxima, the three-pass quality gate |
| `ConfigLifecycle` | balance and quota enforcement, provenance of automatic restarts |
| `Payments` | exactly-once crediting from two gateways |
| `ListingCap` | the listing cap with lock and re-check, and the fate of panel inbounds |

## Assumptions

- Metering: a reset reported as done was done (one reported as failed may have been done as well); panel
  e-mails name clients uniquely. The buyer theorems need sub-cycles of one listing not to overlap, the
  seller theorem needs whole cycles not to overlap: `enforce_balances_once` calls `poll_traffic_once`
  outside the scheduler's single-instance guard, so neither comes for free. `PollCycles` proves that a poll worker
  alone meets both; `MeteringLimits` shows a run that breaks the bound for each dropped assumption.
- Payouts: one worker; a nonce mines at most once and a receipt is final; transaction hashes are collision
  free; creation is atomic, as it runs under a per-user lock; the token's decimals never change.
- The scan: a hash and a log index name one transfer, and the chain does not move while it is read.
- Quality gate and enforcement: each database transaction is one step; balances stand still within it.
- Gateway callbacks carry a valid signature, and the row lock on the intent makes each handler one step.

## Where code and documentation disagree

- A retried listing is promoted on any success since its creation, not only on one after the retry as the
  route's text says (`RetryCountsOldSuccess`).
- A listing whose deadline passes becomes `broken`; the comments in the data model and in the create
  route say it is deleted. A new listing starts `pending`; the create route's summary says active.
- The balance worker's text says only configs it stopped itself carry its stamp. `enable_config` leaves the
  stamp in place, so a buyer's later stop can be undone by a top-up (`BuyerStopUndone`); `MeaningKeptIff`
  gives the exact condition.
- Creating a listing: when the commit saves the row and then raises, the cleanup deletes the inbound of a
  listing that exists (`StrandedIff`).
- The daily cap holds in every window of 24 hours less the time between a row's stamp and its check (`DailyCap`). In
  any longer window some run passes it if and only if the settings let any amount be paid at all (`CapFailsIff`).
- Samples posted without a time can leave a listing's caches ahead of the log, and then a stale listing active
  (`CacheIsExactIff`, `SkewLeavesStaleActive`). A sample dated in the future rules the gate until a newer one arrives
  (`FutureSampleRules`).
- Two withdrawals of one net amount to one address can share a transfer, and both become confirmed on it, when the
  first one's transaction is lost before it reaches the node (`OwnTransfersIff`, `OneTransferConfirmsTwo`).

## Model

| member | source | states |
|---|---|---|
| Rounding.HalfEven | app/worker/jobs/poll_traffic.py:79-85 | within half a unit of the exact value, ties to the even neighbour |
| Rounding.HalfEvenIsUnique | app/worker/jobs/poll_traffic.py:79-85 | those two rules leave exactly one result |
| Rounding.HalfUp | app/api/routes/webhook.py:32-34 | within half a unit, ties away from zero |
| BillingMath.OneChargeError | app/worker/jobs/poll_traffic.py:162-165 | one rounded charge is within half a money unit plus half a gigabyte unit at the rate of its exact worth |
| BillingMath.BillingErrorBound | app/worker/jobs/poll_traffic.py:242-247 | over any n deltas the total debit is within n such tolerances of the exact price |
| BillingMath.SlackIsLinear | app/worker/jobs/poll_traffic.py:242-247 | the accumulated tolerance is n times one tolerance |
| BillingMath.ChargeMonotone | app/worker/jobs/poll_traffic.py:244-247 | more bytes or a higher rate never lower a charge, and no charge is negative |
| BillingMath.DebitCoversCredit | app/worker/jobs/poll_traffic.py:164-165 | for equal bytes and a non-negative commission the debit is at least the seller's credit |
| BillingMath.PlatformMargin | app/worker/jobs/poll_traffic.py:138-142 | when an inbound delta is the sum of its clients' deltas, debits less credit are at least the mark-up on the exact worth less the rounding of k+1 terms |
| BillingMath.MarginNonNegative | app/worker/jobs/poll_traffic.py:76 | past a threshold on price and commission, independent of k, the margin of billable deltas is never negative |
| BillingMath.MarkUpThreshold | app/worker/jobs/poll_traffic.py:76 | that threshold in dollars, if and only if |
| MeteringSafety.BillReadingsOnClient | app/worker/jobs/poll_traffic.py:211-296 | a billing pass over distinct readings bills each client once, by its own reading against its anchor before the pass |
| MeteringSafety.RunKeepsClientSafe | app/worker/jobs/poll_traffic.py:340-386 | every step of every run keeps what may still be billed covered by what the client moved |
| MeteringSafety.BuyerNeverOverbilled | app/worker/jobs/poll_traffic.py:212-296 | from any state in which no snapshot in flight lists the client, a buyer is never billed more bytes than the client moved, through silent resets, lost commits, incomplete snapshots and inactive periods |
| MeteringSafety.NobodyOverbilledFromStart | app/worker/jobs/poll_traffic.py:359-413 | the same for every client of every run from an empty marketplace, also one added while its listing's sub-cycle is under way |
| SellerSafety.RunKeepsInboundSafe | app/worker/jobs/poll_traffic.py:484-517 | every step keeps the inbound's uncredited bytes covered, although one reset zeroes all counters and only processed anchors follow |
| SellerSafety.SellerNeverOvercredited | app/worker/jobs/poll_traffic.py:146-209 | a seller is never credited more bytes than the inbound carried |
| SellerSafety.NobodyOvercreditedFromStart | app/worker/jobs/poll_traffic.py:463-517 | the same for every listing of every run from an empty marketplace, whenever it was added |
| ByteConservation.BytesConserved | app/worker/jobs/poll_traffic.py:222-296 | in clean runs what the client moves is what is billed, forgiven and lost plus what waits between anchor and counter, or during a sub-cycle in its snapshot, with the anchor at most the counter |
| ByteConservation.NewConfigConserved | app/worker/jobs/poll_traffic.py:340-386 | so for a config bought at any moment of any run from an empty marketplace, mid-cycle included |
| ByteConservation.ForgivenessBound | app/worker/jobs/poll_traffic.py:242-296 | n bills of a config's own listing forgive it at most n·(512·1024 − 1) bytes, whatever goes wrong and however often other listings are billed |
| InboundConservation.InboundConserved | app/worker/jobs/poll_traffic.py:146-209 | in clean cycles what an inbound carries is what is credited, forgiven and lost plus what waits between anchor and counter, or on the counter alone between a global reset and its anchors; commits may fail |
| InboundConservation.NewListingConserved | app/worker/jobs/poll_traffic.py:484-517 | so for a listing added at any moment of any run from an empty marketplace |
| InboundConservation.SellerForgivenessBound | app/worker/jobs/poll_traffic.py:162-209 | n bills of a listing forgive its seller at most n·(512·1024 − 1) bytes, whatever goes wrong |
| InboundConservation.FailedListingPays | app/worker/jobs/poll_traffic.py:484-517 | what a global reset costs a listing not processed in its cycle: the bytes past its anchor at once, and the anchor's worth more if and only if the inbound carries that much before its next reading |
| InboundConservation.StaleAnchorPays | app/worker/jobs/poll_traffic.py:489-517 | the same cost for every listing whose anchor does not follow a global reset that took effect: not processed, the reset reported as failed, or the anchors' commit lost |
| MeteringLimits.OverlapBillsTwice | app/worker/jobs/enforce_balance.py:118-131 | two overlapping sub-cycles bill one megabyte twice |
| MeteringLimits.FalseResetBillsTwice | app/worker/jobs/poll_traffic.py:340-354 | a reset reported but not done bills one megabyte twice |
| MeteringLimits.OverlappingCyclesOvercredit | app/worker/jobs/poll_traffic.py:501-517 | overlapping cycles credit a seller more than was carried although sub-cycles stay apart |
| MeteringLimits.StaleBillHarmsIff | app/worker/jobs/poll_traffic.py:231-296 | a bill whose snapshot another sub-cycle has overtaken leaves the client covered if and only if the snapshot lies between anchor and counter as they are now, or, after a reset it believes in, both snapshot and anchor are zero |
| MeteringLimits.HarmShows | app/worker/jobs/poll_traffic.py:231-296 | once a client is no longer covered, the next bill of its counter settles more than it moved |
| MeteringLimits.StaleCreditHarmsIff | app/worker/jobs/poll_traffic.py:145-209 | an overtaken inbound snapshot is credited without harm if and only if it lies between anchor and counter as they are now |
| MeteringLimits.LateZeroHarmsIff | app/worker/jobs/poll_traffic.py:501-517 | anchors zeroed after another worker has read do no harm if and only if they are zero already |
| MeteredMoney.PaidIsChargesOfDeltas | app/worker/jobs/poll_traffic.py:274-289 | a run's wallet debits for one config are charges, at rates its own listing had, of deltas that add up to its billed bytes, at most one for each bill of that listing |
| MeteredMoney.PaidIsWorthOfBilled | app/worker/jobs/poll_traffic.py:242-289 | money paid lies between the exact worth of the billed bytes at the lowest and the highest rate of the listing, within one tolerance for each of its bills |
| MeteredMoney.BuyerNeverOverpays | app/worker/jobs/poll_traffic.py:242-289 | a buyer never pays more than the worth of what the client moved at the listing's highest rate, plus those tolerances |
| MeteredMoney.NobodyOverpaysFromStart | app/worker/jobs/poll_traffic.py:242-289 | the same for every client of every run from an empty marketplace |
| MeteredMoney.PassTakesMargin | app/worker/jobs/poll_traffic.py:118-298 | when the inbound's delta is the sum of its clients' deltas, the ledger rows of one billing pass add up to minus the platform's margin |
| MeteredMoney.PassNeverLoses | app/worker/jobs/poll_traffic.py:118-298 | past the threshold such a pass never pays out more than it takes in |
| ListingLedger.ListingMargin | app/worker/jobs/poll_traffic.py:118-298 | over any run from the start at one price and commission, a listing's ledger rows add up to the charges of its credited less its billed deltas, within one tolerance for each delta of the worth of the bytes at the two rates |
| ListingLedger.EarnedIsCredited | app/worker/jobs/poll_traffic.py:173-204 | the credited deltas add up to the credited bytes |
| ListingLedger.PlatformNeverLoses | app/worker/jobs/poll_traffic.py:138-142 | past the threshold the platform never loses on a listing over a run in which its buyers are billed for at least the bytes its seller is credited for |
| Poller.PollWorker.CreditSeller | app/worker/jobs/poll_traffic.py:145-209 | bytes past the anchor, or all of a counter below it, are credited to the last byte from 524288 on and forgiven below; the anchor is the reading |
| Poller.PollWorker.BillClient | app/worker/jobs/poll_traffic.py:222-296 | an active config of the listing is billed the bytes past its anchor to the last byte from 524288 on and forgiven them below; its anchor is zero after a reported reset and the reading otherwise; anyone else is skipped |
| Poller.PollWorker.BillRows | app/worker/jobs/poll_traffic.py:118-298 | the loop over the snapshot equals the specification of a billing pass |
| Poller.PollWorker.ResetStep | app/worker/jobs/poll_traffic.py:340-356 | the reset is called exactly when it is enabled and the snapshot lists a client; if it takes effect it zeroes the counters of that listing and no other, and it counts as done when reported |
| Poller.PollWorker.BillStep | app/worker/jobs/poll_traffic.py:358-413 | the transaction takes effect or is rolled back whole, and a commit that raised may count as processed either way |
| Poller.PollWorker.ProcessListing | app/worker/jobs/poll_traffic.py:301-413 | one sub-cycle, with others acting in every gap, is exactly read, reset, bill in that order, or nothing when the read fails |
| Poller.Provisioned | app/worker/jobs/poll_traffic.py:431-448 | exactly the provisioned, not deleted listings, in order, whatever their status |
| Poller.PollWorker.GlobalResetStep | app/worker/jobs/poll_traffic.py:484-499 | one reset for all inbounds exactly when resets are enabled and something was processed |
| Poller.PollWorker.ZeroAnchorsStep | app/worker/jobs/poll_traffic.py:501-517 | only processed listings' anchors are zeroed, and only after a reset that reported success |
| Poller.PollWorker.ProcessAll | app/worker/jobs/poll_traffic.py:461-482 | the listings are taken in turn, whatever happened to the ones before |
| Poller.PollWorker.PollTrafficOnce | app/worker/jobs/poll_traffic.py:416-517 | a whole cycle is the one run its script describes and keeps both safety invariants |
| CycleOutcome.BillSettlesClient | app/worker/jobs/poll_traffic.py:222-296 | an applied bill of a listed active client with at least 524288 bytes past its anchor bills exactly those bytes and forgives nothing; with fewer it bills nothing and forgives exactly those |
| CycleOutcome.BillSparesOthers | app/worker/jobs/poll_traffic.py:211-229 | clients not listed, not active or of another listing are left alone, and everybody is when the commit does not take effect |
| CycleOutcome.BillChargesClient | app/worker/jobs/poll_traffic.py:242-289 | the buyer pays the two-stage rounded money of those bytes at the buyers' rate, or nothing |
| CycleOutcome.RatesInFull | app/worker/jobs/poll_traffic.py:165-247 | the rates are the price, and one plus the commission times the price |
| CycleOutcome.BillSettlesInbound | app/worker/jobs/poll_traffic.py:145-209 | the same for the inbound: credited to the last byte from 524288 on, forgiven below, anchor at the reading |
| CycleOutcome.BillSparesInbounds | app/worker/jobs/poll_traffic.py:358-413 | no other inbound is credited or moved, and none is when the commit does not take effect |
| CycleOutcome.BillPaysSeller | app/worker/jobs/poll_traffic.py:162-204 | the seller receives the two-stage rounded money of those bytes at the price, or nothing |
| CycleOutcome.CycleInParts | app/worker/jobs/poll_traffic.py:461-517 | after all sub-cycles the global reset is made if and only if resets are enabled and some listing was read and counted as processed, and then the anchors are dealt with |
| CycleOutcome.CycleSettlesInbound | app/worker/jobs/poll_traffic.py:416-517 | a cycle left alone by other workers credits every provisioned listing that was read and committed with exactly what the panel showed past its anchor at that read; where its anchor ends, whatever the panel and the database answer |
| CycleOutcome.CycleSettlesClient | app/worker/jobs/poll_traffic.py:416-517 | the same for every active config the panel lists and nobody stops |
| PollCycles.LoneCycleIsExclusive | app/worker/main.py:25-32 | a cycle no other poll worker interferes with meets both non-overlap assumptions |
| PollCycles.CycleBillsOnce | app/worker/jobs/poll_traffic.py:461-482 | a cycle bills every listing at most once and leaves its worker idle |
| PollCycles.CyclesForgive | app/worker/jobs/poll_traffic.py:242-296 | n cycles of one worker, each cut short by its death or not, forgive a config at most n·(512·1024 − 1) bytes |
| PollCycles.LoneWorkerIsFair | app/worker/jobs/poll_traffic.py:416-517 | from an empty marketplace, over any number of cycles of one worker that may die after any step, no buyer is overbilled and no seller overcredited |
| Withdrawals.IdsWith | app/worker/jobs/process_withdrawals.py:75-83 | exactly the rows in a status, oldest first |
| Withdrawals.OldestFirst | app/worker/jobs/process_withdrawals.py:75-83 | the rows taken are those in the status with fewer than the limit of such rows before them, in order |
| Withdrawals.UnitsAreFloored | app/common/payout/bsc.py:212-213 | a transfer moves the net amount rounded down to whole token units |
| PayoutSafety.RunKeepsSafe | app/worker/jobs/process_withdrawals.py:39-103 | every step, failed commit and crash keeps rows, stored hashes, sends and chain in agreement |
| PayoutSafety.BroadcastAtMostOnce | app/worker/jobs/process_withdrawals.py:106-155 | in every reachable state a withdrawal was broadcast at most once, as the hash its row stores |
| PayoutSafety.StoredBeforeBroadcast | app/worker/jobs/process_withdrawals.py:134-146 | when a transaction goes out its hash and submitted are already durable |
| PayoutSafety.RecoveredWasNeverSent | app/worker/jobs/process_withdrawals.py:50-72 | recovery returns to pending exactly the rows in submitting since before the cutoff and changes nothing else; such a row stores no hash and was never sent |
| PayoutSafety.RefundedNeverPays | app/worker/jobs/process_withdrawals.py:174-208 | a refunded withdrawal stays refunded and nothing it ever sent succeeds on chain |
| PayoutSafety.ConfirmedWasPaid | app/worker/jobs/process_withdrawals.py:178-193 | a confirmed withdrawal's stored transaction succeeded, to its address, for its net amount rounded down to token units |
| PayoutSharing.OwnTransfersIff | app/common/payout/bsc.py:217-220 | after any run the rows' stored transactions are pairwise different if and only if no step of it stored one that was stored already |
| PayoutSharing.FreshNoncesOwnTransfers | app/common/payout/bsc.py:217-220 | as long as the node never hands out a nonce that a stored transaction carries, no transaction is stored twice |
| PayoutSharing.ConfirmedIsPaidInFull | app/worker/jobs/process_withdrawals.py:134-193 | without such a step what was transferred covers every confirmed withdrawal in full |
| PayoutRuns.OneTransferConfirmsTwo | app/worker/jobs/process_withdrawals.py:134-155 | a run from the start in which one transfer confirms two withdrawals |
| PayoutLedger.LedgerAgrees | app/common/db/wallet.py:25-60 | exactly one payout row of −amount per withdrawal, one refund row of +amount if and only if refunded, failed never stored |
| PayoutLedger.AtMostOneInFlight | app/common/payout/service.py:120-132 | a user has at most one withdrawal that is not finished |
| PayoutLedger.DailyCap | app/common/payout/service.py:134-156 | in every 24-hour window, less the stamp skew, a user's kept withdrawals stay within the daily maximum, although rows may be refunded later |
| PayoutLedger.SpentIsSum | app/common/payout/service.py:136-149 | what the cap counts: the user's rows stamped at or after the instant that are neither failed nor refunded |
| PayoutLedger.BalanceIsSum | app/common/db/wallet.py:13-22 | the balance is the sum of the user's entries |
| PayoutLedger.CapFailsBeyondWindow | app/common/payout/service.py:134-156 | rows stamped more than a day before the instant of the check, any number of any size, do not count against a creation, so a window that holds them and its stamp holds both totals |
| PayoutCap.CapFailsFromStart | app/common/payout/service.py:134-156 | for every payable amount, every skew and every window longer than a day less the skew, a run from the start that passes the cap in it |
| PayoutCap.CapHoldsWithoutPayable | app/common/payout/service.py:93-156 | without a payable amount the cap holds in every window of every run |
| PayoutCap.CapFailsIff | app/common/payout/service.py:134-156 | in a window longer than a day less the skew some run passes the cap if and only if some amount is payable |
| PayoutLedger.TakenOutWithinCredits | app/common/payout/service.py:158-162 | payouts less refunds equal the withdrawals kept and never exceed the credits ever posted to the user |
| PayoutLedger.HotWalletSolvent | app/common/payout/bsc.py:212-215 | successful transfers never exceed the net amounts of withdrawals not refunded |
| PayoutWorker.Worker.CreateWithdrawal | app/common/payout/service.py:93-199 | created if and only if amount, block, other withdrawals, daily cap, balance, fee and liquidity allow it, as a row with the request's address and gas price and a debit of the gross amount; a refusal changes nothing and names a reason that holds |
| PayoutWorker.Worker.RecoverStuck | app/worker/jobs/process_withdrawals.py:50-72 | the loop returns exactly the rows past the cutoff to pending, or is rolled back |
| PayoutWorker.Worker.ClaimPending | app/worker/jobs/process_withdrawals.py:74-88 | exactly the twenty oldest pending rows are claimed, before anything is signed |
| PayoutWorker.Worker.RefundFailed | app/common/db/wallet.py:42-60 | one refund row of the gross amount with the status change, or neither |
| PayoutWorker.Worker.SignStep | app/worker/jobs/process_withdrawals.py:113-132 | signed with the row's address, its net amount in whole units and its gas price or else the node's; refunded in full when signing fails or the amount is dust |
| PayoutWorker.Worker.PersistStep | app/worker/jobs/process_withdrawals.py:134-141 | hash and submitted are stored together or the tick ends |
| PayoutWorker.Worker.BroadcastStep | app/worker/jobs/process_withdrawals.py:143-155 | the stored transaction goes to the network if it can be reached, and no row changes either way |
| PayoutWorker.Worker.CheckReceipt | app/worker/jobs/process_withdrawals.py:169-208 | with an answer and a receipt: a success confirms the row with the ledger unchanged, a revert refunds it and raises the user's balance by its amount; otherwise nothing changes |
| PayoutWorker.Worker.SubmitOne | app/worker/jobs/process_withdrawals.py:106-155 | one row is signed, stored and sent in that order, as far as commits and crashes let it |
| PayoutWorker.Worker.SubmitAll | app/worker/jobs/process_withdrawals.py:90-91 | every claimed row in turn until the process dies |
| PayoutWorker.Worker.ConfirmAll | app/worker/jobs/process_withdrawals.py:93-103 | every submitted row is checked in turn until the process dies |
| PayoutWorker.Worker.ProcessWithdrawalsOnce | app/worker/jobs/process_withdrawals.py:39-103 | a tick, dying at any await, is the one run its script describes and ends safe |
| PayoutOutcome.PassFinishes | app/worker/jobs/process_withdrawals.py:93-103 | an uninterrupted pass finishes every submitted row it checks whose receipt is there and whose check is answered, by the receipt's outcome |
| PayoutOutcome.FinalReceiptsAreTaken | app/worker/jobs/process_withdrawals.py:169-208 | so in every reachable state: no such row is still submitted after the pass |
| PayoutOutcome.PassSubmits | app/worker/jobs/process_withdrawals.py:90-155 | an uninterrupted pass submits, stores and sends every claimed row, or refunds it, and leaves all other rows alone |
| PayoutOutcome.TickSubmits | app/worker/jobs/process_withdrawals.py:39-155 | an uninterrupted tick sends off or refunds each of the twenty oldest waiting withdrawals, recovered ones among them, with others creating, posting and mining at every await |
| PayoutOutcome.TickFinishes | app/worker/jobs/process_withdrawals.py:39-208 | an uninterrupted tick whose checks are answered finishes every submitted withdrawal whose receipt is there, with fewer than fifty unfinished ones before it |
| TransferScan.NewestIsNewest | app/common/payout/bsc.py:449-460 | the reference page is sorted, covered, and nothing left out is newer |
| TransferScan.NewestIsUnique | app/common/payout/bsc.py:449-460 | those properties leave exactly one page |
| TransferScan.RecentPageIsPrefix | app/common/payout/bsc.py:355-368 | a page over recent blocks begins the page of the whole chain |
| TransferScan.FullPageIsGlobal | app/common/payout/bsc.py:355-368 | a full page over recent blocks is the page of the whole chain |
| TransferScan.Fetch | app/common/payout/bsc.py:376-410 | one attempt on the whole range and, exactly after a complaint about the rate, one on its upper half; exactly the logs of the answered one |
| TransferScan.ReadChunk | app/common/payout/bsc.py:369-438 | each direction in turn; exactly what the answered calls cover, and without errors all of the chunk's transfers that touch the wallet |
| TransferScan.Dedupe | app/common/payout/bsc.py:449-458 | the same transfers, each once |
| TransferScan.SortNewestFirst | app/common/payout/bsc.py:459-460 | the same transfers by block and log index, newest first |
| TransferScan.ScanBack | app/common/payout/bsc.py:368-447 | the loop over chunks: rounds in the sizes the answers call for, none after the walk is over; without errors the events hold every transfer of the wallet within the budget, or twice the limit |
| TransferScan.PassedIsSeenOrDropped | app/common/payout/bsc.py:369-447 | a transfer in a block the walk has passed was read, or an attempt that covers it was dropped |
| TransferScan.ListRecentTransfers | app/common/payout/bsc.py:328-460 | whatever the node answers, the walk goes down without gaps, halving or doubling its chunks, and ends only at the start of the chain, at the block budget or with twice the limit in hand; a transfer within the budget is on the page, or the page is full, or a call for its block was dropped; the page is the newest of what was answered; without errors it begins the newest page of the whole chain and is it when full |
| ListingHealth.LastTimeIsNewest | app/api/routes/prober.py:147-154 | the folded time is attained and no matching sample is newer |
| ListingHealth.CachesAreMaxima | app/api/routes/prober.py:122-177 | under any batches in any order, none of them harmful in that sense, each cache is the maximum of the whole log |
| ListingHealth.CacheIsExactIff | app/api/routes/prober.py:127-154 | with missing times a cache stays exact if and only if no sample lacks one, the newest application reading is the database's, or something at least as new as both is known |
| ListingHealth.IngestKeepsCachesIff | app/api/routes/prober.py:95-178 | a batch keeps all caches exact if and only if that holds for every listing |
| ListingHealth.GivenTimesAreHarmless | app/api/routes/prober.py:34-38 | a batch whose every sample carries its time does no harm |
| ListingHealth.StoredInTurn | app/api/routes/prober.py:117-146 | each report for a known listing is stored in its turn, with its outcome and its own time or else the clock's, and no other |
| ListingHealth.BatchIsTaken | app/api/routes/prober.py:95-178 | a batch appends exactly those rows and moves each cache to the newest time known |
| ListingHealth.SkewLeavesStaleActive | app/api/routes/prober.py:128 | a batch that leaves a cache ahead of the log, and a tick that then leaves a stale listing active |
| ListingHealth.NewestSince | app/worker/jobs/listing_quality_gate.py:124-137 | the newest sample after a time, or none; ties as the database prefers |
| ListingHealth.PendingVerdict | app/worker/jobs/listing_quality_gate.py:248-294 | the row a tick makes of a pending one: it leaves that state exactly on a success since creation or an elapsed deadline; future-dated samples included |
| ListingHealth.DemotionNeedsEvidence | app/worker/jobs/listing_quality_gate.py:79-113 | an active row is broken exactly when the log has a probe in the window and no success in it |
| ListingHealth.RecoveryNeedsSuccess | app/worker/jobs/listing_quality_gate.py:115-149 | a broken row recovers exactly when its newest sample since it broke succeeded |
| ListingHealth.GateSparesOthers | app/worker/jobs/listing_quality_gate.py:68-119 | paused and deleted listings are left alone |
| ListingHealth.TickOutcome | app/worker/jobs/listing_quality_gate.py:59-151 | what one tick makes of every row, by its status, in terms of the log alone |
| ListingHealth.RetryCountsOldSuccess | app/api/routes/listings.py:641-674 | a retried row with an old success leaves pending at the next tick |
| ListingHealth.FutureSampleRules | app/worker/jobs/listing_quality_gate.py:115-149 | a newest sample dated after the tick keeps a listing active if it succeeded, and keeps it broken if it failed |
| ListingHealth.GateSettles | app/worker/jobs/listing_quality_gate.py:68-151 | after a tick no row is overdue, unexplained or stale, including rows promoted or recovered in it |
| ListingHealth.GateIsIdempotent | app/worker/jobs/listing_quality_gate.py:68-151 | a second tick at the same instant changes nothing |
| ListingHealth.BrokenAlwaysHasSince | app/worker/jobs/listing_quality_gate.py:99-107 | through all seller requests and ticks a broken row has its broken_since |
| ListingHealth.EveryTickSettles | app/worker/jobs/listing_quality_gate.py:59-151 | after every tick of every run all rows are settled and the tick is idempotent |
| ListingHealth.EveryTickSettlesFromStart | app/worker/jobs/listing_quality_gate.py:59-151 | the same in every run from the empty registry |
| ListingHealth.Registry.FoldBatch | app/api/routes/prober.py:122-154 | the loop keeps the newest time per listing, overall and successful |
| ListingHealth.Registry.PostSamples | app/api/routes/prober.py:95-178 | exactly the reports for known listings are stored; each cache is the newest of what it was and the batch's times |
| ListingHealth.Registry.PendingLoop | app/worker/jobs/listing_quality_gate.py:229-294 | the pending loop equals the pending pass on every row |
| ListingHealth.Registry.DemoteLoop | app/worker/jobs/listing_quality_gate.py:74-113 | the demotion loop equals the demotion pass |
| ListingHealth.Registry.RecoverLoop | app/worker/jobs/listing_quality_gate.py:115-149 | the recovery loop equals the recovery pass |
| ListingHealth.Registry.ListingQualityGateOnce | app/worker/jobs/listing_quality_gate.py:59-151 | the three passes in order are one tick |
| ListingHealth.Registry.EnableListing | app/api/routes/listings.py:623-638 | any listing but a deleted one becomes active and changes in nothing else |
| ListingHealth.Registry.DisableListing | app/api/routes/listings.py:562-606 | any listing but a deleted one becomes disabled and changes in nothing else |
| ListingHealth.Registry.RetryListing | app/api/routes/listings.py:641-674 | only a broken listing returns to pending, with a new deadline |
| ListingHealth.Registry.PatchListing | app/api/routes/listings.py:712-723 | an edited broken or disabled listing returns to pending |
| ListingHealth.Registry.DeleteListing | app/api/routes/listings.py:814-869 | a listing is deleted once |
| ConfigLifecycle.BalancesEnforced | app/worker/jobs/enforce_balance.py:133-256 | one run turns off and stamps exactly the active configs of empty wallets, and restarts a funded buyer's stamped config exactly when its listing is active or pending and, where it has an inbound, the panel call succeeded; nothing else is touched |
| ConfigLifecycle.SecondRunIsIdle | app/worker/jobs/enforce_balance.py:133-256 | with all panel calls answered a second run changes nothing |
| ConfigLifecycle.EveryRunIsEnforced | app/worker/jobs/enforce_balance.py:133-256 | so after every run from an empty shop, and a second run is idle if all panel calls succeeded |
| ConfigLifecycle.QuotasEnforced | app/worker/jobs/enforce_quota.py:124-171 | a quota run turns off exactly the active configs with a positive cap that have used it, to within half a byte, and touches nothing else |
| ConfigLifecycle.SellerStopsConfigs | app/api/routes/listings.py:573-603 | pausing turns off the listing's active configs, removing deletes all of them, a price rise turns off exactly the active ones that asked and whose call succeeded; stamps and other configs stay |
| ConfigLifecycle.RunKeepsStamps | app/worker/jobs/enforce_balance.py:180-187 | in every run a stamp on a live config means the balance worker stopped it or its buyer restarted it under the stamp |
| ConfigLifecycle.MeaningKeptIff | app/api/routes/configs.py:340-369 | one step keeps "stamped means stopped by the balance worker" if and only if it does not restart a stamped config |
| ConfigLifecycle.MeaningKeptInRuns | app/api/routes/configs.py:311-369 | and so do all runs without such restarts |
| ConfigLifecycle.RestartsOnlyItsOwn | app/worker/jobs/enforce_balance.py:212-251 | an automatic restart undoes only the balance worker's own stop, or one made after a restart under the stamp |
| ConfigLifecycle.BuyerStopUndone | app/api/routes/configs.py:340-369 | a run in which a buyer's own stop is undone by a top-up |
| ConfigLifecycle.Shop.StopBuyer | app/worker/jobs/enforce_balance.py:151-189 | the inner loop stops and stamps every active config of one empty wallet |
| ConfigLifecycle.Shop.DisableEmpty | app/worker/jobs/enforce_balance.py:133-189 | the first pass over all buyers |
| ConfigLifecycle.Shop.RestartBuyer | app/worker/jobs/enforce_balance.py:212-253 | the inner loop restarts exactly the stamped configs of one funded buyer on an active or pending listing whose call, where one is made, succeeded |
| ConfigLifecycle.Shop.ReenableFunded | app/worker/jobs/enforce_balance.py:191-254 | the second pass over all buyers |
| ConfigLifecycle.Shop.EnforceBalancesOnce | app/worker/jobs/enforce_balance.py:133-256 | both passes are one enforcement step with that outcome on every config |
| ConfigLifecycle.Shop.EnforceQuotasOnce | app/worker/jobs/enforce_quota.py:88-171 | the quota loop equals the quota step |
| ConfigLifecycle.Shop.Buy | app/api/routes/configs.py:155-282 | each refusal in the route's order: name, balance, listing, owner, provisioning, the buyer's twenty, panel; otherwise a new active config with the asked limit and flag |
| ConfigLifecycle.Shop.DisableOwn | app/api/routes/configs.py:312-336 | a config already disabled keeps who stopped it and its stamp |
| ConfigLifecycle.Shop.EnableOwn | app/api/routes/configs.py:340-369 | only on an active listing, and the stamp stays |
| ConfigLifecycle.Shop.DeleteOwn | app/api/routes/configs.py:395-415 | the owner's live config is deleted |
| ConfigLifecycle.Shop.PauseListing | app/api/routes/listings.py:562-606 | the listing and its active configs stop together |
| ConfigLifecycle.Shop.IncreasePrice | app/api/routes/listings.py:742-774 | opted-in configs whose panel call succeeded stop |
| ConfigLifecycle.Shop.RemoveListing | app/api/routes/listings.py:814-869 | the listing and its live configs are deleted together |
| Payments.Cashier.OpenInvoice | app/bot/handlers/topup.py:111-120 | a new order waits at its invoice amount without a top-up row and every other order stays; an order that exists is left alone; agreeing books keep agreeing |
| Payments.RunKeepsBooks | app/api/routes/webhook.py:103-222 | over any callbacks an order has one top-up row, of its own amount and at most its invoice, if and only if it is confirmed |
| Payments.BooksAgreeFromStart | app/api/routes/webhook.py:103-222 | the same in every run from the start, and no top-up row without an order |
| Payments.FinalIsForever | app/api/routes/webhook.py:103-109 | a final status, its amount and its ledger rows never change |
| Payments.RedeliveryIsIdle | app/api/routes/webhook.py:103-109 | a callback that had an effect has none when it comes again, however late |
| Payments.CallbackOutcome | app/api/routes/webhook.py:103-222 | paid credits the invoice, failed closes the order, partial credits exactly when at least 0.495 dollars arrived for an invoice of at least half a dollar, all else is ignored |
| Payments.PartialCreditIsClose | app/api/routes/webhook.py:32-44 | a partial credit is within half a cent of the lesser of what arrived and the invoice |
| Payments.MoreArrivedCreditsNoLess | app/api/routes/webhook.py:156-172 | a larger arrival is never credited less |
| Payments.FullArrivalCreditsInvoice | app/api/routes/webhook.py:337-365 | when all that was due arrived both gateways' formulas give the invoice |
| Payments.NowPaymentsOutcome | app/api/routes/webhook.py:156-218 | a partial NowPayments callback credits within half a cent of the lesser of the invoice and the x with x·due = paid·price, price echoed or else the invoice, if that is 0.495 dollars or more of an invoice of half a dollar or more; otherwise, or without positive figures, it fails the order |
| Payments.PlisioOutcome | app/api/routes/webhook.py:329-413 | an expired Plisio callback settles at x = received·rate, or without a usable rate at the x with x·total = received·source; without the figures it fails the order |
| Payments.ProportionIsUnique | app/api/routes/webhook.py:171-173 | those equations leave one x |
| Payments.Cashier.NowPartial | app/api/routes/webhook.py:156-179 | a figure exactly for positive amounts paid and due: the cents of the proportion, capped at the invoice |
| Payments.Cashier.PlisioPartial | app/api/routes/webhook.py:337-369 | a figure exactly for a positive amount received and a positive rate, or without a rate positive totals: the cents of product or proportion, capped at the invoice |
| Payments.Cashier.NowPaymentsIpn | app/api/routes/webhook.py:60-226 | the handler settles the order at the payload's own figures, touches no other order, and equals the machine's step |
| Payments.Cashier.PlisioIpn | app/api/routes/webhook.py:246-424 | the same for Plisio |
| ListingCap.CapHolds | app/api/routes/listings.py:384-430 | in every interleaving of creates and removals no seller exceeds the cap, and who is past the lock holds it |
| ListingCap.CapHoldsFromStart | app/api/routes/listings.py:282-303 | at most five listings per seller in every reachable state |
| ListingCap.LocksAreReleased | app/api/routes/listings.py:384-396 | a seller's key is locked exactly while a request of such a seller is between taking the lock and ending its transaction |
| ListingCap.LocksAreReleasedFromStart | app/api/routes/listings.py:384-396 | the same in every reachable state |
| ListingCap.RecountIff | app/api/routes/listings.py:400-411 | under the lock a request goes on if and only if fewer than five of the seller's listings are not deleted |
| ListingCap.CommitIff | app/api/routes/listings.py:431-451 | the row is saved if and only if its port is free and the commit takes effect; the request is over only if it does not raise either |
| ListingCap.RemovalOutcome | app/api/routes/listings.py:813-869 | a removal hands the inbound over and marks that row, and no other |
| ListingCap.PortsStayApart | app/api/routes/listings.py:305-312 | the early check holds no lock; the unique column alone keeps any two listings from ever sharing a port |
| ListingCap.InboundsAccounted | app/api/routes/listings.py:321-380 | every provisioned inbound is a listing's, in a running request's hands, handed to delete_inbound, or leaked by a death |
| ListingCap.InboundsFromStart | app/api/routes/listings.py:409-465 | without deaths and lost panel answers none leaks; unless a commit raised, a listing's inbound is deleted only by its own removal |
| ListingCap.StrandedIff | app/api/routes/listings.py:446-465 | the cleanup strands a saved listing if and only if the commit raised after saving |
| ListingCap.CountedIsReachable | app/api/routes/listings.py:384-430 | a run from the start that reaches the commit |
| ListingCap.Desk.Provision | app/api/routes/listings.py:286-335 | refused if and only if the seller has five live listings or any row has the port; otherwise what each panel answer leaves |
| ListingCap.Desk.AddProbeClient | app/api/routes/listings.py:336-365 | a failed probe client hands the inbound back |
| ListingCap.Desk.TakeTurn | app/api/routes/listings.py:384-430 | waits for the lock; then past the second count if and only if there is room at that moment, or the inbound is handed back |
| ListingCap.Desk.Save | app/api/routes/listings.py:431-465 | saved if and only if the commit succeeds and the port is free at that moment, or the inbound is handed back |
| ListingCap.Desk.CreateListing | app/api/routes/listings.py:269-465 | which answer the request gets, as an exact function of the two counts, the port, the panel and the commit, whatever others do meanwhile; on every handled exit the inbound belongs to the saved listing or was handed to delete_inbound |

## Left out

- Proportional up and down splits of a delta (app/worker/jobs/poll_traffic.py:167-172): floats kept for audit only; up and down bytes are added up.
- The decimal context's 28 digits, and NaN and infinity in payloads: amounts are exact rationals before rounding.
- `total_gb_sold`, `sales_count`, notification counters, stability percentages and every message: no modelled branch reads them.
- Panel restarts, the pre-check that triggers an extra poll, and quota enforcement at the end of a poll cycle: each is its own job here.
- Fee estimation (app/common/payout/bsc.py:169-181): the fee and gas price of a request are arbitrary, so the payout theorems hold for every fee.
- Address checksums, callback signatures, sessions, HTTP and Telegram: assumed to have done their work.
- Chain reorganisations and several withdrawal workers.
- The mempool alert for an old submitted row (app/worker/jobs/process_withdrawals.py:210-227): it changes only a message.
- Links rewritten on a host change: `_rewrite_vless_host` glues its group number to the new host's first digit, so the round trip fails as written.
- The per-buyer config cap under concurrency (app/api/routes/configs.py:198-217): it takes no lock and does not hold there; one request checks it.
- Liveness over time: a row stored as submitted whose transaction never reached the network stays submitted, as in the code; progress is proved of one cycle and one tick.
- Read-committed races inside one quality-gate or enforcement transaction.
- Raw round-trip times and their scaling: health depends only on whether a sample succeeded.
