# Block builder: a verified model

This project models an Ethereum block builder in Dafny 4.11 and proves what its main loop
guarantees: how a block is put together from bundles and mempool transactions, how the best
build of a slot is chosen and bid for, how the service drives its jobs, and how the bundle
pool and the relay's bid cache agree with plain definitions of what they should answer.

`dafny verify dfyconfig.toml` checks everything.

## How it is organised

| file | content |
|---|---|
| Wrappers, Words | option and result types; wrapping and saturating words |
| Evm, Ledger | accounts, transactions, the two databases; committed transactions, their totals, the state they lead to, a block executed from scratch |
| Bundles, Simulation, BundleOrder | refund arithmetic; simulation of bundles stated by direct execution; the stable sort |
| BuildStates, BundlesStrat | the build state, the greedy selection with mempool filling and the build attempt |
| BlockValues, BlockTheorems, Screening | block value against the builder's gain; what holds of every block; what gets into it and what does not |
| Clock, Policy, Bidder | slot time, bid policies, the bidder |
| BidderTheorems, AuctionRecords, BidderPolls | the bidder's runs, what an auction's record says, what every poll takes in and submits |
| Attempts, StreamJob, Streaming | build attempts, the job that streams their builds and its composition with the bidder |
| Solvency, FailingBuild, TippedBuilds | what paying the bid leaves the builder with and who is paid; builds that go wrong |
| PayloadService, PayloadServiceTheorems | the job table and its runs |
| BundlePool, BundlePoolTheorems | the pool, its indexes and its reachable states |
| RelayBidCache, GasLimit | the bid cache against its history; the gas limit controller |

The EVM is a function from a state and a transaction to an error or a result (success, gas
used, touched accounts). Nothing is assumed about it except, in the statements about gas of the
builder's own transfer, that no transaction uses more gas than its limit, and, in the statements
about who is paid, that plain transfers are carried out. A state is a map of
accounts. The mempool is a function from the feedback given so far to the next transaction, so
every way in which a pool may react to `mark_invalid` and `skip_blobs` is covered. Clocks,
deadlines, channel contents and cancellation are inputs. The state machines follow the source
form: classes with the source's fields and methods with its loops, each proved against a
specification function or predicate, and the theorems are about those, over all inputs and runs.

## What the code does not do

Where documentation or expectation and code disagree, the model follows the code.

- Execution checks the gas a transaction used, not its gas limit, against the room left. A node
  checks the limit. `FinishedBlockIsValidIff` says exactly which finished blocks a node accepts,
  and `GasLimitsCanOverrun` builds, hands out and pays for one it does not accept.
- A comment says bundles that fail at their turn are skipped. One that fails in the EVM, if only
  because of a stale nonce, fails the whole attempt: `BundlePhaseErrsIff`, `StaleNonceFailsBuild`.
- Block value counts a bundle's whole fees and transfers; refunds are not subtracted from it
  (`RefundIsNotSubtracted`, `RefundedValueIsNotGain`), and behind a bundle transaction that leaves the coinbase account alone
  the next one is compared with a balance of 0. `BlockValueIsGainIff` says when value is gain.
- The policy without profit can lose: what block value overstates (`RefundMakesPoorer`), and gas
  when the block is worth less than the payment's, as it then bids 0 (`ZeroBidCostsGas`).
  `NoProfitIsSolventIff` says exactly when it does not.
- A top bid answer that was asked for in one auction counts in the next: `StaleAnswerCounts`.
  `AnswerIsOwnIff` and `BestIsOfOwnAnswersIff` say when that does not matter.
- The bundle documentation says a uuid can be used to replace a bundle. The uuid index keeps the
  first hash until that bundle is pruned while live, so until then only the first replacement
  works: `ReplacesAllIff` gives the exact condition and `ThirdBundleDoesNotReplace` the smallest
  failing sequence.
- Queries of the pool can return a bundle more than once, even a hash that was cancelled before it
  was added again: `QueryDistinctIffAddedOnce`, `CancelledHashIsListedTwice`.
- The doc comment of `is_prunable` says a bundle of the given block number itself is prunable; the
  code prunes only lower block numbers. The comment of `is_timestamp_out_of_bounds` says an absent
  bound counts as outside; the code treats it as no bound.
- The service prunes one slot behind the coming build, which can drop bundles the build would
  have used (`ServicePruneDropsBundle`); `ServicePruneKeepsQueryIff` says exactly when it does not.
- The refund computes the transfer's cost in 64 bits, where it can wrap: `RefundsLeaveGasCostIff`.
- Comments say a refund without a recipient goes to the sender of the last transaction. If an index
  is given, it goes to the sender of the transaction at that index: `RefundDefaults`.
- The gas limit suggestion wraps near 2^64 and below 1024: `ValidIffNoWrap`, `RaisesIff`.

## Model

| member | source | states |
|---|---|---|
| Bundles.NewRefund | crates/bundles/src/bundle.rs:122-132 | a refund exists exactly when a percentage was given; a percentage above 100 becomes 100 and any other is kept |
| Bundles.RefundLeavesTransferCost | crates/bundles/src/bundle.rs:149-155 | a non-zero refund plus the computed transfer cost is at most fees plus coinbase transfer, under saturating 256-bit arithmetic and for any percentage |
| Bundles.RefundsLeaveGasCostIff | crates/bundles/src/bundle.rs:149-155 | for a base fee, all refunds leave the real gas cost of the transfer exactly when that cost fits in 64 bits |
| Bundles.RefundIsShare | crates/bundles/src/bundle.rs:149-155 | while nothing exceeds its word, the refund is the requested share of what fees and coinbase transfer leave above the cost of 32000 gas, rounded down |
| Bundles.RefundDefaults | crates/bundles/src/bundle.rs:222-239 | without an index the last transaction counts, without a recipient the sender of the one that counts is paid, an index behind the last leaves nobody to pay |
| Simulation.FromTxs | crates/payload/src/strategy/state/bundle.rs:191-225 | reverted is the first failure not in the reverting hashes and the totals are the sums before it; with none, the sums over all |
| Simulation.SimulateIsFaithful | crates/payload/src/strategy/state/mod.rs:465-596 | a successful simulation holds the bundle's whole transaction list, each transaction produced in the state the ones before left, and behind it the refund exactly if one is due and has a recipient: a successful transfer to that recipient of the amount computed from the simulated transactions |
| Simulation.SimulateErrsIff | crates/payload/src/strategy/state/mod.rs:493-501 | a simulation ends in an EVM error exactly when the EVM rejects one of the bundle's transactions on the state the ones before left, no blacklisted account having been touched |
| Screening.SimulatesIff | crates/payload/src/strategy/state/mod.rs:465-596 | a bundle simulates exactly when the EVM takes each transaction behind the ones before, none touches a blacklisted account, and a refund due goes through |
| Simulation.RefundedBundleKeepsTransferCost | crates/payload/src/strategy/state/bundle.rs:62-79 | a non-reverting refund bundle's total value subtracts the refund without saturating and is at least the transfer cost |
| BlockValues.BundleValueIsGainIff | crates/payload/src/strategy/state/mod.rs:493-541 | for any bundle length and any coinbase balances, recorded fees and transfers add up to at least the coinbase account's gain; to exactly the gain if and only if each transaction raises the balance by at least its fees and none that touches the account comes directly behind one that does not, unless the balance is 0 there |
| BundleOrder.SortIsStableDescending | crates/payload/src/strategy/state/bundle.rs:43-47 | the sorted list is descending in value, a permutation, and keeps the order of bundles of equal value |
| BundleOrder.SortInPlace | crates/payload/src/strategy/state/bundle.rs:43-47 | the in-place sort yields that list |
| BuildStates.BuildState.SimulateTxOnDb | crates/payload/src/strategy/state/mod.rs:383-446 | on a cached database, yields what direct execution on the state seen through the cache yields |
| BuildStates.BuildState.SimulateTxs | crates/payload/src/strategy/state/mod.rs:493-541 | the loop over the overlay yields what running the transactions directly yields, and leaves the overlay showing the same state |
| BuildStates.BuildState.SimulateBundle | crates/payload/src/strategy/state/mod.rs:465-557 | simulating on the overlay leaves the database untouched and equals direct execution of transactions and refund |
| BuildStates.BuildState.SimulateRefundTx | crates/payload/src/strategy/state/mod.rs:564-596 | yields the refund transfer's simulation, nothing without refund or recipient, and an error when it fails or reverts |
| BuildStates.BuildState.Commit | crates/payload/src/strategy/state/mod.rs:601-635 | replaying the changesets leads the database to the directly executed state; details are those of the extended ledger, receipt i with the gas through transaction i |
| BuildStates.BuildState.ExecuteBundle | crates/payload/src/strategy/state/mod.rs:679-694 | commits the bundle with its refund whole, or returns the error and changes neither state nor details |
| BuildStates.BuildState.ExecuteTransactionSkipVerify | crates/payload/src/strategy/state/mod.rs:643-661 | commits the transaction, or returns the error and changes nothing; room is checked unless skipped |
| BuildStates.ExecBundleRaisesTotals | crates/payload/src/strategy/state/mod.rs:340-376 | a committed bundle raises gas, blob gas, fees and coinbase sums by exactly its outcome's totals, refund included, and leaves room for the builder's transfer |
| BuildStates.BuildState.IntoBuild | crates/payload/src/strategy/state/mod.rs:699-876 | the finished block is everything committed plus, as last transaction, the transfer of the payment from the builder to the fee recipient with the nonce of the reached state; its success is not required and the build state itself is unchanged |
| BuildStates.TransferFits | crates/payload/src/strategy/state/mod.rs:308-336 | the unverified transfer behind a verified ledger stays within gas and blob limits |
| Ledger.BlockReplaysIff | crates/payload/src/strategy/state/mod.rs:601-635 | executing the committed transactions in order from the parent state, without overlays, succeeds exactly when each gas limit fits into the gas left at its place, and then with the same state, gas and receipts after every prefix |
| BundlesStrat.DecodeAndFilterBundles | crates/payload/src/strategy/bundle/strat.rs:53-74 | yields the successful top-of-block simulations in stable descending order |
| Screening.ProcessedIff | crates/payload/src/strategy/bundle/strat.rs:53-74 | exactly the bundles that simulate at the top of the block are processed, as often as they are there |
| BundlesStrat.CommitSelectedBundles | crates/payload/src/strategy/bundle/strat.rs:87-131 | each bundle is judged on the state and hashes the accepted ones before it left; an EVM error ends the loop at that bundle |
| BundlesStrat.BundlePhaseErrsIff | crates/payload/src/strategy/bundle/strat.rs:97-128 | the bundle phase fails exactly when a bundle that is neither blacklisted nor conflicting at its turn has a transaction the EVM rejects on the state reached there |
| Screening.AcceptedIff | crates/payload/src/strategy/bundle/strat.rs:97-129 | in every run a bundle is accepted exactly if at its turn nobody in it is blacklisted, no transaction is in the block yet, it simulates with only failures it allows, and it fits with 32000 gas to spare and six blobs; it is set aside as blacklisted exactly if it has a blacklisted sender or recipient |
| Screening.NoBlacklistedParties | crates/payload/src/strategy/bundle/strat.rs:98-176 | in every run no bundle or mempool transaction in the block has a blacklisted sender or recipient |
| Screening.AcceptedTouchNothing | crates/payload/src/strategy/state/mod.rs:534-536 | no transaction of an accepted bundle touches a blacklisted account at its place in the block |
| BundlesStrat.ExecuteMempoolTxs | crates/payload/src/strategy/bundle/strat.rs:148-227 | offers are judged in pool order with the feedback the code gives; ends on exhaustion, cancellation or an internal error |
| Screening.OffersMeetFate | crates/payload/src/strategy/bundle/strat.rs:160-222 | in every run each offer is in the block or left out, and the pool told, as blacklist, committed hashes, EVM answer and room have it at that point |
| Screening.AttemptEnds | crates/payload/src/strategy/bundle/mod.rs:71-106 | an attempt ends when the pool is exhausted, at a cancellation, or at an offer on which the EVM breaks down; it reports an improvement exactly in the first case and with a strictly higher value |
| BundlesStrat.TryBuild | crates/payload/src/strategy/bundle/mod.rs:24-107 | fails exactly when the bundle phase does; otherwise better exactly when the block value, as a word, strictly exceeds the best build's, aborted with the value if not, cancelled only if the signal fired |
| BlockTheorems.RunIsSound | crates/payload/src/strategy/bundle/strat.rs:87-227 | in every run, bundles and mempool transactions are genuine, either nothing is committed or gas plus the transfer's reserve fits, and blobs fit |
| BlockTheorems.FinishedBlockIsValidIff | crates/payload/src/strategy/state/mod.rs:729-855 | the block with the builder's transfer at its end stays within the gas and blob limits; a node that re-executes it from the parent state finds the claimed receipts and gas, exactly when the gas limit of each committed transaction fits into the gas left at its place |
| TippedBuilds.GasLimitsCanOverrun | crates/payload/src/strategy/state/mod.rs:308-336 | two mempool transactions whose gas fits and whose gas limits do not are built and handed out as an improvement of value 200; the payment of 200 goes through, and no node accepts the finished block |
| FailingBuild.StaleNonceFailsBuild | crates/payload/src/strategy/bundle/strat.rs:96-120 | two bundles of one sender with one nonce, each fine at the top of the block, fail the whole attempt |
| BlockTheorems.BlockValueIsGainIff | crates/payload/src/strategy/state/mod.rs:170-172 | over every run the recorded block value covers the builder's gain, and is the gain exactly if every bundle, refund and mempool transaction brings at least its fees and is compared with the real balance |
| BlockTheorems.RefundIsNotSubtracted | crates/payload/src/strategy/state/mod.rs:618-622 | for every committed refund, block value exceeds the builder's gain by at least what the refund takes from the builder's account |
| TippedBuilds.RefundedValueIsNotGain | crates/payload/src/strategy/state/mod.rs:618-622 | a bundle that brings the builder 100 and is refunded 90 is handed out as an improvement of value 100, with a gain of 10 |
| Solvency.NoProfitIsSolventIff | crates/payload/src/bidder/policy.rs:166-188 | after every improving attempt whose finished block pays the bid without profit, the builder holds what it held plus block value less overstatement, bid and the payment's gas; up to the overstatement it is no poorer exactly when block value covers that gas |
| Solvency.PaymentArrives | crates/payload/src/strategy/state/mod.rs:729-741 | with an EVM that carries out plain transfers, the payment behind every run succeeds if the builder can pay it, and the fee recipient then holds the bid more |
| Solvency.RefundArrives | crates/payload/src/strategy/state/mod.rs:564-596 | with such an EVM every committed refund brings the refund recipient exactly the computed amount |
| Solvency.RefundIsOfIndexed | crates/payload/src/strategy/state/bundle.rs:62-79 | the refund is computed from the transaction at the index asked for, or the last |
| TippedBuilds.RefundMakesPoorer | crates/payload/src/strategy/state/mod.rs:729-740 | the refunded block, bid for without profit and paid for, leaves the builder 90 poorer |
| TippedBuilds.ZeroBidCostsGas | crates/payload/src/bidder/policy.rs:166-188 | for a block worth less than the gas of the payment the policy bids 0 and the builder loses the rest of the gas |
| BlockTheorems.BlockLayout | crates/payload/src/strategy/bundle/strat.rs:87-227 | executed transactions are the accepted bundles in order, each whole with at most one refund behind it, then mempool transactions in pool order |
| BlockTheorems.NothingIncludedTwice | crates/payload/src/strategy/bundle/strat.rs:94-188 | the committed set is exactly the hashes of the non-refund transactions, and none occurs twice if no bundle repeats one |
| Screening.RecordedAsPaid | crates/payload/src/strategy/state/mod.rs:412-425 | in every run blob gas adds up to that of the block's transactions and at most six blobs, and each transaction is recorded with the lesser of its priority fee and what its cap leaves, per gas used |
| BlockTheorems.LeftOutExplained | crates/payload/src/strategy/bundle/strat.rs:97-129 | a bundle left out was blacklisted, shares a transaction with an earlier accepted bundle of at least its value, or failed again at its turn; values never increase |
| Clock.CurrentSlotIff | crates/consensus_layer/src/clock.rs:59-68 | the current slot is the one slot whose time has come and whose successor's has not |
| Clock.MillisBracketNanos | crates/consensus_layer/src/clock.rs:88-93 | the signed milliseconds are the nanoseconds to the slot's start without their fraction, on either side of it |
| Clock.TimeLeftNeverGrows | crates/consensus_layer/src/clock.rs:88-93 | the signed time left never grows as time passes, through the truncating division |
| Policy.SurplusWithinWindow | crates/payload/src/bidder/policy.rs:254-262 | the surplus starts at the minimum, ends at the larger bound and stays between them inside the window |
| Policy.SurplusIsShare | crates/payload/src/bidder/policy.rs:254-262 | the surplus is the minimum plus the share of the spread for the part of the window that has passed |
| Policy.LinearBidOutbids | crates/payload/src/bidder/policy.rs:264-274 | a linear bid outbids the auction by exactly the surplus, unless subsidy plus net value is less: then it is that |
| Policy.NewLinearSurplus | crates/payload/src/bidder/policy.rs:209-230 | the subsidy is the largest that the targeted number of blocks fits into the budget, the bounds are those given |
| Policy.OtherBidsIff | crates/payload/src/bidder/policy.rs:166-188 | the policy without profit bids exactly from the offset on with a block, its net value, which is 0 only if the value does not exceed the gas |
| Policy.BidIff | crates/payload/src/bidder/policy.rs:235-278 | when the linear policy bids at all, including 256-bit overflow |
| Policy.BidWithinBounds | crates/payload/src/bidder/policy.rs:264-274 | a bid lies between the best auction bid and subsidy plus net block value, and inside the window exceeds the auction bid by at most the larger surplus |
| Policy.BidNeverFalls | crates/payload/src/bidder/policy.rs:235-278 | for a fixed auction state in which there is a bid, there is one at a later wall-clock time exactly if outbidding the auction does not overflow then, and the bid never decreases |
| Policy.NoProfitCovered | crates/payload/src/bidder/policy.rs:166-188 | bid plus payment gas equals the block value, or the bid is 0 |
| BidderTheorems.BudgetHolds | crates/payload/src/bidder/policy.rs:209-278 | in every bidder run, winning with at most the targeted number of its submissions costs at most the monthly budget beyond the net values of the builds submitted |
| Bidder.BidderService.Poll | crates/payload/src/bidder/service.rs:200-349 | one poll takes auction starts, the top bid, builds and the bid in that order, and ends early on a closed channel |
| BidderPolls.PollTakesIn | crates/payload/src/bidder/service.rs:203-308 | in every run a poll starts the auction of the first message with the highest slot if that is later, adds the builds of the auction's slot and the answer to what the auction has, and asks anew unless a request is unanswered |
| BidderPolls.PollSubmits | crates/payload/src/bidder/service.rs:310-349 | in every run a poll that runs to its end in an auction submits exactly the best block with the policy's bid at the clock's time, if there are both; any other submits nothing |
| BidderPolls.PollEndsIffClosed | crates/payload/src/bidder/service.rs:203-308 | only a closed channel ends the service, for good |
| BidderPolls.RunSubmits | crates/payload/src/bidder/service.rs:310-349 | the submissions of a run are exactly those due in its polls, in order |
| BidderTheorems.RunIsSound | crates/payload/src/bidder/service.rs:200-349 | in every run slots strictly increase, the best block is the earliest build of maximal value received for the current slot since its auction began, and submissions carry a build of their slot and bid no more than its value less the payment's gas, plus the subsidy under the linear policy |
| AuctionRecords.RunIsTracked | crates/payload/src/bidder/policy.rs:66-84 | in every run bid count, best and last bid are the number, maximum and last of the bids submitted for the slot; best and last auction bid are those of the answers counted, all but possibly the first of which were asked for in this auction |
| AuctionRecords.AnswerIsOwnIff | crates/payload/src/bidder/service.rs:204-248 | in every run an answer counted was asked for in the auction it counts for exactly when no auction start was accepted while the request was outstanding |
| AuctionRecords.BestIsOfOwnAnswersIff | crates/payload/src/bidder/service.rs:224-248 | the best auction bid is the maximum of the auction's own answers exactly when the first answer counted is its own, is 0, or is matched by a later one |
| AuctionRecords.StaleAnswerCounts | crates/payload/src/bidder/service.rs:224-248 | for any two slots, blocks and times, an answer asked for in the earlier auction becomes the best auction bid of the later one |
| Attempts.AttemptImproves | crates/payload/src/strategy/bundle/mod.rs:88-105 | whatever a build attempt returns as better is for its slot and strictly above the best value it was started with; an attempt nobody cancels never reports itself cancelled |
| Attempts.RunAttempt | crates/payload/src/job/stream_job.rs:82-112 | one attempt in full: its outcome is the strategy's against the best build given, an error exactly on a bundle's EVM error, and the candidate handed out stands for the build state made |
| StreamJob.StreamBuildJob.Poll | crates/payload/src/job/stream_job.rs:75-164 | spawns only when nothing is in flight, keeps and sends better builds, retries after errors, finishes at the deadline |
| StreamJob.RunStreams | crates/payload/src/job/stream_job.rs:75-164 | for every job whose attempts are runs of the strategy: never two attempts in flight, the snapshot an attempt was started with is still the best, and what is sent strictly increases from above zero |
| StreamJob.RunFollows | crates/payload/src/job/stream_job.rs:75-164 | for such a job what is sent is exactly the better builds polled in time, in order, the best being the last; an attempt is in flight exactly while the last poll in time left one unfinished, and each poll that finds none starts one with the reads returned before |
| Streaming.LastReceivedIsBest | crates/payload/src/bidder/service.rs:250-308 | with one job for the slot, its attempts being runs of the strategy, the bidder's best block is always the build received last |
| PayloadService.PayloadBuilderService.Sweep | crates/payload/src/service/mod.rs:215-234 | every job present is polled exactly once despite swap-remove and push; what is left is a rearrangement of the pending ones |
| PayloadService.PayloadBuilderService.Handle | crates/payload/src/service/mod.rs:241-277 | effect and reply of one command |
| PayloadServiceTheorems.ReplyIsOfTheJob | crates/payload/src/service/mod.rs:186-277 | every query of an id with a job is answered by that job, a build for it changes nothing, and a resolve hands out its future and keeps it only if it asks to be kept |
| PayloadServiceTheorems.ReplyWithoutJob | crates/payload/src/service/mod.rs:240-277 | without a job of the id there is nothing to report, and a build creates what the generator makes |
| PayloadServiceTheorems.SweepKeepsPolledState | crates/payload/src/service/mod.rs:215-233 | a sweep leaves exactly the pending jobs, each as its poll left it |
| PayloadService.PayloadBuilderService.PollService | crates/payload/src/service/mod.rs:208-284 | the loop ends on a finite queue, every command taken gets exactly one reply, in order, and no job is created after the last sweep |
| PayloadServiceTheorems.RunConserves | crates/payload/src/service/mod.rs:208-284 | over all runs ids stay distinct and, per id, jobs at the end plus departed equal jobs at first plus created |
| PayloadServiceTheorems.PollsConserve | crates/payload/src/service/mod.rs:208-284 | the same over any number of polls, each starting with the table the one before left |
| PayloadServiceTheorems.LeavesOnlyWhenDone | crates/payload/src/service/mod.rs:186-233 | a job leaves only by finishing, failing or a resolve that does not keep it alive |
| PayloadServiceTheorems.ReplyIgnoresOrder | crates/payload/src/service/mod.rs:212-214 | replies do not depend on the order of the job table |
| BundlePool.Pool.AddBundle | crates/bundles/src/inner.rs:81-111 | the pool and its four indexes after adding, replacement included |
| BundlePool.Pool.CancelBundle | crates/bundles/src/inner.rs:147-166 | the pool after cancelling; the uuid and maximum timestamp indexes are left alone |
| BundlePool.Pool.HandleReplacementUuid | crates/bundles/src/inner.rs:249-257 | cancels the first hash of a known uuid, otherwise indexes it; fails when that hash is no longer live |
| BundlePool.Pool.PruneBundles | crates/bundles/src/inner.rs:173-210 | removes exactly the prunable bundles and their index entries; the counts add up to the old size |
| BundlePoolTheorems.ReachableIsIndexed | crates/bundles/src/inner.rs:81-257 | in every reachable state live bundles are indexed under their block and every uuid list has length at most one |
| BundlePoolTheorems.QueryIsLinearScan | crates/bundles/src/inner.rs:114-144 | in every reachable state, re-adding included, the query finds exactly what a linear scan of the live bundles finds |
| BundlePoolTheorems.QueryHonoursBounds | crates/bundles/src/bundle.rs:65-106 | in every reachable state a query returns exactly the live bundles of its block with minimum and maximum timestamps around the time, both included |
| BundlePoolTheorems.LiveFollows | crates/bundles/src/inner.rs:81-210 | what is live after every operation: an added bundle, less the one its uuid stands for, less what is cancelled or pruned |
| BundlePoolTheorems.UuidIndexIsStanding | crates/bundles/src/inner.rs:249-257 | in every reachable state a uuid stands for the first bundle added with it, until that is pruned while live |
| BundlePoolTheorems.QueryInArrivalOrder | crates/bundles/src/inner.rs:114-128 | with distinct added hashes each match appears once, in arrival order |
| BundlePoolTheorems.QueryDistinctIffListedOnce | crates/bundles/src/inner.rs:114-128 | in every reachable state a query returns no hash twice exactly when each live matching bundle is listed once under its block |
| BundlePoolTheorems.ListedAsOftenAsAdded | crates/bundles/src/inner.rs:81-257 | in every reachable state a hash is listed under a block as often as it was added for that block since the list last lost it to a cancel, a replacement or a prune |
| BundlePoolTheorems.QueryDistinctIffAddedOnce | crates/bundles/src/inner.rs:81-257 | hence a query returns no hash twice exactly when each live matching hash was added once for its block since then |
| BundlePoolTheorems.CancelledHashIsListedTwice | crates/bundles/src/inner.rs:147-166 | a hash added for one block, then for another, cancelled and added for the first again is returned twice |
| BundlePoolTheorems.ReplacesAllIff | crates/bundles/src/inner.rs:249-257 | an added bundle is the only live one of its uuid exactly when every other live one is the first indexed |
| BundlePoolTheorems.ThirdBundleDoesNotReplace | crates/bundles/src/inner.rs:249-257 | three bundles of one uuid leave two live |
| BundlePoolTheorems.PrunedIffNeverMatches | crates/bundles/src/bundle.rs:67-106 | a bundle is prunable exactly when no query from that block on at that time can return it |
| BundlePoolTheorems.PruneCleansIndexes | crates/bundles/src/inner.rs:185-196 | no removed hash is left in any index |
| BundlePoolTheorems.PruneIsIdempotent | crates/bundles/src/inner.rs:173-210 | pruning twice is pruning once |
| BundlePoolTheorems.PruneIsInvisible | crates/bundles/src/inner.rs:173-210 | queries for the pruning time from the pruning block on keep their result sequence |
| BundlePoolTheorems.QueryAfterPrune | crates/bundles/src/inner.rs:173-210 | any query after pruning is the query before less the pruned bundles, in order |
| BundlePoolTheorems.ServicePruneKeepsQueryIff | bin/builder/src/service.rs:142-147 | the service's prune keeps the coming build's query exactly when none of its bundles became active within the last slot |
| BundlePoolTheorems.ServicePruneDropsBundle | bin/builder/src/service.rs:142-147 | a bundle that became active within the last slot is pruned and missing from the coming build's query that would have found it |
| RelayBidCache.BidCache.Insert | crates/relay/src/internal_relay.rs:29-42 | for any insertion order, a block is present exactly when inserted and less than 4 behind the highest, with all its bids in order |
| RelayBidCache.BidCache.Resize | crates/relay/src/internal_relay.rs:45-54 | removes exactly the blocks at least 4 behind the last |
| RelayBidCache.BidCache.GetAllBids | crates/relay/src/internal_relay.rs:57-59 | all bids ever inserted for a visible block, nothing otherwise |
| RelayBidCache.BidCache.GetBestBid | crates/relay/src/internal_relay.rs:62-72 | the latest inserted bid of maximal value traced before the time, none exactly when there is none |
| RelayBidCache.BestIndexIsBest | crates/relay/src/internal_relay.rs:64-69 | the scan finds the last maximum among the early enough bids |
| RelayBidCache.HeldIff | crates/relay/src/internal_relay.rs:29-54 | a block is held exactly if a bid was inserted for it and none for a block 4 or more higher, and holds each of its bids as often as inserted |
| RelayBidCache.AtMostFourBlocks | crates/relay/src/internal_relay.rs:45-54 | at most 4 blocks are held |
| RelayBidCache.ExpiredStaysExpired | crates/relay/src/internal_relay.rs:29-54 | a block that fell behind never becomes visible again |
| GasLimit.SuggestGasLimit | crates/primitives/src/validator.rs:33-63 | the suggestion in wrapping 64-bit arithmetic |
| GasLimit.SuggestsNearest | crates/primitives/src/validator.rs:33-63 | from a parent of 1024 on and without wrapping, the suggestion is the limit nearest to the target, or to 5000 if that is more, among all that differ from the parent by less than a 1024th |
| GasLimit.ValidIffNoWrap | crates/primitives/src/validator.rs:33-63 | for every parent and target the suggestion satisfies the EIP-1559 bounds exactly when it does not wrap and the parent is at least 4997 |
| GasLimit.RaisesIff | crates/primitives/src/validator.rs:41-53 | when more is desired the limit rises exactly from a parent of 2048 on and without wrapping; it stays put from 1024 to 2047 and falls by 1 below |
| GasLimit.ChainValidIff | crates/primitives/src/validator.rs:33-63 | in every chain with arbitrary targets from at least 5000, the limits are valid successors of one another exactly when no step wraps |
| GasLimit.Approaches | crates/primitives/src/validator.rs:41-62 | with a fixed target, as long as no step wraps, the limit moves monotonically without overshoot, at least 3 closer per block |
| GasLimit.Converges | crates/primitives/src/validator.rs:41-62 | as long as no step wraps the target, or 5000 if that is more, is reached after at most a third of the distance in blocks and kept |
| GasLimit.RoomKeepsInRange | crates/primitives/src/validator.rs:41-62 | no step wraps if the limit has to fall or one step above the target fits in 64 bits |

## Left out

- EVM semantics, state and receipt roots, logs and blooms, withdrawals, blob sidecars, excess blob gas and sealing; the EVM is a function.
- The pre-block beacon root call: the model starts from the state after it.
- Failing database reads and client lookups; the corresponding errors do not occur in the model.
- 64-bit overflow of gas sums. The sums of fees and transfers are unbounded, and so are the statements about gain; block values are compared as the 256-bit words they wrap to, and refunds, bids, the auction and the gas limit have their words modelled.
- The panic on a transaction that executes although its fee cap is below the base fee; the model then records no fees.
- The 128-bit range of signed milliseconds; times are unbounded integers, and Policy.Sane bounds differences where it matters.
- Which blacklisted address was detected; only that one was.
- Decoding and sender recovery of raw bundle transactions; builds start from recovered bundles.
- The link from pool bundles to recovered bundles, and the lock timeout around the pool.
- Finalizing a submission asynchronously and sending it to relays; a submission is recorded when it is spawned.
- The market share product; the number of targeted blocks is a parameter and must not be 0.
- The interval job, the mempool-only and empty strategies, the Devnet gas refund and the validator schedule: weaker copies or table lookups.
- Signatures, hashing, SSZ, gRPC, RPC handlers, relay clients and aggregator, consensus events, command line, metrics, logging.
