# Claim batching service: a Dafny model

This project models `ClaimBatchingService`, the core of a Laravel application for submitting health-insurance claims. The service does four things:

- **Assignment.** It puts every newly submitted claim into a batch keyed by (provider, insurer, batch date). The batch date is the encounter date or the submission date, as the insurer prefers.
- **Scheduling.** Once a day it processes the batches that are due. It skips batches below the insurer's minimum size and defers batches that would take the insurer over its daily capacity.
- **Re-optimisation.** Every night it rebalances tomorrow's batches. Too-small batches are deleted, merged into another batch or topped up. Too-large batches hand their excess claims to the same provider's smaller batches, or to a new batch.
- **Statistics.** The nightly run reports how many batches it analysed and modified, and the cost before and after.

The database is the class `Store.Database`. Its `claims` field is a sequence indexed by claim id. Its `batches` field is a map from batch id to row. `nextBatchId` is the auto-increment counter. The insurers, the provider names and the cost function are constants. `Valid()` states the service's central invariant: every batch's `total_claims` and `total_amount` equal the count and the sum over its member claims, and batch identifiers are unique.

Each operation of the service is a method that changes the store. Each method is proved against a specification function or predicate, and the properties the service promises are lemmas about those functions:

- `Assignment` holds processClaim and createNewBatchIfNeeded.
- `Scheduler`, over the pure `Schedule` and `DailyPass`, holds processReadyBatches.
- `Reoptimizer` holds reoptimizeBatches. It uses `Rebalancer` for rebalanceSmallBatches, `LargePass` and `Spreading` for rebalanceLargeBatches, and `ClaimMoves` for the claim moves and for createNewBatchForProvider. The pure decisions are in `Rebalance`, and the statistics in `Reoptimize`.
- `Store.UpdateBatchTotals` is updateBatchTotals.
- `CostModel` holds the factors of calculateBatchProcessingCost.

Dates are whole day numbers. Claim amounts are whole cents. Costs are reals. A batch identifier is the value `Identifier(provider name, batch date, optional "#N" suffix)`. Rows come back in id order where the source gives no ORDER BY, claims with the same priority_level come back in id order under ORDER BY priority_level, and creation order is id order.

Three behaviours of the code worth noting:
- reoptimizeBatches runs in one transaction for all insurers, not one per insurer group;
- the first batch of a key gets the plain identifier, without a "#N" suffix, so a taken identifier makes processClaim fail;
- raising an insurer's daily capacity can lower the number of batches processed (`Schedule.CapacityNotMonotone`).

## Model

| member | source | states |
|---|---|---|
| Store.Database.Valid | app/Services/ClaimBatchingService.php:530-540 | The store's invariant: every claim points at an existing batch or at none, ids lie below the auto-increment counter, and batch identifiers are unique, and every batch's total_claims and total_amount are those of its member claims, as updateBatchTotals derives them. |
| Store.Database.CreateBatch | app/Services/ClaimBatchingService.php:51-61 | Batch::create is refused with nothing changed exactly when the identifier is taken (unique index). Otherwise it adds an empty, unprocessed row under the next id, and every total stays right. |
| Store.Database.SubmitClaim | app/Http/Controllers/ClaimController.php:57-66 | A submitted claim is appended in no batch, and no batch row or total changes. |
| Store.Database.Reassign | app/Services/ClaimBatchingService.php:64-65 | Setting a claim's batch_id changes that claim's batch link and nothing else. |
| Store.Database.Save | app/Services/ClaimBatchingService.php:227-228 | Saving a row replaces exactly that row, and identifiers stay unique. |
| Store.Database.Delete | app/Services/ClaimBatchingService.php:347 | Deleting a batch that has no member claims removes exactly that row and keeps the invariant. |
| Store.Database.MarkClaimsProcessed | app/Services/ClaimBatchingService.php:235-236 | The bulk update marks exactly the claims of the batch processed and leaves every other claim as it was. |
| Store.Database.Restore | app/Services/ClaimBatchingService.php:275 | A rollback puts back the claims and batches as they were. |
| Store.Database.Tally | app/Services/ClaimBatchingService.php:532-534 | COUNT(*) and SUM(total_amount) over the claims of a batch are its member count and amount. |
| Store.Retotalled | app/Services/ClaimBatchingService.php:536-538 | The re-derived row has its members' count and amount, and differs from the old row only in totals and cost. |
| Store.UpdateBatchTotals | app/Services/ClaimBatchingService.php:530-540 | Afterwards the batch's totals agree with its claims. Only that row changes. On a batch already up to date it changes nothing (re-deriving twice gives the same totals). |
| Ledger.UpdateAt | app/Services/ClaimBatchingService.php:384-386 | Changing one claim shifts each batch's count and amount by exactly that claim's old and new contribution. |
| Ledger.CountZero | app/Services/ClaimBatchingService.php:346-347 | A batch has count 0 exactly when no claim points at it. |
| Ledger.SameLinks | app/Services/ClaimBatchingService.php:235-236 | Totals depend only on each claim's batch and amount, so marking claims processed leaves them. |
| Ledger.AppendUnbatched | app/Services/ClaimBatchingService.php:21-31 | A new claim in no batch leaves every batch's count and amount as they were. |
| Assignment.FindOpenBatch | app/Services/ClaimBatchingService.php:35-40 | The result is the first unprocessed batch for (provider, insurer, batch date), or None exactly when there is no such batch. |
| Assignment.ScheduledLoad | app/Services/ClaimBatchingService.php:43-46 | The sum of total_claims over the insurer's unprocessed batches due on the given day. |
| Assignment.CountProviderDate | app/Services/ClaimBatchingService.php:113-115 | The number of batches of any insurer with this provider and batch date. |
| Assignment.HasOpenWithRoom | app/Services/ClaimBatchingService.php:104-109 | True exactly when some open batch for the key has fewer claims than the maximum. |
| Assignment.CreateNewBatchIfNeeded | app/Services/ClaimBatchingService.php:102-130 | When an open batch has room, nothing changes. Otherwise an empty batch named "#(count+1)", due the next day, is added under the next id, or the call is refused with nothing changed when that identifier is taken. |
| Assignment.AddToBatch | app/Services/ClaimBatchingService.php:64-75 | The claim points at the batch, whose totals grow by one claim and its amount and are again right. No other row changes. |
| Assignment.OverflowIfFull | app/Services/ClaimBatchingService.php:77-79 | A batch at or over the maximum gets an empty overflow batch unless an open batch with room exists. A refused insert is reported. The batch itself is untouched. |
| Assignment.AttachAndOverflow | app/Services/ClaimBatchingService.php:64-79 | Attach, re-derive, then the overflow rule. On a refusal nothing has changed. |
| Assignment.StartBatch | app/Services/ClaimBatchingService.php:42-81 | With no open batch: a base batch is created and holds exactly the claim. It is due the day after the batch date, or two days after when the next day's load plus one reaches capacity. Refused with nothing changed when an identifier is taken. |
| Assignment.ProcessClaim | app/Services/ClaimBatchingService.php:21-92 | The claim joins the first open batch for its key, or a new base batch. The totals are right and the overflow rule holds. A None result means nothing changed, and happens exactly when an identifier was taken. |
| CostModel.ClampPriority | app/Services/ClaimBatchingService.php:165 | The priority level is clamped into 1..5, and levels already in range are kept. |
| CostModel.PriorityFactorRange | app/Services/ClaimBatchingService.php:165-166 | The priority factor lies in [1.0, 1.8] and is monotone in the level. |
| CostModel.TimeOfMonthFactorRange | app/Services/ClaimBatchingService.php:150 | The time-of-month factor lies in [0.2, 0.5] and grows through the month: 0.2 on day 1, 0.5 on the last day. |
| CostModel.SizeFactorBands | app/Services/ClaimBatchingService.php:175-184 | Undersized batches pay up to 20% more and oversized ones up to 15% more. Batches within bounds get up to 10% off. |
| CostModel.OptimalSizeDiscount | app/Services/ClaimBatchingService.php:175-183 | A batch of exactly the optimal size gets the full 10% discount. |
| CostModel.SizeFactorPositive | app/Services/ClaimBatchingService.php:175-184 | The size factor is always positive. |
| CostModel.Round2 | app/Services/ClaimBatchingService.php:186 | Rounding to two places moves the value by at most 0.005. |
| CostModel.ClaimCostNonNegative | app/Services/ClaimBatchingService.php:168-170 | A claim of non-negative amount has a non-negative cost. |
| CostModel.RawCostNonNegative | app/Services/ClaimBatchingService.php:157-173 | The summed claim costs of a batch are non-negative when amounts and efficiency factors are. |
| CostModel.Round2NonNegative | app/Services/ClaimBatchingService.php:186 | Rounding keeps a non-negative cost non-negative. |
| Ordering.SortByKey | app/Services/ClaimBatchingService.php:214-215 | The ids sorted by (key, id): the unique ascending arrangement of the set. |
| Ordering.SortedUnique | app/Services/ClaimBatchingService.php:214-215 | Two ascending arrangements of the same ids are equal, so the query order is determined. |
| Ordering.HeadLeast | app/Services/ClaimBatchingService.php:214-215 | The first of a sorted result is the least by (key, id). |
| ClaimMoves.Selection | app/Services/ClaimBatchingService.php:380-382 | A LIMIT k query returns min(k, size) distinct member claims of the batch. |
| ClaimMoves.SelectionTakesLowest | app/Services/ClaimBatchingService.php:449-452 | A query cut at k never passes over a member with a lower priority level (or, without ORDER BY, a lower id) for one with a higher. |
| ClaimMoves.SelectionAll | app/Services/ClaimBatchingService.php:367-368 | A query whose limit covers the batch returns every member. |
| ClaimMoves.ReassignedCounts | app/Services/ClaimBatchingService.php:384-387 | Pointing n distinct members of src at dst moves exactly n claims from src to dst, and every other batch's count and amount stay. |
| ClaimMoves.MoveInOrder | app/Services/ClaimBatchingService.php:384-387 | The per-claim save loop leaves exactly the listed claims moved, with the counts shifted by their number. |
| ClaimMoves.MoveClaims | app/Services/ClaimBatchingService.php:380-387 | Query then loop: exactly the selected claims now point at dst. |
| ClaimMoves.Transfer | app/Services/ClaimBatchingService.php:380-390 | Move up to k claims and re-derive both batches. Every total is right, the two counts shift by the number moved, and only those two rows change. |
| ClaimMoves.CreateNewBatchForProvider | app/Services/ClaimBatchingService.php:504-521 | An empty batch named "#(count+1)", due the day after the batch date, under the next id. Refused with nothing changed when the identifier is taken. |
| Rebalance.Keep | app/Services/ClaimBatchingService.php:300-306 | A collection filter keeps exactly the members that satisfy the predicate, in order. |
| Rebalance.Group | app/Services/ClaimBatchingService.php:284 | groupBy: exactly the loaded batches of the insurer, in load order. |
| Rebalance.TooSmall | app/Services/ClaimBatchingService.php:300-302 | Exactly the group's batches below the minimum. |
| Rebalance.TooLarge | app/Services/ClaimBatchingService.php:304-306 | Exactly the group's batches above the maximum. |
| Rebalance.BestMergeTarget | app/Services/ClaimBatchingService.php:351-364 | A receiver (another batch of the same provider below the maximum), or None exactly when there is none. |
| Rebalance.BestMergeTargetIsClosest | app/Services/ClaimBatchingService.php:355-364 | The target is closest to the middle of [min, max], and no equally close receiver comes before it (stable sortBy, then first()). |
| Rebalance.SplitOrder | app/Services/ClaimBatchingService.php:410-414 | Exactly the receivers of the large batch, by ascending size, with ties in id order. |
| Rebalance.StaleSnapshotPicksDeletedBatch | app/Services/ClaimBatchingService.php:351-372 | Candidates drawn from the group as loaded can pick a batch deleted earlier in the pass as a merge target. The live table offers none. |
| Rebalancer.SmallStep | app/Services/ClaimBatchingService.php:345-392 | What one too-small batch's move does: an empty batch is deleted, a batch with no receiver stays, a merge moves every claim to the target and deletes the batch, a top-up moves the first k claims in row (id) order, as the query without ORDER BY returns them. Totals and cost are re-derived. |
| Rebalancer.SmallDecision | app/Services/ClaimBatchingService.php:345-392 | Drop exactly the empty batch, stay exactly when no live receiver exists, merge only when both fit within the maximum, and otherwise top up the target exactly to the maximum. |
| Rebalancer.DropEmpty | app/Services/ClaimBatchingService.php:346-348 | Deleting the empty batch is the Drop step. |
| Rebalancer.MergeInto | app/Services/ClaimBatchingService.php:366-372 | The bulk update, the target re-derived and the source deleted form the Merge step. |
| Rebalancer.TopUpFrom | app/Services/ClaimBatchingService.php:374-391 | Moving k claims in row order and re-deriving both batches is the TopUp step. The source loses exactly min(k, size). |
| Rebalancer.ApplySmall | app/Services/ClaimBatchingService.php:345-392 | Carrying out a decision leaves the state its step describes. |
| Rebalancer.RebalanceOneSmall | app/Services/ClaimBatchingService.php:345-392 | One too-small batch is handled as SmallDecision says, over the live table. |
| Rebalancer.MergeKept | app/Services/ClaimBatchingService.php:366-372 | A full merge never takes the target over the maximum, keeps every total right, and touches only the group. |
| Rebalancer.SmallStepKeeps | app/Services/ClaimBatchingService.php:345-392 | Every small step keeps the totals right and only moves claims out of the small batch. It deletes or creates nothing outside it, and pushes no batch over the maximum. |
| Rebalancer.SmallPassKeeps | app/Services/ClaimBatchingService.php:343-394 | The whole small pass keeps those guarantees: claims are moved, never lost. |
| Rebalancer.SmallPass | app/Services/ClaimBatchingService.php:343-394 | The too-small pass: each too-small batch in turn, passed over once deleted, takes its SmallDecision against the current rows and the resulting SmallStep. |
| Rebalancer.RebalanceSmall | app/Services/ClaimBatchingService.php:343-394 | The small-pass loop ends in exactly the state of the specification SmallPass. |
| Spreading.Spread | app/Services/ClaimBatchingService.php:438-466 | The receivers loop's invariant after j receivers: moved claims taken from the large batch, every visited receiver full (the last one may not be once the excess is placed), those from j on untouched, claims moved only into the visited receivers and taken lowest-priority first. |
| Spreading.SpreadDone | app/Services/ClaimBatchingService.php:438-468 | What the receivers loop leaves: at most the excess placed, short of it only when every receiver is full, a receiver changed only when every earlier one is full, claims moved only out of the large batch into receivers, and no batch within the maximum pushed over it. |
| Spreading.MoveTakesLowest | app/Services/ClaimBatchingService.php:449-452 | Claims moved by an ORDER BY priority_level query are the large batch's lowest-priority ones. |
| Spreading.LowestTrans | app/Services/ClaimBatchingService.php:441-466 | Rounds that each take the lowest claims together take the lowest claims. |
| Spreading.SpreadStep | app/Services/ClaimBatchingService.php:441-461 | One round of the receivers loop keeps the loop invariant. Receivers visited are full unless the excess ran out, and later ones are untouched. |
| Spreading.SpreadFinish | app/Services/ClaimBatchingService.php:438-466 | At the loop's exit: at most the excess placed. Less only when every receiver is full. Claims moved only from the large batch into the receivers. |
| LargePass.SpreadRound | app/Services/ClaimBatchingService.php:441-461 | One round moves a positive number of claims (the source's break on a non-positive amount is never taken) and keeps the invariant. |
| LargePass.SpreadLoop | app/Services/ClaimBatchingService.php:438-466 | The loop stops when the excess is placed or the receivers run out, with the invariant. |
| LargePass.SpreadExcess | app/Services/ClaimBatchingService.php:438-468 | The receivers loop leaves the SpreadDone state over the state it started from. |
| LargePass.SpreadPhase | app/Services/ClaimBatchingService.php:438-468 | With no receivers nothing moves; otherwise the receivers loop, ending in SpreadDone. |
| LargePass.SplitOff | app/Services/ClaimBatchingService.php:417-436 | A new batch for the provider and min(k, size) of the large batch's lowest-priority claims moved into it. Refused with nothing changed for an unknown provider or a taken identifier. |
| LargePass.SplitRest | app/Services/ClaimBatchingService.php:470-491 | What the receivers could not take goes to one new batch of the group's insurer. |
| LargePass.SplitPhase | app/Services/ClaimBatchingService.php:470-491 | A new batch is made exactly when the receivers took less than the excess, and then holds the rest. |
| LargePass.StaleSnapshotSplitsIntoDeletedBatch | app/Services/ClaimBatchingService.php:410-414 | As written: the too-small pass drops an empty overflow batch, and the loaded group still offers it as the first receiver of the large batch's excess. The live table offers none. |
| LargePass.SplitCandidates | app/Services/ClaimBatchingService.php:410-414 | The receivers in split order, distinct, within the group and below the maximum, drawn from the live rows, so a batch deleted earlier in the run is never a receiver. |
| LargePass.RebalanceOneLarge | app/Services/ClaimBatchingService.php:405-492 | A batch within the tolerance of 2 is left alone. Otherwise the large batch ends at the maximum and the excess goes to the live receivers in order, the rest to one new batch. Refusals are reported. |
| LargePass.LargeDone | app/Services/ClaimBatchingService.php:405-492 | What the pass leaves after one too-large batch. The batch holds the maximum. The excess went to the receivers in order, each changed only when the earlier ones are full. What they could not take, and only then, went to one new batch under the next id. Claims moved only out of the batch, and they were its lowest-priority ones. |
| LargePass.LargeRound | app/Services/ClaimBatchingService.php:405-492 | One turn of the large loop keeps the pass's invariant. |
| LargePass.LargeDoneKeeps | app/Services/ClaimBatchingService.php:405-492 | The invariant of the large pass survives the work on one more large batch. |
| LargePass.RebalanceLarge | app/Services/ClaimBatchingService.php:403-494 | Afterwards every large batch still present is within the tolerance and claims were moved, never lost, with receivers taken from the live rows. New batches belong to the insurer and no batch within the maximum was pushed over it. |
| Reoptimize.Insurers | app/Services/ClaimBatchingService.php:280-284 | The group keys: every insurer of the loaded batches, each once. |
| Reoptimize.InsurersHaveBatches | app/Services/ClaimBatchingService.php:284-286 | Every group key has a non-empty group. |
| Reoptimize.Summarise | app/Services/ClaimBatchingService.php:328-331 | savings = before - after. The percentage is within 0.005 of savings/before*100, or 0 when before is 0. |
| Reoptimize.Partition | app/Services/ClaimBatchingService.php:286-292 | Summing group by group gives the sum over all loaded batches. |
| Reoptimize.RunTallyGroups | app/Services/ClaimBatchingService.php:286-292 | The counters summed over the groups are per-batch sums over the loaded batches of those insurers. |
| Reoptimize.GroupTally | app/Services/ClaimBatchingService.php:286-324 | One insurer group's counters: its size and loaded cost always; for two or more batches also its re-read cost, and the re-read row count when the cost changed. |
| Reoptimize.RunTally | app/Services/ClaimBatchingService.php:286-324 | The run's counters, the sum of GroupTally over the handled groups in order. |
| Reoptimize.RunTallySnoc | app/Services/ClaimBatchingService.php:286-324 | The run's counters grow group by group by exactly each group's counters. |
| Reoptimize.RunTallyTotals | app/Services/ClaimBatchingService.php:286-292 | batches_analyzed is the number of loaded batches and cost_before their loaded cost. |
| Reoptimize.ReloadFrame | app/Services/ClaimBatchingService.php:315-319 | The re-query over a group's ids depends only on those rows. |
| Reoptimize.RunTallyFrame | app/Services/ClaimBatchingService.php:286-324 | Rebalancing one group leaves the counters of the other groups as they were. |
| Reoptimize.LoneBatchCountsAsSaved | app/Services/ClaimBatchingService.php:290-297 | As written, a lone batch counts in cost_before but never in cost_after, so a run that changes nothing reports its cost as saved. |
| Reoptimize.SplitBatchCountsAsSaved | app/Services/ClaimBatchingService.php:315-320 | As written, the cost moved to a split-off batch drops out of cost_after and is reported as saved. |
| Reoptimize.NewIds | app/Services/ClaimBatchingService.php:417-436 | Exactly the batches created during the run: those with ids from the counter at the start to the counter at the end. |
| Reoptimize.SettledRunTallyGroups | app/Services/ClaimBatchingService.php:286-324 | With the intended counters, cost_after is the open cost of the groups' due batches plus that of the new batches of those insurers. |
| Reoptimize.SettledAfterIsTotal | app/Services/ClaimBatchingService.php:286-324 | With the intended counters, batches_analyzed and cost_before are as before and cost_after prices every open due batch and every open new batch once. |
| Reoptimize.UnchangedRunSavesNothing | app/Services/ClaimBatchingService.php:286-324 | With the intended counters, a run that changes nothing reports no saving and no modified batch. |
| Reoptimizer.DueQueue | app/Services/ClaimBatchingService.php:280-283 | The loaded batches are exactly the unprocessed ones due on the day, in id order. |
| Reoptimizer.QueryDue | app/Services/ClaimBatchingService.php:280-283 | The query returns the DueQueue. |
| Reoptimizer.RebalanceGroup | app/Services/ClaimBatchingService.php:299-312 | The small and large passes over one group touch only that group. Claims only move out of it and no batch is pushed over the maximum. Every large batch still present is within tolerance and new batches belong to the insurer. |
| Reoptimizer.RebalancedLone | app/Services/ClaimBatchingService.php:294-297 | A group of one batch is skipped, so what the run has promised for the groups handled so far still holds. |
| Reoptimizer.RebalancedStep | app/Services/ClaimBatchingService.php:299-312 | Once a group of two or more is rebalanced, its batches loaded above the maximum are within the tolerance and those loaded within it stay within it, and the groups handled before keep that promise. |
| Reoptimizer.RegroupStep | app/Services/ClaimBatchingService.php:299-312 | Rebalancing one more group extends the run's progress, settles that group's batches under its insurer's maximum, and leaves the counters of the groups already done as they were. |
| Reoptimizer.Rollback | app/Services/ClaimBatchingService.php:275 | A failed run's rows come back. |
| Reoptimizer.GroupFrame | app/Services/ClaimBatchingService.php:286-324 | Rebalancing one group changes no row of another insurer's group. |
| Reoptimizer.HandleGroup | app/Services/ClaimBatchingService.php:287-324 | One turn of the group loop adds exactly that group's counters and extends the run's progress. |
| Reoptimizer.CountGroup | app/Services/ClaimBatchingService.php:314-324 | A group of two or more adds its size, its loaded cost and its re-read cost, plus the re-read row count when the costs differ. |
| Reoptimizer.HandleGroups | app/Services/ClaimBatchingService.php:286-325 | After the loop the counters are those of all the groups, or an error is reported for the caller to roll back. |
| Reoptimizer.ReoptimizeBatches | app/Services/ClaimBatchingService.php:260-334 | A failure rolls everything back. Otherwise the report is the summary of the groups' counters as written. batches_analyzed is the number of due batches and cost_before their cost. Claims only moved out of due batches. In every group of two or more, each batch loaded above the insurer's maximum ends within the tolerance, and each batch loaded within the maximum stays within it. |
| Reoptimizer.SettledCounters | app/Services/ClaimBatchingService.php:286-324 | The intended counters, computed group by group. |
| Reoptimizer.SettledApplies | app/Services/ClaimBatchingService.php:286-324 | After the run, open due batches keep their insurer and every new batch belongs to one of the run's insurers. |
| Reoptimizer.ReoptimizeBatchesSettled | app/Services/ClaimBatchingService.php:260-334 | The same run with the intended counters: cost_after is the cost of every open due batch and every open new batch. The groups settle under their maximum as in ReoptimizeBatches. |
| Schedule.Decide | app/Services/ClaimBatchingService.php:220-230 | A batch below its insurer's minimum (5 by default) is skipped. Otherwise it is processed exactly when the claims already counted plus its own fit the daily capacity (100 by default), and deferred when they do not. |
| Schedule.Charge | app/Services/ClaimBatchingService.php:238 | A processed batch adds its claims to its insurer's count and leaves every other insurer's count alone; a skipped or deferred batch changes nothing. |
| Schedule.Plan | app/Services/ClaimBatchingService.php:217-238 | One decision per batch of the page, with the counts threaded from batch to batch. |
| Schedule.PlanSkipsExactlyUndersized | app/Services/ClaimBatchingService.php:220-222 | A batch is skipped exactly when it is below its insurer's minimum (default 5). |
| Schedule.PlanCharges | app/Services/ClaimBatchingService.php:232-238 | Each insurer's count grows by exactly the claims of its processed batches. |
| Schedule.PlanWithinCapacity | app/Services/ClaimBatchingService.php:224-230 | Within a page an insurer's count never passes its capacity (default 100) or its starting count, whichever is larger. |
| Schedule.CapacityNotMonotone | app/Services/ClaimBatchingService.php:217-238 | Raising a capacity from 5 to 6 lowers the processed batches from 2 to 1 on batches of 6, 2 and 3 claims. |
| DailyPass.ReadyQueue | app/Services/ClaimBatchingService.php:211-215 | Exactly the unprocessed batches due today or earlier. |
| DailyPass.Window | app/Services/ClaimBatchingService.php:216 | A page is the slice of the query at the offset, of at most the page size, and short only at the end. |
| DailyPass.PageOfReady | app/Services/ClaimBatchingService.php:211-216 | A page holds distinct, existing, unprocessed batches. |
| DailyPass.Update | app/Services/ClaimBatchingService.php:226-233 | One decision writes only its own batch. |
| DailyPass.ApplyWrites | app/Services/ClaimBatchingService.php:217-247 | A page writes only its batches, never clears a processed flag, and leaves processed every batch it chose. |
| DailyPass.ApplyAt | app/Services/ClaimBatchingService.php:217-247 | Each batch of a page ends as its own decision leaves it. |
| DailyPass.ApplyShrinks | app/Services/ClaimBatchingService.php:217-247 | A page only takes batches out of the ready set. |
| DailyPass.Pass | app/Services/ClaimBatchingService.php:211-248 | The paged run from an offset on: each page of the ready queue at that offset is planned against the seeds, applied, and its processed ids are reported in order. An empty page ends the run, a short page is the last, and a full page moves the offset by the page size. |
| DailyPass.PassStep | app/Services/ClaimBatchingService.php:211-248 | The chunked run page by page: an empty page ends it, a short page is the last, and a full one leaves less to do. |
| DailyPass.RunGoesOn | app/Services/ClaimBatchingService.php:211-248 | A run that reaches a non-empty page ends with it when it is short, and otherwise continues from the next offset with less to do. |
| DailyPass.PendingDrops | app/Services/ClaimBatchingService.php:216 | A non-empty page leaves fewer ready batches from the next offset on, so the run ends. |
| SinglePass.DayRun | app/Services/ClaimBatchingService.php:211-238 | The table after the run as evidently intended: the whole ready queue in one pass, with counts carried from batch to batch. |
| SinglePass.DayProcessed | app/Services/ClaimBatchingService.php:211-246 | The ids that single pass processes, in queue order. |
| SinglePass.DayRunWithinCapacity | app/Services/ClaimBatchingService.php:224-238 | Over a whole day of the intended run, no insurer's processed claims pass its capacity (or what was already processed). |
| SinglePass.DayRunLeavesOnlyUndersized | app/Services/ClaimBatchingService.php:217-238 | After the intended run, exactly the undersized ready batches are still ready. |
| SinglePass.DayRunAtQueued | app/Services/ClaimBatchingService.php:217-238 | The k-th ready batch stays ready after the intended run exactly when it is undersized. |
| SinglePass.DropProcessed | app/Services/ClaimBatchingService.php:211-215 | Processing a ready batch removes it from the ready query and keeps the order of the rest. |
| SinglePass.PagedRunStopsEarly | app/Services/ClaimBatchingService.php:211-216 | With pages of one, when the first of two ready batches is processed the second query comes back empty. |
| SinglePass.PagedRunRecounts | app/Services/ClaimBatchingService.php:216-238 | With pages of one, the third batch is decided against the seed counts as if the first had not been processed. |
| SinglePass.PagedRunSkipsReadyBatch | app/Services/ClaimBatchingService.php:211-238 | As written, a ready batch of full size is never looked at. The intended run processes it. |
| SinglePass.PagedRunExceedsCapacity | app/Services/ClaimBatchingService.php:216-238 | As written, an insurer of capacity 100 is charged two batches of more than 50. The intended run defers the second. |
| Scheduler.SeedMap | app/Services/ClaimBatchingService.php:201-206 | The grouped SUM(total_claims) over batches processed today, per insurer, built in id order. |
| Scheduler.SeedMapSums | app/Services/ClaimBatchingService.php:201-206 | Each insurer's seed is the sum of total_claims of its batches processed today. |
| Scheduler.SeedCounts | app/Services/ClaimBatchingService.php:201-206 | The grouped SUM query yields the seed map. |
| Scheduler.QueryReady | app/Services/ClaimBatchingService.php:211-215 | The ready query returns the ReadyQueue. |
| Scheduler.MarkAllTwice | app/Services/ClaimBatchingService.php:235-236 | Marking the claims of two runs of batches in turn marks those of both. |
| Scheduler.Postpone | app/Services/ClaimBatchingService.php:226-229 | A deferred batch is due tomorrow, with nothing else changed. |
| Scheduler.MarkProcessed | app/Services/ClaimBatchingService.php:232-236 | The batch and exactly its claims are marked processed. |
| Scheduler.HandleBatch | app/Services/ClaimBatchingService.php:217-238 | One batch: the decision the counts dictate, its write, its charge, and its claims marked when processed. |
| Scheduler.ProcessPage | app/Services/ClaimBatchingService.php:216-248 | A page ends in exactly the table its plan writes, reporting the processed batches in order. |
| Scheduler.RunPages | app/Services/ClaimBatchingService.php:211-248 | The chunked loop ends in exactly the table and report of DailyPass.Pass. |
| Scheduler.ProcessReadyBatches | app/Services/ClaimBatchingService.php:195-252 | processReadyBatches as written: seeds from today's processed batches, then exactly the chunked run. |
| Scheduler.ProcessReadyBatchesOnce | app/Services/ClaimBatchingService.php:195-252 | The intended run: exactly the single pass, so capacity holds and only undersized batches stay ready. |
| Scheduler.ReportedAfterPage | app/Services/ClaimBatchingService.php:240-246 | The summaries after a page are those of all batches processed so far, in order, with their final rows. |

## Left out

- Cost: calculateBatchProcessingCost (app/Services/ClaimBatchingService.php:139-187) stays an abstract function `Database.cost` of a batch's member claims, id and processing date. `CostModel` states its factors and their bounds, with `log10` and the month length as parameters. No lemma ties the abstract function to `CostModel.BatchCost`, because the nonlinear real arithmetic does not verify reliably.
- Float arithmetic and the decimal(12,2) columns are modelled as exact reals and integers, and rounding only by its 0.005 bound.
- The eager-loaded relations of reoptimizeBatches are not modelled: a cost re-derived from a loaded batch may read its claims relation as loaded. The model re-derives every cost from the current members.
- `SUM(total_amount)` over no rows is NULL in SQL. The model uses 0.
- Concurrency is left out because the model is sequential: the three-attempt retry of processClaim's transaction, `lockForUpdate`, and interleaving with other requests. The save-point of the caller's transaction is left out too.
- Logging (app/Services/ClaimBatchingService.php:84-89) is left out. A failed processClaim returns None with nothing changed.
- Carbon dates are whole day numbers. The 'M j Y' formatting is the `Identifier` value, so two identifiers are taken to clash exactly when name, date and suffix agree.
- The query of a too-small batch's claims has no ORDER BY, nor does the load of tomorrow's batches. Both return rows in id order. SQL leaves the order of ties under ORDER BY priority_level unspecified; the model breaks them by claim id.
- The auto-increment counter is not rewound by a rollback.
- rebalanceLargeBatches re-derives the large batch once after the receivers loop. The model's Transfer re-derives it every round, and the end state is the same.
- Rebalancer.SmallDecision / Rebalancer.RebalanceOneSmall / Rebalancer.SmallPass / Rebalancer.RebalanceSmall: merge candidates are drawn from the live rows of the group, not from the loaded collection `$allBatches`. The loaded objects are updated in place by updateBatchTotals, so only batches deleted earlier in the pass differ. As written, such a batch can be picked as the merge target and the run fails on the foreign key on claims.batch_id and rolls back; the model picks only among batches that still exist (see Findings).
- LargePass.SplitCandidates / LargePass.RebalanceOneLarge: receivers are drawn from the live rows of the group, not from the loaded collection `$allBatches`. The loaded objects are updated in place by updateBatchTotals, so only batches the too-small pass deleted differ. As written, such a batch can be picked and the run fails on the foreign key and rolls back; the model creates a new batch instead (see Findings).
- LargePass.RebalanceLarge: inherits the live receivers of LargePass.SplitCandidates, so it does not model the failing run of a large batch whose receiver the too-small pass deleted.
- Assignment.ProcessClaim: requires the claim's insurer and provider to exist, because the source reads them (lines 23-31) outside its try block, so a missing one raises to the caller.
- Reoptimizer.ReoptimizeBatches: a group whose insurer is not on record (line 287), and a large batch whose provider is not on record (line 418 or 472), both raise inside the transaction. They are modelled as an `Err` result with everything rolled back.
- SinglePass.PagedRunSkipsReadyBatch and SinglePass.PagedRunExceedsCapacity are proved for pages of one batch. With the source's pages of 100, the same happens once more than 100 batches are ready, but the model does not prove that case.
- The HTTP controller, notifications, seeders and the insurer specialty table are outside the service. The specialty efficiency factors are a map.

## Findings

| source | as written | input that shows it | evidently intended | confidence | as-written member | corrected member |
|---|---|---|---|---|---|---|
| app/Services/ClaimBatchingService.php:211-216 | `chunk` pages by OFFSET over a query whose result shrinks as batches are processed, so the next page skips ready batches | two ready batches of n claims (5 <= n <= 50), minimum 5, capacity 100, pages of one: only batch 0 is processed | every ready batch is considered once per run | not executed; proved for pages of one | SinglePass.PagedRunSkipsReadyBatch | Scheduler.ProcessReadyBatchesOnce |
| app/Services/ClaimBatchingService.php:216-238 | the chunk callback captures the per-insurer counts by value, so they restart from the seeds on every page | batches of big, 1 and big claims (50 < big <= 100), capacity 100, pages of one: both big batches are processed | the running count is carried through the whole run, so the capacity holds | not executed; proved for pages of one | SinglePass.PagedRunExceedsCapacity | SinglePass.DayRunWithinCapacity |
| app/Services/ClaimBatchingService.php:351-372 | merge candidates are drawn from the loaded collection, which still holds batches deleted earlier in the pass | two too-small batches of one provider, sizes a and b with a + b <= max: 0 merges into 1 and is deleted, then 1 picks 0 as its target, and the FK on claims.batch_id refuses the update | only batches that still exist are candidates | not executed | Rebalance.StaleSnapshotPicksDeletedBatch | Rebalancer.SmallDecision |
| app/Services/ClaimBatchingService.php:410-414 | the receivers of a too-large batch are drawn from the loaded collection, which still holds batches the too-small pass deleted | one provider's batch 0 with m > max + 2 claims and its empty overflow batch 1: the too-small pass deletes 1, the large pass picks 1 as the first receiver, and the FK on claims.batch_id refuses the update | only batches that still exist are receivers | not executed | LargePass.StaleSnapshotSplitsIntoDeletedBatch | LargePass.SplitCandidates |
| app/Services/ClaimBatchingService.php:290-297 | a group of one batch adds to cost_before and never to cost_after | one due batch with cost c > 0: the run changes nothing and reports savings c | an unchanged batch costs the same before and after | not executed | Reoptimize.LoneBatchCountsAsSaved | Reoptimize.UnchangedRunSavesNothing |
| app/Services/ClaimBatchingService.php:315-320 | cost_after re-reads only the group's original ids, so batches the large pass created are not priced | two batches of one insurer whose only change is cost y moved to a new batch: savings y | cost_after prices the new batches too | not executed | Reoptimize.SplitBatchCountsAsSaved | Reoptimizer.ReoptimizeBatchesSettled |
