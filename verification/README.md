# Verified model of a cross-border commerce back office

The repository is the back end of a cross-border selling tool. This project models the parts of it that compute
or protect something: money in six-decimal fixed point, a rate limiter shared by many workers, stock under an
optimistic lock, purchase orders and freight bills, prices solved from a wanted margin, the dashboard's
pre-aggregated rows, identifiers, paging, order states and a fail-over file store. Every file is one component; the
properties are about all inputs, all runs or all interleavings of it.

| files | component |
|---|---|
| `Options`, `Decimals`, `Sequences`, `Grouping` | shared ground: optional values, rounding, sorting and filtering, totals of groups |
| `TokenBucket`, `BucketStreaks`, `WindowBound`, `SharedBucket`, `DailyQuota`, `Limiter` | the adaptive token bucket, its streaks of answers, when its window formula holds, many workers on one stored bucket, the daily quota, the limiter object |
| `LandedCost`, `CostLoops`, `CostLines`, `RuleOrder`, `RuleLookup`, `LineFormulas` | the twelve-line cost engine, its loops, what single lines promise, independence of rule order, which rule row is used, and what every line of a result amounts to |
| `Pricing`, `TargetPrice` | the cost split by probe prices, and the price for a target margin |
| `Profit`, `DailyFigures`, `BookFigures` | daily rollup, waterfall, rebinding to a purchase receipt, every figure told from the order lines, and when the book figures fit |
| `Allocation`, `StockLedger`, `ParallelReserves`, `Transfer` | warehouse allocation, versioned stock updates, racing reservations, transfers |
| `Freight`, `FreightCredit`, `WeightedCost`, `PurchaseOrder`, `OrderSteps` | freight shares and when one is negative, running unit cost, order and in-transit ledger, and what each action does |
| `Dashboard`, `DashboardTotals`, `DayFacts`, `RollupFacts` | daily shop rows and summaries, their agreement with the facts, every column of a row, and every rollup |
| `Snowflake`, `Pagination`, `OrderStatus`, `ExportStore` | identifiers, cursors, order status convergence, fail-over store |

## How the code is read

* Amounts are exact numbers and `Quantize` (six digits, halves away from zero) is the only rounding. The 28-digit
  decimal context and binary floating point (tokens, seconds) are taken as exact.
* Code that updates in place is a class or a loop here: the limiter, the stock level and the inventory rows, the
  transfer row, the identifier generator, the export store, the freight shares in an array, and the loops of the
  allocator, the cost engine, the pricing split, the margin alignment, the rollup, the waterfall and the dashboard.
  Each is proved equal to a function, and the properties are proved of that function.
* What an operation answers is also told from its inputs alone, without the functions that compute it: every line of a
  cost result (`LineFormulas`), every column of a dashboard row (`DayFacts`), every figure of a daily rollup
  (`DailyFigures`), every effect of an order action (`OrderSteps`), and for the others a lemma named ...Explained or a
  contract by field.
* Protocols are state machines whose steps are the store operations; a schedule is any sequence of steps by any
  workers. An SQL `UPDATE ... WHERE version = ...` is one atomic step.
* Clocks, store outages, remote failures and lost state are inputs.

## Where the code does not keep what one might expect

* The window formula of the rate limit holds if and only if the clock readings move forward by no more than the length
  of the window in all (`WindowBound.FormulaHoldsWhen`): readings may go back, but what they then gain again counts
  twice. Hosts read their own clocks, so this can happen on one key; `TokenBucket.BackwardClockBreaksBound` is a run
  where it does.
* A retry-after is exact only for a positive configured rate (`TokenBucket.RetryAfterExact`).
* A daily quota holds if and only if calls do not overlap (`DailyQuota.QuotaHoldsWhen`); with k in flight it can be
  exceeded by k - 1, and some run does so (`DailyQuota.QuotaBoundIsReached`).
* The success counter of the parallel-reserve simulation is bumped outside the lock. If the increment can be
  interrupted it is exact if and only if at most one reservation wins (`ParallelReserves.InterruptedCounterExactWhen`);
  the stock itself is always right.
* Lowering the last open line of a partly received order to what it has taken leaves the order PARTIAL with nothing
  open, and no other action does (`PurchaseOrder.StatusTellsClosedUnlessEdited`, `PurchaseOrder.EditCanCloseSilently`).
* The export store can serve old data if an earlier process left files in the local directory, and only then,
  whatever the bucket holds (`ExportStore.NeverStaleWhen`).
* The picked tax row depends on row order if and only if two different rows tie for the longest pattern
  (`RuleOrder.TaxOrderFreeWhen`).
* Freight shares of four or more lines can be negative for tiny bills, and for exactly which is known
  (`FreightCredit.NeverCreditsWhen`).
* Book revenue is book cost plus book profit for every day only at a whole book rate (`BookFigures.BookFiguresFitWhen`).
* When two order facts share shop, date and currency the earlier one never reaches the dashboard
  (`DashboardTotals.OrdersReachSummary`, `DashboardTotals.EarlierFactIsLost`). The query behind the facts groups by the
  order's platform as well, so this takes a shop with orders of two platforms; orders are stored with their shop's
  platform (backend/app/repositories/order.py:240), so it needs a shop whose platform was changed afterwards, which no
  code here does. The assembly itself does not check.
* Rollups by platform and by date show their first day's book currency, and add up book figures of all their days;
  the label is right if and only if those days agree in it (`DashboardTotals.BookLabels`,
  `DashboardTotals.MixedBooksAreAdded`).
* With every cost complete but no book rate, a day has a final waterfall balance but no reported profit
  (`Profit.WaterfallEndsAtNet`).

## Model

| member | source | states |
|---|---|---|
| `TokenBucket.RunKeepsValid` | backend/app/adapters/ratelimit.py:76-151 | over every run of acquire, 429, success and lost-state steps: floor <= penalty <= 1 and 0 <= tokens <= capacity |
| `TokenBucket.GrantsArePaid` | backend/app/adapters/ratelimit.py:84-121 | for any clock, forward or backward, the grants of a run are paid for by one full bucket, one more per lost state, and the rate times the forward movement of the clock |
| `TokenBucket.SlowedRateBound` | backend/app/adapters/ratelimit.py:76-151 | after any history, a window with a non-decreasing clock and penalty at most p grants at most max(1, burst p) + qps p (t2 - t1), plus one bucket per lost state |
| `TokenBucket.RateBound` | backend/app/adapters/ratelimit.py:76-151 | the same with full speed: max(1, burst) + qps (t2 - t1), nothing asked of the penalty |
| `TokenBucket.BackwardClockBreaksBound` | backend/app/adapters/ratelimit.py:84-121 | a concrete run with a clock that goes back grants three calls where the window formula allows two |
| `WindowBound.SlowedTravelBound` | backend/app/adapters/ratelimit.py:76-151 | for any clock and after any history, with penalty at most p, a run grants at most one slowed bucket, one more per lost state, and the slowed rate times the forward travel of its readings |
| `WindowBound.FormulaHoldsWhen` | backend/app/adapters/ratelimit.py:76-151 | for any acquires, 429 answers and successes: the slowed window formula holds for all limits, policies and histories if and only if the readings move forward by no more than t2 - t1 in all |
| `WindowBound.FullSpeedFormulaWhen` | backend/app/adapters/ratelimit.py:76-151 | the same for max(1, burst) + qps (t2 - t1), with nothing asked of the penalty |
| `WindowBound.TravelBreaksFormula` | backend/app/adapters/ratelimit.py:76-151 | limits, a policy and a history for which any longer travel breaks the formula |
| `TokenBucket.BurstIsExact` | backend/app/adapters/ratelimit.py:84-121 | n simultaneous callers of an untouched bucket get exactly min(n, burst), so the bound is attained |
| `TokenBucket.ThrottleStreak` | backend/app/adapters/ratelimit.py:124-134 | n answers of 429 in a row slow the bucket by ratio^n, never below the floor, and leave the refill time alone |
| `TokenBucket.RecoveryStreak` | backend/app/adapters/ratelimit.py:137-151 | the penalty is untouched for the first N - 1 successes and rises by exactly one step, capped at 1, on the N-th |
| `BucketStreaks.RecoveryStartsOver` | backend/app/adapters/ratelimit.py:124-151 | after any history, a 429 leaves the penalty one slowed step lower; any mix of acquires with fewer than the required successes then leaves it there, whatever was counted before, and the success that completes the number raises it by one capped step |
| `BucketStreaks.CountsRecent429` | backend/app/adapters/ratelimit.py:76-151 | over every run the stored count of 429 answers is the number of them since the last success or lost state, and acquires leave it alone |
| `BucketStreaks.AcquireTakesOne` | backend/app/adapters/ratelimit.py:84-121 | an acquire refills for the time gone by up to the slowed capacity, takes one token if granted and none otherwise, touches neither penalty nor streaks, and a denial waits exactly until one token is there |
| `BucketStreaks.SettlingKeepsTokens` | backend/app/adapters/ratelimit.py:124-151 | slowing down and recovering refill nothing and take no tokens but those above the new capacity |
| `BucketStreaks.StartsFull` | backend/app/adapters/ratelimit.py:76-151 | a bucket not used yet starts full, at full speed and without streaks, for each of the three calls |
| `TokenBucket.RetryAfterExact` | backend/app/adapters/ratelimit.py:84-121 | after a denial an acquire is granted at exactly the times from now + wait on, if and only if the configured rate is positive |
| `TokenBucket.PollingIsFree` | backend/app/adapters/ratelimit.py:84-121 | any denied polls before the retry-after leave every later decision, wait and stored bucket as if they had not happened |
| `SharedBucket.InterleavingIsSequential` | backend/app/sync_engine/state_store.py:128-141 | however workers interleave reading, computing by their own clocks and compare-and-set, and whenever the bucket expires, the stored bucket is that of the committed events in sequence, and no more is granted than they grant - exactly that when no answer is lost |
| `SharedBucket.ConcurrentRateBound` | backend/app/sync_engine/state_store.py:76-141 | any stretch of what is committed grants at most one bucket, one more per expiry, and the rate times the forward travel of its readings, whatever the clocks show |
| `SharedBucket.AgreeingClocksBound` | backend/app/sync_engine/state_store.py:76-141 | with clocks that agree and no expiry, committed acquires are ordered by reading and the window formula holds |
| `DailyQuota.WaitReachesNextDay` | backend/app/adapters/ratelimit.py:59-62 | waiting as told always ends in the next UTC day, and is between one second and one day |
| `DailyQuota.QuotaBound` | backend/app/adapters/ratelimit.py:193-253 | with at most k calls in flight, under every interleaving, across midnight and with failed or unanswered counts, the calls allowed on one day are at most its stored count - exactly it when no answer is lost - and that is at most quota + k - 1; none for a quota below one |
| `DailyQuota.SequentialQuota` | backend/app/adapters/ratelimit.py:193-253 | one call at a time never exceeds the quota, even straddling midnight |
| `DailyQuota.QuotaBoundIsReached` | backend/app/adapters/ratelimit.py:193-253 | for every quota and k some run charges exactly quota + k - 1 calls to one day |
| `DailyQuota.QuotaHoldsWhen` | backend/app/adapters/ratelimit.py:193-253 | the quota holds in every run if and only if calls never overlap |
| `Limiter.TokenBucketLimiter.TakeToken` | backend/app/adapters/ratelimit.py:207-221 | a token leaves the stored bucket whenever the write reaches the store, and is granted only when the answer comes back too |
| `Limiter.TokenBucketLimiter.CountDaily` | backend/app/adapters/ratelimit.py:244-253 | counts the call on the day of its own clock reading whenever the write reaches the day store; the caller learns of it only when the answer comes back |
| `Limiter.TokenBucketLimiter.TryAcquire` | backend/app/adapters/ratelimit.py:193-205 | a call is allowed exactly when the day admits it, the bucket grants it and every store step works; which stores change in each case, lost answers included, and that a blocked call spends no token |
| `Limiter.TokenBucketLimiter.RecordThrottled` | backend/app/adapters/ratelimit.py:255-272 | stores the slowed bucket under this key whenever the write arrives, and returns its penalty and whether it fell, or raises |
| `Limiter.TokenBucketLimiter.RecordSuccess` | backend/app/adapters/ratelimit.py:274-281 | stores the recovered bucket under this key whenever the write arrives, and returns its penalty or raises |
| `Limiter.DailyStepsFollowProtocol` | backend/app/adapters/ratelimit.py:223-253 | the object's daily check and count are the check and count of the quota protocol and touch no other key or day; a check stops the call when the day store is missing or out of reach, or the quota is reached, and then says when to come back |
| `CostLoops.ChooseFees` | backend/app/engines/landed_cost.py:361-373 | the collecting loop returns the chosen fee rows, or nothing as soon as a label is ambiguous |
| `CostLoops.SumImportTax` | backend/app/engines/landed_cost.py:323-358 | the accumulating loop gives the import-tax line, with its early exit on a threshold in another currency |
| `CostLoops.SumBrokerage` | backend/app/engines/landed_cost.py:376-395 | the accumulating loop gives the clearance line, with its early exits |
| `CostLines.ShipmentCostIsShared` | backend/app/engines/landed_cost.py:439-472 | when the pieces' metrics make up the shipment's, their freight lines make up its cost but for half a micro-unit per piece |
| `CostLines.ChargesTheDearerWeight` | backend/app/engines/landed_cost.py:475-523 | per-kilogram billing charges the larger of the amounts by actual and by volumetric weight, or the only one that can be worked out |
| `CostLines.DeclaringMoreNeverSaves` | backend/app/engines/landed_cost.py:281-358 | a higher declared value never lowers duty or import tax - thresholds, tax on duty and rounding included - and never makes one known or unknown |
| `CostLines.ReserveIsAShare` | backend/app/engines/landed_cost.py:526-552 | the landed cost is the first six lines plus the reserve rate on them, but for one rounding |
| `RuleLookup.PickTaxIsRule` | backend/app/engines/landed_cost.py:270-278 | the tax row used is the first in the table of the longest that are prefixes of the code, or where there is none the only catch-all of the type, or none |
| `RuleLookup.OnlyFeeIsRule` | backend/app/engines/landed_cost.py:361-373 | a fee that takes one row has it exactly when one stored row competes: the channel's own, or the catch-all channel's under a label for which the channel has none |
| `LineFormulas.SwitchedOff` | backend/app/engines/landed_cost.py:161-190 | every line of a result keeps its place, and a switched-off one is a complete zero |
| `LineFormulas.PurchaseFormula` | backend/app/engines/landed_cost.py:240-267 | the purchase line is a gap exactly when amount or currency is missing or the currencies differ without a positive rate; it is the amount in the selling currency, and in another the amount that times the rate gives what was paid, to half a micro-unit |
| `LineFormulas.FirstMileShareFormula` | backend/app/engines/landed_cost.py:426-472 | freight by weight, volume or value is the shipment cost times the unit metric over the whole metric, the value being the declared one if in the selling currency and otherwise the purchase line of the same result; a gap exactly when a part is missing, in another currency or not positive |
| `LineFormulas.FirstMileChargeFormula` | backend/app/engines/landed_cost.py:426-523 | freight by rate table is the fixed amount, the cubic metres or the larger weight times the only row, and a gap for any other rate, missing size or unknown method |
| `LineFormulas.DutyFormula` | backend/app/engines/landed_cost.py:281-320 | the duty is the rate on the declared value, nothing below the threshold, and a gap without a rule, a declared value in the selling currency or a comparable threshold |
| `LineFormulas.ImportTaxFormula` | backend/app/engines/landed_cost.py:323-358 | the import tax is the sum of five parts, each the rounded rate on a fraction of declared value and duty of the same result, nothing below its threshold or without a rule; a gap exactly when the duty is, no rule exists or a threshold cannot be compared |
| `LineFormulas.BrokerageFormula` | backend/app/engines/landed_cost.py:376-395 | the clearance line is the sum of the rounded amounts of all stored rows that compete, if there are any, no two under one label, all fixed and in the selling currency |
| `LineFormulas.StorageFormula` | backend/app/engines/landed_cost.py:398-423 | the storage line is nothing for zero days, otherwise cubic metres by days by the only daily rate, and a gap without days, volume or such a row |
| `LineFormulas.ReserveFormula` | backend/app/engines/landed_cost.py:526-552 | the exchange reserve is the rate of its only row on the plain sum of the six lines before it, all of which must be known |
| `LineFormulas.DeductionFormulas` | backend/app/engines/landed_cost.py:555-658 | commission, payment fee and advertising are their rate of the price, fulfilment a rate or a fixed amount in the selling currency, the return loss price times return rate times loss rate; gaps exactly otherwise |
| `LineFormulas.HeadlineFigures` | backend/app/engines/landed_cost.py:184-231 | the landed cost is the plain sum of the first seven lines, known when all are; margin and return on investment are the rounded percentages of a positive price and of a positive sum of purchase and freight, and neither is given without a profit |
| `Decimals.QuantizeRounds` | backend/app/engines/landed_cost.py:153-154 | rounding gives the nearest value of six decimals, and of two equally near the one farther from zero |
| `RuleOrder.UniqueMeansAgree` | backend/app/engines/landed_cost.py:270-278 | with one row per tax type and pattern no two rows compete, because equally long prefixes of a code coincide |
| `RuleOrder.TaxOrderFreeWhen` | backend/app/engines/landed_cost.py:270-278 | the picked tax row is the same for every order of the rows if and only if the longest matching rows do not differ |
| `RuleOrder.PickFeesReordered` | backend/app/engines/landed_cost.py:361-373 | permuting the fee rows never changes the chosen rows |
| `RuleOrder.PickFeesChooses` | backend/app/engines/landed_cost.py:361-373 | nothing is chosen exactly when two stored rows compete for one label; otherwise exactly the competing rows are, one per label: the channel's own, or the catch-all's where the channel has none |
| `RuleOrder.ResultForgetsRuleOrder` | backend/app/engines/landed_cost.py:161-211 | permuting both rule tables never changes the whole result, given one row per tax type and pattern |
| `LandedCost.ResultWellFormed` | backend/app/engines/landed_cost.py:161-219 | every result has the twelve codes in order in the selling currency, each a six-decimal amount or a gap |
| `LandedCost.TotalIsSum` | backend/app/engines/landed_cost.py:222-225 | a total is missing exactly when a line is, and otherwise is the plain sum: rounding it changes nothing |
| `LandedCost.PriceSplitsExactly` | backend/app/engines/landed_cost.py:161-211 | a profit is reported exactly when there is a price and all lines are complete, and then price = twelve lines + profit if and only if the price has at most six decimals |
| `Pricing.LandedIgnoresPrice` | backend/app/engines/landed_cost.py:175-183 | the seven landed lines are the same at every price |
| `Pricing.DeductionsFollowRules` | backend/app/engines/landed_cost.py:555-658 | each of the five price lines is missing, flat or a rounded share of the price, the same way at every price |
| `Pricing.CostAt` | backend/app/engines/pricing.py:128-151 | completeness does not depend on the price, and the cost is a constant plus one rounded share per rate |
| `Pricing.LineAcrossProbes` | backend/app/engines/pricing.py:134-148 | at the three probes a line is ready together and its two slopes differ by at most one and a half micro-units |
| `Pricing.Decompose` | backend/app/engines/pricing.py:128-151 | the loops return either the incomplete codes or the line through the costs at 1 and 2; the non-linear rejection never happens |
| `Pricing.GapsNamed` | backend/app/engines/pricing.py:134-141 | the codes a refusal names are those of exactly the incomplete lines, in line order |
| `TargetPrice.SplitIsAccurate` | backend/app/engines/pricing.py:128-151 | refused exactly when incomplete at any price, with the codes missing at every price; otherwise fixed and variable parts are within 1.5 and 1 micro-units per unrounded rate of the true ones |
| `TargetPrice.ClosedFormIsExact` | backend/app/engines/pricing.py:164-186 | a positive price leaves the target margin if and only if the denominator is positive and the price is fixed / denominator |
| `TargetPrice.MatchMargin` | backend/app/engines/pricing.py:195-220 | the loop over the three candidates returns the aligned price and the result recomputed at it |
| `TargetPrice.AlignedIsClosest` | backend/app/engines/pricing.py:195-220 | the aligned price is a positive candidate with a margin, none of the three comes closer, and it leaves the start only for a strict gain |
| `TargetPrice.ClosedFormMargin` | backend/app/engines/pricing.py:186-192 | the true margin of the rounded closed form - or of one micro-unit where it rounds to zero - misses the target by at most 100 * slack / price plus one micro-unit, slack being explicit in the rates, the denominator and the price |
| `TargetPrice.QuoteMeetsTarget` | backend/app/engines/pricing.py:154-220 | a price is offered exactly when fixed part and denominator are positive; it is the best of the rounded closed form and its neighbours and its recomputed margin is within the bound |
| `TargetPrice.CurvePercents` | backend/app/engines/pricing.py:114-125 | the curve holds every multiple of five up to the target plus ten, the target and that end, each once and increasing |
| `TargetPrice.QuantityBreaksEven` | backend/app/engines/pricing.py:223-244 | a break-even quantity is given exactly when the period cost is, and a unit at the price earns something - at the given price if it is positive, whatever was suggested, and at a positive suggestion only without one; that many units then earn the period cost to half a micro-unit of quantity |
| `TargetPrice.SuggestPrices` | backend/app/engines/pricing.py:50-111 | either the missing codes and no price, or a full curve of quotes with the suggestion being the quote for the target itself - the fallback point is unreachable -, its recomputed result, and the quantity that breaks even at the given positive price or else at the suggestion |
| `Profit.Combine` | backend/app/engines/profit.py:174-208 | the nested loops give, per code, the rounded line amounts of all units added up, or a gap when any unit lacks the line |
| `Profit.ColumnsAddUp` | backend/app/engines/profit.py:174-208 | adding up by line and then over lines is adding up by unit and then over units |
| `DailyFigures.RollupExplained` | backend/app/engines/profit.py:85-130 | a day's revenue is the sum of the rounded unit sales, each line the rounded unit amounts of its place added up or a gap, the cost the sum of the lines, the profit exactly revenue less cost, the margin its percentage of a positive revenue, each book figure the rate times its own; without a usable book rate none of them but revenue and lines; the exchange gain passes through |
| `Profit.RollupIsUnitSum` | backend/app/engines/profit.py:85-130 | a day's profit is reported exactly when the book rate is usable and every unit has a profit, and is then the quantities times the unit profits |
| `Profit.BookFiguresNearlyFit` | backend/app/engines/profit.py:114-130 | revenue, cost and profit in the book currency fit together to one micro-unit |
| `BookFigures.BookFiguresCanDiffer` | backend/app/engines/profit.py:85-130 | for every fractional book rate some unit, computed by the cost engine, whose rollup has book figures that do not fit |
| `BookFigures.BookFiguresFitWhen` | backend/app/engines/profit.py:85-130 | book revenue is book cost plus book profit for every day if and only if the book rate is a whole number |
| `Profit.BuildWaterfall` | backend/app/engines/profit.py:146-171 | fifteen steps: revenue, the twelve balances, the profit, and an exchange-gain memo that shows the same running profit |
| `Profit.WaterfallBalance` | backend/app/engines/profit.py:146-171 | the last balance is revenue minus all twelve lines, missing exactly when a line is |
| `DailyFigures.WaterfallSteps` | backend/app/engines/profit.py:146-163 | each step takes exactly its line off and shows what all lines so far leave of the revenue; neither from the first missing line on |
| `Profit.GapStaysGap` | backend/app/engines/profit.py:158-163 | after a missing line every later balance is missing |
| `Profit.WaterfallEndsAtNet` | backend/app/engines/profit.py:85-171 | the last balance of a day's rollup is the sum of the unit profits and equals the reported profit unless only the book rate is missing |
| `Profit.BindFirstMile` | backend/app/engines/purchase.py:227-258 | rebinding rewrites the explanation of a complete first-mile line only, keeps every line amount and the landed cost, and clears the four profit fields |
| `Profit.ComputedMayBeRebound` | backend/app/engines/purchase.py:227-258 | every result of the cost engine satisfies what rebinding asks for |
| `Allocation.PlanAllocations` | backend/app/engines/inventory.py:84-110 | the greedy loop returns the plan for the ranked bins, and rejects negative quantities |
| `Allocation.PlanFollowsRank` | backend/app/engines/inventory.py:84-110 | the bins drawn on, followed by those spared, are all bins that may give in rank order - defaults, then more free pieces, then smaller ids; they are drawn on in turn, each but the last for all it has, and none is spared while something is missing |
| `Allocation.PlanConserves` | backend/app/engines/inventory.py:84-110 | taken + left = requested, and left is exactly what all eligible bins together cannot cover |
| `Allocation.SharesWithinBins` | backend/app/engines/inventory.py:84-110 | every share is positive and within the free stock of an eligible bin |
| `Allocation.DefaultsFirst` | backend/app/engines/inventory.py:84-110 | a non-default bin is used only when every eligible default bin gives all it has |
| `Allocation.FewestOthers` | backend/app/engines/inventory.py:84-110 | any choice of non-default bins that covers as much together with the defaults has at least as many bins as the plan uses |
| `Allocation.OthersUsedAreShares` | backend/app/engines/inventory.py:84-110 | with distinct ids that number is the number of shares from non-default warehouses |
| `Allocation.PlanForgetsOrder` | backend/app/engines/inventory.py:84-110 | with distinct ids the plan does not depend on input order |
| `StockLedger.StockLevel.TryReserve` | backend/app/engines/inventory.py:113-122 | outcome and whole new level of a reservation, including the rejected and negative cases |
| `StockLedger.StockLevel.TryRelease` | backend/app/engines/inventory.py:125-134 | the same for a release |
| `StockLedger.StockLevel.TryShip` | backend/app/engines/inventory.py:137-149 | the same for a shipment |
| `StockLedger.StockLevel.TryOutbound` | backend/app/engines/inventory.py:152-163 | the same for an outbound |
| `StockLedger.StockLevel.TryInbound` | backend/app/engines/inventory.py:166-173 | the same for an inbound |
| `StockLedger.InventoryRepository.ApplyChange` | backend/app/repositories/inventory.py:128-169 | an update applies exactly at the read version and when the new row satisfies the constraints; each of available, occupied, defective and in-transit then moves by its own delta, the tenant stays and the version rises by one; otherwise nothing changes and the reason is told |
| `StockLedger.UpdateRefinesRules` | backend/app/engines/inventory.py:113-173 | on a valid row the guarded update with an operation's deltas decides and changes exactly as the in-memory rule |
| `StockLedger.ReasonUnderRace` | backend/app/repositories/inventory.py:161-169 | with other updates between the failed update and the read that explains it, a conflict is always reported as one, and a shortage as one exactly when nothing was applied in between |
| `StockLedger.InterleavingIsSerial` | backend/app/repositories/inventory.py:128-169 | every interleaving of reads and updates keeps 0 <= occupied <= available and equals the applied changes in sequence, each applied to the very row its worker had read |
| `StockLedger.InterleavingConserves` | backend/app/repositories/inventory.py:128-169 | over every interleaving each of available, occupied, defective and in-transit has moved by exactly the sum of that part of the applied changes, the tenant stays, the version counts them, and net reservations stay within what was free |
| `StockLedger.AppliesWhen` | backend/app/repositories/inventory.py:128-169 | at any moment of any interleaving an update applies exactly when its version is still current and the four sums satisfy the constraints of the table |
| `ParallelReserves.ReservationsAreExact` | backend/app/engines/inventory.py:248-269 | under every schedule exactly min(attempts, available div quantity) reservations are in the level |
| `ParallelReserves.AtomicCounterIsExact` | backend/app/engines/inventory.py:248-269 | with uninterrupted increments the reported successes are that number |
| `ParallelReserves.InterruptedCounterExactWhen` | backend/app/engines/inventory.py:255-266 | with interruptible increments every schedule reports that number if and only if at most one reservation can win |
| `ParallelReserves.CounterNeverRunsAhead` | backend/app/engines/inventory.py:255-266 | no schedule reports more successes than reservations |
| `Transfer.UpdateRefinesBin` | backend/app/engines/inventory.py:314-326 | the guarded update applies a move exactly when the bin rule does, with the same result |
| `Transfer.TransferRow.Transition` | backend/app/repositories/inventory.py:429-440 | a caller wins exactly when the status is the one it expects, and only a winner changes it |
| `Transfer.OneWinnerPerStatus` | backend/app/repositories/inventory.py:429-440 | of any number of racing callers that expect one status at most one wins, and the first of them to find it does |
| `Transfer.TransferConserves` | backend/app/services/inventory.py:693-750 | over every run of a new transfer of any number of products, with other changes in between, each quantity is in one place once, and each product's stock over both warehouses changes only by what the others did |
| `Transfer.TransferStepExplained` | backend/app/services/inventory.py:693-750 | shipping, receiving and cancelling move the status on, and every line by its quantity in stock and transit, exactly when they start from the right status and all lines bear it; otherwise nothing changes |
| `Transfer.OthersExplained` | backend/app/repositories/inventory.py:128-169 | a change by anyone else moves one row of one line by its four deltas exactly where the constraints allow it |
| `Transfer.FinishedIsFinal` | backend/app/services/inventory.py:693-750 | a received or cancelled transfer never changes status again |
| `Transfer.CancelUndoesShip` | backend/app/engines/inventory.py:287-311 | shipping and cancelling in transit restores every row but for the version |
| `Freight.Allocate` | backend/app/engines/purchase.py:168-224 | the whole operation including each error, and that the non-positive-whole error is never the answer |
| `Freight.AllocateExplained` | backend/app/engines/purchase.py:168-224 | the error is the first thing wrong - method, total, no lines, or the first line without pieces or basis; otherwise each line keeps article and pieces, its cost is its share by basis times pieces, and its unit cost makes that up to half a micro-unit a piece |
| `Freight.WinnerIsLargest` | backend/app/engines/purchase.py:168-207 | the corrected line is the first with the largest metric |
| `Freight.SharesSumToTotal` | backend/app/engines/purchase.py:168-207 | the shares add up to the bill if and only if the bill has at most six decimals |
| `Freight.OthersNearAndMonotone` | backend/app/engines/purchase.py:168-207 | every other share is within half a micro-unit of its exact part and monotone in its metric |
| `Freight.WinnerNear` | backend/app/engines/purchase.py:168-207 | the winner is within (n - 1) / 2 micro-units of its exact part |
| `FreightCredit.SharesNonNegative` | backend/app/engines/purchase.py:168-207 | a safe bill gives no line a negative share, whatever the metrics |
| `FreightCredit.UnsafeBillsCredit` | backend/app/engines/purchase.py:168-207 | every other bill has metrics that give a line a negative share |
| `FreightCredit.NeverCreditsWhen` | backend/app/engines/purchase.py:168-207 | n lines never get a negative share of a bill, for any metrics, if and only if n is at most three, or the bill is below three micro-units (two for n = 4), or at least (n - 1) * ((n - 2) div 2) micro-units |
| `WeightedCost.RunningWithinRange` | backend/app/engines/purchase.py:265-271 | the running unit cost never leaves the range of unit costs seen |
| `WeightedCost.LotsAreWorth` | backend/app/engines/purchase.py:265-271 | the averaged cost times all pieces is what the two lots are worth to half a micro-unit a piece, an empty or owed lot counting for nothing; refused exactly without new pieces |
| `WeightedCost.DriftBounded` | backend/app/engines/purchase.py:265-271 | after k receipts the pool's value is off what was paid by at most (k - 1) / 2 micro-units per piece |
| `WeightedCost.RunningNearMean` | backend/app/engines/purchase.py:265-271 | the running cost is within (k - 1) / 2 micro-units of the exact weighted mean |
| `PurchaseOrder.LedgerIsOpenQuantity` | backend/app/engines/purchase.py:41-130 | over every run the in-transit ledger is the open quantity of every line of a live order and nothing otherwise, never negative |
| `OrderSteps.CommandExplained` | backend/app/engines/purchase.py:45-62 | which command is accepted in which status, where it leads, why it is refused otherwise, and that it moves nothing but transit: approval by what was ordered, cancelling by what is outstanding |
| `OrderSteps.EditExplained` | backend/app/engines/purchase.py:75-90 | a quantity change moves one line alone, and its transit by as much as the outstanding quantity changes on an approved order; each refusal |
| `OrderSteps.AddLineExplained` | backend/app/services/purchase.py:759-800 | a new line joins at the end, untouched, and in transit on an approved order |
| `OrderSteps.PlanBalances` | backend/app/engines/purchase.py:100-120 | what a planned receipt brings to stock is what is received more, what it takes out of transit is by how much the outstanding quantity falls, and a shortage brings nothing and leaves nothing outstanding |
| `OrderSteps.ReceiptExplained` | backend/app/engines/purchase.py:65-130 | a receipt is refused as a whole, with the reason, or books every item - a delivery as received and out of transit as far as outstanding, a shortage as written off - leaves other lines alone and sets the status by what is left |
| `PurchaseOrder.NeverOverReceived` | backend/app/engines/purchase.py:100-120 | without an explicit permission no line ever takes more than was ordered |
| `PurchaseOrder.NoCancelAfterReceipt` | backend/app/engines/purchase.py:45-62 | an order with a receipt never becomes cancelled; closed and cancelled are final |
| `PurchaseOrder.StatusTellsClosedUnlessEdited` | backend/app/engines/purchase.py:75-130 | after an action RECEIVED says exactly that no line is open, if and only if the action was not lowering the last open line of a partly received order to what it has taken |
| `PurchaseOrder.StatusTellsOverRuns` | backend/app/engines/purchase.py:75-130 | over a whole run the status tells at every moment if and only if no step is such a lowering |
| `PurchaseOrder.DraftsKeepTheRules` | backend/app/services/purchase.py:326-504 | every order starts as a draft of untouched lines, so the ledger, the receipt limit and the status rule hold over all that follows |
| `PurchaseOrder.EditCanCloseSilently` | backend/app/services/purchase.py:326-352 | an order where that lowering happens |
| `DashboardTotals.SummaryIsDirectFold` | backend/app/engines/dashboard.py:293-436 | per currency, folding rows into days and days into a window is folding the raw profit rows of the shops that can be told, line by line, exactly when every day has profit rows; otherwise all twelve lines are missing |
| `DashboardTotals.SummaryNetIsDirectSum` | backend/app/engines/dashboard.py:322-404 | the same for the profit: the sum of the raw rows' profits, missing when a row is incomplete or a day has none |
| `DashboardTotals.KnownShopsShowAll` | backend/app/engines/dashboard.py:369-377 | with every shop registered no profit row is dropped |
| `DashboardTotals.RollupsAgree` | backend/app/engines/dashboard.py:439-535 | per currency, the rollups by currency, by platform and by date add up to the same days: order counts, sales, profit and the two book figures, with their missing cases |
| `DashboardTotals.AssembledRollupsAgree` | backend/app/engines/dashboard.py:350-535 | for assembled days this needs no condition |
| `DashboardTotals.BookLabels` | backend/app/engines/dashboard.py:439-535 | the book currency on a currency rollup is always right; on platform and date rollups it is right for all days exactly when no two days rolled up together differ in it |
| `DashboardTotals.MixedBooksAreAdded` | backend/app/engines/dashboard.py:487-535 | two days whose rollups add dollars and euros and label the sum dollars |
| `DashboardTotals.OrdersReachSummary` | backend/app/engines/dashboard.py:350-404 | per currency, the days hold all orders and all sales except those of facts replaced by a later one for the same key, of which there are none exactly when no two facts share a key |
| `DashboardTotals.EarlierFactIsLost` | backend/app/engines/dashboard.py:365-390 | two facts for one key of which the days show only the later |
| `DashboardTotals.DaysAreListed` | backend/app/engines/dashboard.py:360-404 | exactly one row per mentioned key whose shop can be told |
| `DayFacts.DaysShowFacts` | backend/app/engines/dashboard.py:350-404 | the rows in order of date, shop and currency, one per key that a fact mentions and whose shop is registered or has an order; order, advertising and return columns are those of the latest fact, platform and site the shop's or the order's, profit columns the sums over complete rows, book figures only with one book currency |
| `DayFacts.MergedShows` | backend/app/engines/dashboard.py:322-347 | the merge of profit rows: sums of revenue and pieces, profit and book figures with their missing cases, and the common book currency |
| `DayFacts.FactsReachSummary` | backend/app/engines/dashboard.py:350-404 | per currency, the days hold the spend, sales and losses of the latest advertising facts and the returns of the latest return facts of shops that can be told, and the on-time and late shipments of the latest order facts |
| `RollupFacts.RollupsShowFacts` | backend/app/engines/dashboard.py:439-511 | per currency, the rollups by currency add up to the same advertising amounts and losses, those by platform to the same returns and shipments |
| `RollupFacts.CurrencyRollupsListed` | backend/app/engines/dashboard.py:439-474 | one rollup for every pair of currency and book currency among the days, in that order, complete exactly when its days are and with advertising amounts exactly when one of them has any |
| `RollupFacts.PlatformRollupsListed` | backend/app/engines/dashboard.py:487-511 | one rollup for every platform, site and currency among the days, in that order, complete exactly when its days are |
| `RollupFacts.DateRollupsListed` | backend/app/engines/dashboard.py:514-535 | one rollup for every date, platform and currency among the days, in that order, complete exactly when its days are |
| `Sequences.LexDecides` | backend/app/engines/dashboard.py:369-369 | text is ordered by prefix, otherwise by the first differing character |
| `DashboardTotals.StoredLinesReadBack` | backend/app/engines/dashboard.py:605-617 | the lines of any day come back from storage unchanged |
| `Dashboard.FoldLines` | backend/app/engines/dashboard.py:293-313 | the nested loops with their break give one total per code, missing when nothing is added or any part is missing |
| `Dashboard.FoldProfit` | backend/app/engines/dashboard.py:322-347 | the grouping loops give each key the merge of exactly its own rows, and no other key |
| `Dashboard.AssembleShopDays` | backend/app/engines/dashboard.py:350-404 | the outer join over the sorted keys, skipping unknown shops without orders |
| `Dashboard.RollUp` | backend/app/engines/dashboard.py:487-511 | grouping and rolling up in key order gives one rollup per key from exactly its own days |
| `Dashboard.Summarize` | backend/app/engines/dashboard.py:411-436 | counts, the three kinds of rollup, and for every currency among the days its folded lines |
| `Grouping.TotalsOfTotals` | backend/app/engines/dashboard.py:316-347 | adding up group totals is adding up the rows, missing in the same cases, for rows of six decimals |
| `Snowflake.SnowflakeGenerator.BlockUntil` | backend/app/db/snowflake.py:62-68 | the wait ends at the first reading that reaches the target |
| `Snowflake.SnowflakeGenerator.NextId` | backend/app/db/snowflake.py:47-60 | new state and identifier of one call, with clock jumps and an exhausted millisecond |
| `Snowflake.FieldsReadBack` | backend/app/db/snowflake.py:60-81 | the timestamp parser recovers the millisecond, and worker and sequence can be read off, before and after the epoch |
| `Snowflake.NeverCollide` | backend/app/db/snowflake.py:60-60 | two identifiers are equal if and only if worker, millisecond and sequence are |
| `Snowflake.FitsColumn` | backend/app/db/snowflake.py:60-60 | an identifier is non-negative and fits 63 bits exactly for the 41 bits of milliseconds from the epoch on |
| `Snowflake.IdsIncrease` | backend/app/db/snowflake.py:47-60 | for every sequence of clock readings one generator's identifiers strictly increase |
| `Snowflake.WorkersNeverCollide` | backend/app/db/snowflake.py:36-60 | generators with different workers never issue the same identifier over any two runs |
| `Pagination.CursorRoundTrip` | backend/app/core/pagination.py:64-73 | the url-safe text with its padding stripped decodes to the same bytes for every length (section 5 of RFC 4648) |
| `Pagination.CursorSpells` | backend/app/core/pagination.py:64-66 | a cursor's text is its bytes six bits at a time in the url-safe alphabet, in (8n + 5) div 6 characters (section 5 of RFC 4648) |
| `Pagination.PayloadSpells` | backend/app/core/pagination.py:82-95 | the encoded bytes are one quoted name and the decimal digits of the id in quotes |
| `Pagination.CursorIdRoundTrip` | backend/app/services/inventory.py:143-152 | the cursor text handed out for a row is read back as that row's id |
| `Pagination.PagingReturnsInitialRows` | backend/app/core/pagination.py:64-95 | following the cursor texts ends and returns every row present at the start exactly once, in order, whatever rows with larger ids arrive in between |
| `OrderStatus.ManualWithinSystem` | backend/app/engines/order_status.py:139-158 | every change an operator may make polling may make too |
| `OrderStatus.DecisionExplained` | backend/app/engines/order_status.py:120-158 | a request is applied exactly to a new order or along an edge of the table of its source, does nothing when unmapped or already there, and is rejected otherwise, with the status it leaves |
| `OrderStatus.JumpsAreChains` | backend/app/engines/order_status.py:139-158 | every jump polling may make is a chain of operator steps, except from refunded to returned, where no operator gets |
| `OrderStatus.OrderOfArrivalIrrelevant` | backend/app/engines/order_status.py:120-158 | polled and pushed main-chain statuses in any order and with repeats end at the highest-ranked one |
| `OrderStatus.NoWayBack` | backend/app/engines/order_status.py:139-158 | cancelled is absorbing, and an order that left the main chain never returns or becomes cancelled |
| `OrderStatus.BoundedChanges` | backend/app/engines/order_status.py:139-158 | apart from flipping between refunded and returned, an order changes at most six times |
| `ExportStore.ResilientExportStore.Put` | backend/app/object_store.py:129-138 | the stores and the switch after a put, with a failure before or after the remote write |
| `ExportStore.ResilientExportStore.Get` | backend/app/object_store.py:140-151 | what a read returns and when it switches |
| `ExportStore.ResilientExportStore.Delete` | backend/app/object_store.py:153-161 | the stores and the switch after a delete |
| `ExportStore.NeverStale` | backend/app/object_store.py:120-161 | from empty stores, for every sequence of calls and failures, a read gives the last body put or nothing, exactly it while the remote store is in use, and the switch is permanent |
| `ExportStore.NeverStaleWhen` | backend/app/object_store.py:123-161 | whatever the bucket holds, a process that starts with the remote store is safe for every run if and only if the local directory is empty |

## Left out

- The texts of formulas, sources and labels, but for which line a receipt re-explains; only amounts, codes, currency and completeness are modelled.
- The 28-digit decimal context and binary floating point: amounts, tokens and seconds are exact numbers.
- JSON encoding inside buckets and counters: taken as a faithful codec; a value that cannot be decoded or has expired is the `Lost` step of the token bucket and the `Expire` step of its workers.
- Trimming and lower-casing of platform names in bucket keys, and the zone conversion of clock readings.
- The eight-attempt limit of the state store: a worker here may retry or give up at any time.
- Snowflake.SnowflakeGenerator.NextId: asks that the clock readings offered to the wait reach the target, because the original waits for as long as it takes.
- Snowflake.SnowflakeGenerator.constructor: the mask on the worker number is modelled, reading it from the environment is not.
- Freight.SharesSumToTotal: the source promises the exact sum for any bill; it holds for bills with at most six decimals, which is what the column stores.
- TargetPrice.ClosedFormIsExact: asks for a positive fixed part, because the original answers "no unique price" before solving when there is none.
- DashboardTotals.SummaryIsDirectFold: asks for stored amounts of six decimals, which is how they are written.
- DashboardTotals.RollupsAgree: without the ratio columns (margin, ACOS, ROAS, return on investment), which are quotients of the modelled sums.
- ParallelReserves.ReservationsAreExact: asks for a quantity of at least one and has no limit on concurrent workers, where the original pool has thirty-two.
- CostLines.DeclaringMoreNeverSaves: asks for non-negative rates and bases and a non-negative value, which the rule tables keep.
- CostLines.ChargesTheDearerWeight: asks for a non-negative rate per kilogram, which the rule table keeps.
- Currency gain and loss, period bounds, replenishment, stock taking, stock health, promotions and SKU ranking: one-branch facts.
- StockLedger.InventoryRepository.ApplyChange: the update and the read that explains a failed one happen together in the method; what others do in between is `StockLedger.ReasonUnderRace`.
- Transfer.TransferConserves: the legs of one transfer are one step; the products of a transfer are distinct, as its table requires.
- Pagination.PagingReturnsInitialRows: rows are identifiers only, and the payload is the one spelling the encoder writes; other JSON spellings of it and characters the lenient decoder skips are not followed.
- FreightCredit.NeverCreditsWhen: for bills of whole micro-units, which is what the column stores.
- DailyFigures.WaterfallSteps: asks for a revenue of six decimals, which a rollup's always is.
- TargetPrice.QuantityBreaksEven: asks for a selling price of six decimals, which is what the column stores.
- ExportStore.NeverStale: keys are taken as normalised, so that two keys never name one file, and a key is never rejected.
- WindowBound.FormulaHoldsWhen: for windows in which no stored bucket is lost; `WindowBound.SlowedTravelBound` allows one more bucket for each loss.
- HTTP, logging, database sessions, migrations, permissions, platform adapters, compliance and messaging.
