# Saas-Poly: the money path and the message path, verified

A Dafny model of the paper-trading core of Saas-Poly, with proofs about whole runs of it.
`dafny verify dfyconfig.toml` checks everything.

| module | models |
|---|---|
| `Domain`, `Sums` | the frozen value objects; sums over sequences and maps |
| `DecimalHelpers` | quantization of prices and sizes, toward zero |
| `PaperFiller` | the fill simulator against the top of the book |
| `PositionMath` | the eight-case position update, the cash update, and their laws over trade logs |
| `LotBook` | the open lots that a position stands for |
| `Ledgers`, `Reconciliation` | the two stores, the reconciliation engine as a class over them, and runs of fills |
| `ConcurrentApply`, `Serializability` | many `apply` calls interleaving at their four awaited store operations, and exactly which of them may overlap |
| `RiskEngine` | the gates and the fail-fast engine |
| `Execution`, `IntentStream` | the idempotent executor, alone, interleaved at its book await, and as a serial stream into the ledger |
| `Pipeline`, `PaperTrading` | signal, gates, executor, filler and ledger composed, as a machine and as the services themselves |
| `Solvency`, `PositionCap`, `ExposureCap` | what the gates guarantee over all runs of the pipeline |
| `OutstandingOrders` | several approved orders of one user at once |
| `InterleavedPipeline` | the pipeline with settlements cut at the book await and the four store awaits, refined to the atomic one |
| `EventBus` | the in-memory bus as atomic pieces of its coroutines, and as a class |

How to read it:

- `Decimal` is an exact `real`, so the division of the weighted average is exact, and
  `quantize(..., ROUND_DOWN)` is truncation toward zero (roundTowardZero, section 4.3.2 of IEEE 754-2008).
- A fill whose size is not positive is an error of `apply` that changes neither store; logs may contain such fills.
- Reading a balance that was never written gives the store's `opening` value. Only the USDC asset is ever used, so
  balances are keyed by user alone.
- A coroutine is cut at its awaits. A run is any sequence of the pieces; a piece that is not possible changes nothing,
  so statements about all sequences are statements about all interleavings, and about every state on the way.
- Fresh identifiers (`uuid4`) are parameters. Timestamps, durations, metrics and pass-through fields
  (`strategy_id`, `time_in_force`, `rationale`, order status) are left out.
- No file of the repository wires the three services together. The composed step is: evaluate, submit only if approved,
  reconcile the fill if there is one. Each user's signals go one at a time; users interleave; quotes at evaluation and
  books at execution are arbitrary and unrelated. In `Pipeline` a settlement is one event, in `InterleavedPipeline` it is
  cut at every await. `OutstandingOrders` says what happens when one user's orders do not go one at a time.

`ExposureCap.CapHoldsIffCostsAreNotNegative` has two conditions. Stored fills have positive prices
(`shared/db/models/trading.py:169-171`), so the one on asks is met by every book that such fills come from. The one on the
longs at the start is about rows that were stored before: the column has no sign check (`shared/db/models/positions.py:31`).

Where code and comments disagree, the model follows the code:

- The bus docstring announces `QueueFull` (`shared/events/bus.py:60-62`), but a publisher waits at a full queue
  (`shared/events/bus.py:74`). A `maxsize` that is not positive means no bound.
- `quantize_price` promises never to round "into a worse fill" (`shared/polymarket/decimal_helpers.py:21`). For sells it
  does: `PaperFiller.LimitHonouredIffSafe` says for exactly which limits the promise holds.
- A duplicate gets no result at all (`services/execution/engine.py:58-59`), not a result without a fill
  (`services/execution/engine.py:43`).
- An `Intent` is built for rejected signals too (`services/risk_engine/engine.py:65-78`).

## Model

| member | source | states |
|---|---|---|
| DecimalHelpers.QuantizePrice | shared/polymarket/decimal_helpers.py:20-22 | The result is a whole number of mills, on the zero side of the value and less than one mill away |
| DecimalHelpers.QuantizeSize | shared/polymarket/decimal_helpers.py:25-27 | The same for micro-shares |
| DecimalHelpers.PriceTickBound | shared/polymarket/decimal_helpers.py:20-22 | No tick lies between a value and its quantization; ticks are fixed points |
| DecimalHelpers.UsdcFromRawIsExact | shared/polymarket/decimal_helpers.py:30-32 | Raw balances count micro-dollars from zero, a million to the dollar; they enter without rounding, keep sums, and stay in strictly the same order |
| PaperFiller.SimulateFill | services/execution/paper_filler.py:36-73 | A fill is positive, never exceeds the order, and its size and price are tick-aligned |
| PaperFiller.FillsExactlyWhenMarketable | services/execution/paper_filler.py:51-68 | A fill exists if and only if the best opposite price exists, the limit reaches it, and size and depth hold a micro-share; its size is the largest micro-share multiple not above either |
| PaperFiller.FillIsExact | services/execution/paper_filler.py:66-73 | A fill is less than a micro-share short of what size and depth allow, at the quantized best price, with a fee at the rate 0.02 |
| PaperFiller.FillRespectsSafeLimit | services/execution/paper_filler.py:51-73 | For tick-aligned limits no fill is worse than its limit, on either side, for every book and size |
| PaperFiller.LimitHonouredIffSafe | shared/polymarket/decimal_helpers.py:20-22 | All books honour a limit if and only if it is tick-aligned or has the sign for which truncation helps; otherwise a sell at the limit fills below it |
| PaperFiller.FeeIsLargestMicroUnit | services/execution/paper_filler.py:71-72 | The fee is the largest micro-unit multiple not above filled × price × rate |
| PaperFiller.SplittingSavesUnderAMicroUnitEach | services/execution/paper_filler.py:66-73 | Fees of n pieces at one price never exceed the merged fee and fall short by less than n micro-units |
| PositionMath.ApplyFillToPosition | services/reconciliation/position_math.py:36-85 | Fails exactly on non-positive sizes; otherwise the size moves by the signed fill |
| PositionMath.GrowthAverage | services/reconciliation/position_math.py:49-60 | Growth conserves absolute cost, realizes nothing and ends on the side of the fill |
| PositionMath.AbsorbMovesBasis | services/reconciliation/position_math.py:50-85 | In all eight cases size × average cost less realized profit moves by exactly the signed notional |
| PositionMath.PositionValuesTheTradeLog | services/reconciliation/position_math.py:47-85 | At every mark price, the value of the folded position is the prior value plus the profit of every trade of the log on its own |
| PositionMath.ClosedOutProfitIsCashFlow | services/reconciliation/position_math.py:62-85 | When a log from flat has size zero, realized profit is its net cash flow before fees |
| PositionMath.AbsorbTwoPieces | services/reconciliation/position_math.py:50-85 | Two pieces at one price equal the whole, also with the boundary on zero or across a flip |
| PositionMath.SplitAnywhere | services/reconciliation/position_math.py:50-85 | Any number of positive pieces of a fill give the same three numbers, from every prior position |
| PositionMath.SplitInsideALog | services/reconciliation/position_math.py:50-85 | Splitting a fill inside a log leaves the end of the log unchanged |
| PositionMath.SameSideFillsCommute | services/reconciliation/position_math.py:50-60 | From flat or the same side, any reordering of same-side fills ends in the same position with nothing realized |
| LotBook.AbsorbKeepsAgreement | services/reconciliation/position_math.py:50-85 | Size, average cost and realized profit agree with an explicit list of lots before and after any trade |
| LotBook.PositionSummarizesLots | services/reconciliation/position_math.py:50-85 | After any log from flat the position is the summary of its open lots, realized profit taken lot by lot |
| LotBook.AverageCostIsBetweenPricesPaid | services/reconciliation/position_math.py:50-85 | The average cost lies between the lowest and highest own-side fill price since the last open or flip |
| Ledgers.ApplyFillMovesCash | services/reconciliation/position_math.py:88-99 | A fill moves its own user's cash by its signed notional and fee, and nobody else's |
| Ledgers.RowIsFoldOfItsFills | services/reconciliation/engine.py:58-75 | After any global log, a stored row is the fold of that row's own fills |
| Ledgers.BalanceIsSumOfFills | services/reconciliation/engine.py:77-85 | A balance is the prior one plus the deltas of that user's fills |
| Ledgers.BalanceIgnoresOrder | services/reconciliation/engine.py:77-85 | It depends on the multiset of those fills only |
| Ledgers.InterleavingsAgree | services/reconciliation/engine.py:58-85 | Two interleavings of the same per-row logs leave equal stores, row for row |
| Ledgers.BooksLoseOnlyFees | services/reconciliation/engine.py:58-85 | Cash plus the cost of all open positions less all realized profit changes by exactly the fees paid, over any log in any mix of markets and users |
| Reconciliation.ReconciliationEngine.Apply | services/reconciliation/engine.py:58-85 | Fails exactly on non-positive sizes with both stores unchanged; otherwise both stores become those of the ledger model |
| ConcurrentApply.UninterruptedCallIsApplyFill | services/reconciliation/engine.py:58-85 | From any state, the four pieces of a call, run without interruption, are one reconciled fill |
| ConcurrentApply.StepKeepsInv | services/reconciliation/engine.py:58-85 | With distinct users in flight, every piece keeps: stores are those of the ended calls plus what calls in flight wrote, and what they have read is current |
| ConcurrentApply.InterleavedCallsAreSerial | services/reconciliation/engine.py:58-85 | If no two calls in flight share a user, every interleaving ends in the stores of any serial run that keeps each user's order |
| ConcurrentApply.StepKeepsStores | services/reconciliation/engine.py:58-85 | The same stores invariant, for calls in flight that merely do not depend on each other |
| Serializability.SerialIffIndependent | services/reconciliation/engine.py:58-85 | For any stores and any list of fills: every complete interleaving of their calls ends in the stores of some serial order if and only if no two of the fills depend on each other, where two depend if both are accepted, of one user, and share a row or either moves the balance |
| Serializability.TwoCallsAreSerialIffUsersDiffer | services/reconciliation/engine.py:58-85 | Two accepted fills, one of which moves the balance, are serial in every interleaving if and only if their users differ |
| Serializability.LockstepLosesTheFirst | services/reconciliation/engine.py:58-85 | Two calls of one user in lockstep lose what the first did to the balance and to the row of the second |
| Serializability.ConflictFreeRunsAreSerial | services/reconciliation/engine.py:58-85 | If no two calls in flight ever depend on each other, a complete run ends in the stores of the calls in the order they ended |
| RiskEngine.Engine.EvaluateSignal | services/risk_engine/engine.py:47-81 | The loop returns the results of the gates in order up to the first failure, or of all of them; the intent repeats every field of the signal and carries these results; approval if and only if there are gates and all pass |
| RiskEngine.VerdictReports | services/risk_engine/engine.py:50-81 | The same of the verdict that the pipeline uses |
| RiskEngine.ReportsAreUnique | services/risk_engine/engine.py:50-81 | That description admits one result only |
| RiskEngine.DecisionsEndAtFirstFailure | services/risk_engine/engine.py:50-63 | Decisions are the results of the shortest gate prefix ending in a failure, or of all gates |
| RiskEngine.ApprovedIffAllPass | services/risk_engine/engine.py:30-32 | Approval means a non-empty list in which every gate passes, asked or not |
| RiskEngine.PriceBoundsAreCents | services/risk_engine/gates/price_bounds.py:11-27 | Passes exactly for limits from 0.01 to 0.99, and its reason says which side was left |
| RiskEngine.DecisionsExplainThemselves | services/risk_engine/gates/base.py:31-50 | Every decision bears the name of its gate and has a reason exactly when it is a rejection |
| RiskEngine.VerdictIgnoresOrder | services/risk_engine/engine.py:30-63 | Permuting the gates never changes the verdict |
| RiskEngine.MoreGatesNeverHelp | services/risk_engine/engine.py:30-63 | Adding gates before or after a non-empty list never turns rejection into approval |
| RiskEngine.SlippageGateMeansCompleteFill | services/risk_engine/gates/slippage_cap.py:34-58 | After this gate, a marketable tick-aligned order fills completely on the same quotes, within the cap plus less than a tick |
| RiskEngine.SlippagePassesWhenFillerCanFillWhole | services/risk_engine/gates/slippage_cap.py:34-58 | Passes exactly when the side that the filler hits holds the whole order within the cap of the limit; the branch for a missing best price is never taken |
| Execution.PaperExecutionEngine.Submit | services/execution/engine.py:57-99 | A seen id gets nothing; a new one gets its order and, exactly on a marketable book, the fill that size and depth allow; the id is seen afterwards |
| Execution.ExecuteExecutes | services/execution/engine.py:61-99 | The order has the intent's fields and the new id; it has a fill exactly when the book is marketable: of that order, of the largest micro-share multiple within size and depth, at the quantized best price, with the two per cent fee |
| Execution.AnswerRecordsTheExecution | services/execution/engine.py:61-99 | When a waiting submission gets its book, one entry is recorded: of its own intent, executed on that book; nothing else changes but the wait |
| Execution.SubmitWaits | services/execution/engine.py:57-61 | A submission waits exactly when its signal is new, and its id is seen from then on |
| Execution.SignalsExecuteAtMostOnce | services/execution/engine.py:57-99 | In every interleaving at the book await, each seen id is waiting or has its order, not both and not twice; every entry is what executing its intent comes to on some book |
| IntentStream.DuplicatesChangeNothing | services/execution/engine.py:57-99 | A stream with duplicates and its first occurrences leave the same ledger and the same seen ids |
| Pipeline.SettlingAppliesOneFill | services/execution/engine.py:57-99 | Settling applies one fill of the intent exactly when its signal is new and the book marketable, and otherwise leaves the ledger alone |
| Pipeline.SlippageVerdictIsOnTheQuotes | services/risk_engine/gates/slippage_cap.py:34-58 | Composed: approval by the slippage gate depends on the quotes of the moment as the filler would see them |
| Pipeline.ApprovedOnQuotesFillsWhole | services/risk_engine/gates/slippage_cap.py:34-58 | Composed: an order approved with this gate, settled on the same quotes that its limit reaches, fills whole within the cap and less than a tick |
| Solvency.ApprovalCovers | services/risk_engine/gates/usdc_sufficient.py:29-38 | Approval establishes a limit from 0.01 to 0.99 and a balance that covers the full order with fee |
| Solvency.CoveredFillKeepsCash | services/execution/paper_filler.py:51-73 | Any partial fill of a covered order, rounded, with its rounded fee, leaves the balance non-negative, on buys and sells |
| Solvency.GatedRunsStaySolvent | services/risk_engine/gates/usdc_sufficient.py:29-38 | No balance is negative in any reachable state of any gated run with gate rate at least the filler's |
| Solvency.SolventIffGateCoversFee | services/risk_engine/gates/usdc_sufficient.py:18-38 | With the USDC and price-bounds gates, runs never overdraw if and only if the gate's fee rate is at least the filler's 0.02 |
| OutstandingOrders.SafeTogetherIffCovered | services/risk_engine/gates/usdc_sufficient.py:29-38 | For any intents of any users, settled in turn, in which the user's own sales have non-negative limits (as the price-bounds gate ensures): no books overdraw the user if and only if the balance covers the sum of the worst costs of that user's new signals |
| OutstandingOrders.WorstOfTicks | services/execution/paper_filler.py:51-73 | On tick-aligned sizes and limits the worst cost is the notional at the limit plus its fee for a purchase, and nothing for a sale |
| OutstandingOrders.WorstBooksCostWorst | services/execution/paper_filler.py:51-73 | Books that offer each purchase whole at its limit make the balance fall by exactly that sum |
| OutstandingOrders.GateCostOfAllIsEnough | services/risk_engine/gates/usdc_sufficient.py:29-38 | If the balance covers the sum of the gate's own costs, no books overdraw the user |
| OutstandingOrders.TwoApprovalsAtOnceOverdraw | services/risk_engine/gates/usdc_sufficient.py:29-38 | A case of it: two orders approved against one balance, each safe alone, overdraw it together on some books |
| Solvency.RejectedOrderWouldDrainTheBalance | services/risk_engine/gates/usdc_sufficient.py:29-38 | A rejected order, filled whole at its limit, would leave less than a micro-unit: no rejection without need |
| PositionCap.GatedRunsStayCapped | services/risk_engine/gates/per_market_cap.py:28-37 | Every position stays within the cap in every gated run, for any partial fills |
| PositionCap.RejectedOrderWouldLeaveTheCap | services/risk_engine/gates/per_market_cap.py:28-37 | A rejected order, filled whole, would leave the cap |
| ExposureCap.FillStaysWithinReserve | services/risk_engine/gates/per_user_aggregate_cap.py:28-38 | A fill raises the cost of a user's longs by at most what the gate reserved, flips included |
| ExposureCap.GatedRunsStayBounded | services/risk_engine/gates/per_user_aggregate_cap.py:28-38 | The cost of a user's longs never exceeds the cap in any gated run that starts within it, provided no long that the user starts with has a negative average cost and no ask that the user meets rounds to a negative price |
| ExposureCap.CapHoldsIffCostsAreNotNegative | services/risk_engine/gates/per_user_aggregate_cap.py:28-38 | For any ledger, user and floor under the asks, the cap holds over all runs if and only if no long of the user has a negative average cost at the start and the filler does not round the floor to a negative price |
| ExposureCap.NegativeLongBreaksTheCap | services/risk_engine/gates/per_user_aggregate_cap.py:28-38 | Selling a micro-share of a long of negative average cost passes the gate and takes the exposure above the cap |
| ExposureCap.RejectedPurchaseWouldExceed | services/risk_engine/gates/per_user_aggregate_cap.py:28-38 | Unless the position is short, a rejected purchase filled whole at its limit would exceed the cap |
| PaperTrading.Trade | services/risk_engine/engine.py:47-81 | Running the three services on a signal is exactly the two pipeline events, so the run theorems hold of them |
| InterleavedPipeline.PiecesMatchAtomicRun | services/execution/engine.py:57-99 | Cut at the book await and the four store awaits, every interleaving of users matches a run with atomic settlements: same approvals, same seen signals, and each user's stores are, or will be once that user's settlement ends, those of the atomic run, whatever replies are still to come |
| InterleavedPipeline.RestIsAnAtomicRun | services/reconciliation/engine.py:58-85 | With no settlement under way, stores, seen signals and approvals equal those of the atomic run |
| InterleavedPipeline.AnswerBeginsTheRecordedFill | services/execution/engine.py:61-99 | A book answer records one order, executed on that book, and begins the reconciliation of exactly the fill recorded with it |
| InterleavedPipeline.RestIsARunOfTheRecordedFills | services/reconciliation/engine.py:58-85 | With no settlement under way, the stores are those of the recorded fills one after another: each was reconciled once and nothing else was |
| InterleavedPipeline.UninterruptedTrade | services/execution/engine.py:57-99 | The pieces of one trade of an idle user, in a row, evaluate, submit and reconcile as the pipeline does, whatever is under way for others, and leave that alone |
| InterleavedPipeline.CanComeToRest | services/execution/engine.py:61-99 | Book answers and store operations alone can bring every state to rest |
| InterleavedPipeline.StoresStaySolvent | services/reconciliation/engine.py:77-85 | Every stored balance is non-negative after every piece of every gated run |
| InterleavedPipeline.StoresStayCapped | services/reconciliation/engine.py:58-75 | Every stored position is within the cap after every piece of every gated run |
| InterleavedPipeline.StoresStayBounded | services/reconciliation/engine.py:58-75 | The cost of a user's stored longs is within the cap after every piece of every gated run, under the two conditions of the atomic runs |
| InterleavedPipeline.SignalsTradeAtMostOnce | services/execution/engine.py:57-99 | Composed with gates and reconciler, each seen id still is waiting or has its order, not both and not twice |
| EventBus.EveryReachableStateDeliversOnce | shared/events/bus.py:64-92 | Taken plus buffered is what was put; no buffer exceeds the bound that the bus was made with; streams never mix; each publish has reached each queue it dealt with once and no other |
| EventBus.PutsUnlessFull | shared/events/bus.py:73-80 | A put waits exactly when its queue holds as many envelopes as the bus was made for, and otherwise appends; without a positive bound it never waits |
| EventBus.OldestSubscriberFirst | shared/events/bus.py:73-82 | Once a later subscriber of a stream has been given an envelope, every earlier one has been |
| EventBus.SubscribersGrow | shared/events/bus.py:81-82 | A stream's list of subscribers only grows, and only at its end |
| EventBus.SubscribeAppends | shared/events/bus.py:77-83 | A new queue is empty, of its stream, and last in the list; no other list changes |
| EventBus.SnapshotTakesEverySubscriber | shared/events/bus.py:71-72 | A snapshot holds exactly the queues subscribed to the stream at that moment |
| EventBus.EarlierPublishComesFirst | shared/events/bus.py:69-92 | If one publish returned before another began, every queue of its snapshot gets and hands out the two in that order |
| EventBus.LateSubscriberMissesIt | shared/events/bus.py:77-83 | A subscriber added after a snapshot never receives that envelope |
| EventBus.PublishCanReturn | shared/events/bus.py:73-75 | From every reachable state each publish can be brought to its return by a continuation that holds only its own snapshot and puts and consumers' gets |
| EventBus.StepKeepsInv | shared/events/bus.py:69-92 | Every piece of every coroutine keeps the delivery invariant |
| EventBus.InMemoryEventBus.NewSubscriberQueue | shared/events/bus.py:77-83 | A new empty queue is appended to its stream's list and nothing else changes |
| EventBus.InMemoryEventBus.Next | shared/events/bus.py:88-90 | Hands out the oldest buffered envelope, or none, and touches no other queue |
| EventBus.InMemoryEventBus.Deliver | shared/events/bus.py:73-75 | The loop of puts runs to the return or to the first full queue, and returns if and only if every remaining queue has room |
| EventBus.InMemoryEventBus.PublishNow | shared/events/bus.py:69-75 | A publish call returns without waiting if and only if no queue subscribed to its stream is full |

## Left out

- The awaits inside an evaluation: all gates of one evaluation see the same state. While a user is being evaluated no other piece writes that user's rows, but a provider could change its quotes between two gates.
- Orders of one user that settle at the same time as each other: `OutstandingOrders` settles them one after another; `Serializability` says when overlapping `apply` calls amount to that.
- Decimal precision: Python's context limit of 28 digits and the six decimals of the stored average cost (`shared/db/models/positions.py:12`) are not modelled.
- Single-comparison gates (user, strategy, kill switch, resolution, freshness, cooldown, sizes, spread, price against mid) appear as arbitrary read-only checks.
- The per-strategy exposure cap needs an attribution of fills to strategies that no file defines.
- Gates that raise, stores that fail and cancelled coroutines.
- The order in which waiting publishers are woken: any order is allowed.
- Database models, migrations, repositories, the HTTP application, market-data client, heartbeat loop and telemetry.
- Live order submission, time in force, cancel and replace: not implemented in the repository.
