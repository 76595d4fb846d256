# Verified model of the trading platform

A Dafny model of the parts of the platform where money, positions and cached market data change
hands, with machine-checked proofs about every input and every run. `dafny verify dfyconfig.toml`
checks the whole project.

Money, prices and quantities are `real`; times and ids are `int` and `nat`. The signal providers, the
aggregator and the decision engine are an arbitrary input: every theorem holds for whatever they decide.

## What is modelled

**The trading ledger.** One cycle of the runtime fills deferred entries, applies stop, target and
timeout exits, starts the day, marks to market, takes a same-bar signal exit, and opens or defers a
position. State is spread over the store (`StateStore`), the engine's own tables (`Engine`) and the event
log; a third ledger is rebuilt from the log by the metrics (`Metrics`). `Pricing` holds the pure pricing,
sizing, exit and gate rules, `Runtime` the order of the phases and the validation harness. The classes
change their fields in place as the source does and are proved against functions on values; the
theorems are about those functions:

- `StateStore`, `RiskRecord`, `DailyRecord`: cash conservation, exact equity drift, what the risk record
  means and how it relates to the calendar day
- `LedgerLaws`, `CycleLaws`: the invariant that ties store, tables and event log together, step by step
  and over any interleaving of symbols
- `ExitLaws`, `FillLaws`, `TradeLaws`: which positions a cycle closes and opens, at what price and on what
  terms, and what a trade earns, over whole runs
- `OrderLaws`, `ExposureLaws`: what every order taken respects, and what the recorded exposure is
- `RunLaws`, `CapReached`: the position cap with deferred fills and that it is exact, one close per
  opening after liquidation
- `HoldingTime`: the bar counter and the bound on it
- `Replay`: the event-sourced curve against the store, cycle by cycle and as a whole
- `Overdraft`: how far below zero cash can go, that the bound is reached, and when it is zero
- `RoundTrip`: one whole run that ends flat with an equity that is not its cash and a day's profit erased

**Delta-neutral carry.** `CarryManager` (plan, fill, equity), `PlanLaws` (when each plan is made and what it
achieves), `CarryRunner` (the paper loop, profit attribution, price-path independence), `LiveCarry` (lot
rounding, the two-leg protocol with failure and unwind, reconciliation over runs) and `ReportLaws` (prices,
fees and cash of live executions, read off the venue's replies).

**The candle cache.** `Ohlcv` (paginated range download), `MarketCache` (the continuous file extended by
gap fetches, against a fixed history) and `LiveCache` (the same file while the exchange goes on trading).

**Four small algorithms.** `SseParser` and `JobStream` (the incremental event-stream parser, the server
that feeds it, and both end to end; the format is section 9.2.6 of the WHATWG HTML Standard),
`Sampling` (the greedy non-overlapping sample), `MarketStructure` (the two-pointer bias sweep) and
`TrialSampler` (distinct trials from a grid).

`Wrappers`, `Arithmetic`, `Sums` (all in `Wrappers.dfy`) and `StableSort` are shared: option and result types,
bounds and absolute values, sums over sequences, and a stable sort.

## Where the code does not do what one would expect

Each is stated as a lemma: a concrete input, the exact condition, or both:

- equity is not cash when flat: marking is skipped then (`RoundTrip.FlatEquityNeedNotBeCash`,
  `RoundTrip.FlatEquityIsCashIff`)
- exposure is added at one equity and taken off at another, so a flat account that has gained still counts
  as exposed (`RoundTrip.FlatExposureNeedNotBeZero`, `ExposureLaws.TripReturnsIff`)
- a day is reset after its first bar's exits, so their profit is in no day's record
  (`RoundTrip.FirstExitIsErased`, `DailyRecord.DailyProfitIsDaysIff`)
- the event-sourced curve never charges entry fees and ends above the cash by their sum
  (`Replay.FinalCurveOverstatesCash`)
- deferred fills bypass the gate, so with two symbols or more `max_open_positions` is no limit
  (`CapReached.CapIsReached`, `CapReached.LimitIsRespectedIff`)
- the gate prices at the raw close, so an order that passes can overdraw the account; it cannot exactly
  when slippage and fee are zero (`Overdraft.OverdraftIsReached`, `Overdraft.NeverInDebtIff`)
- a resize can ask to cover more perp than is short (`CarryManager.PlanCanOvercoverPerp`,
  `CarryManager.OvercoverIff`)
- the comment on lot rounding promises a step both venues accept; that needs one step to divide the
  other (`LiveCarry.BothAcceptIff`)
- an accepted but unfilled order is booked as filled (`LiveCarry.UnfilledOrderIsBooked`,
  `LiveCarry.ReportIsRightIff`), and if the perp leg then fails the unwind sells coins that were there
  before (`LiveCarry.UnwindSellsBaseline`, `LiveCarry.UnwindRestoresIff`)
- what an unwind costs in spread and fees is booked nowhere: a failed step moves no cash
  (`ReportLaws.LiveRunCash`)
- a forced fetch apart from the coverage leaves a hole that is never filled
  (`MarketCache.ForcedKeepsCoherentIff`, `MarketCache.HoleIsNeverFilled`)
- the documentation of the bias series says no bar sees a pivot before a live run would; the live
  indicator however refuses to speak before 4k + 1 bars, and the series does not
  (`MarketStructure.EarlyVerdictIff`)
- a horizon above 10^9 drops the first active bar (`Sampling.OptimalIffHorizonFits`)

## Model

| member | source | states |
|---|---|---|
| StateStore.CashConservation | backend/src/state/store.py:104-174 | After any run of transitions, cash plus the notional locked in open positions is the opening endowment plus realised profit less all entry fees; only the fee part of an opening cost ever leaves the account |
| StateStore.EquityDrift | backend/src/state/store.py:146-208 | The stored equity of any reachable state differs from cash plus book value by exactly the entry fees charged since the last mark plus the stored running profit of positions closed since then |
| StateStore.StepDrift | backend/src/state/store.py:176-230 | The same for one transition: a mark brings the difference to zero, a close adds the closed position's stored running profit, an opening adds its fee |
| RoundTrip.FlatEquityNeedNotBeCash | backend/src/runtime/platform_runtime.py:503-521 | A run of three cycles, a purchase, one marked bar and a target exit, ends flat with a stored equity 100 above the cash, because marking is skipped while flat |
| RoundTrip.FlatEquityIsCashIff | backend/src/state/store.py:142-147 | In every flat state a run reaches, equity is cash if and only if the entry fees and the stored running profits of what was closed since the last mark cancel |
| StateStore.InMemoryStateStore.ApplyTransition | backend/src/state/store.py:87-102 | A transition for another portfolio is refused and changes nothing; any other is dispatched to its handler and the whole new state is the specified one |
| StateStore.InMemoryStateStore.ApplyPositionOpened | backend/src/state/store.py:104-126 | The opening handler: cash less cost, position appended, exposure up by the notional over equity |
| StateStore.InMemoryStateStore.ApplyPositionClosed | backend/src/state/store.py:128-174 | The closing handler: cash plus profit plus released notional, equity plus profit, loss streak, drawdown, exposure not below zero |
| StateStore.InMemoryStateStore.RevaluePositions | backend/src/state/store.py:191-208 | The marking loop: each position revalued at its symbol's price if there is one, and the total of their book values |
| StateStore.InMemoryStateStore.ApplyMarkToMarket | backend/src/state/store.py:176-230 | Equity becomes cash plus book value of the revalued positions, and the drawdown follows it |
| ExposureLaws.RunExposure | backend/src/state/store.py:104-174 | In every state a run reaches, the recorded exposure is a fold over its transitions: each opening adds its notional over the equity of that moment, each close takes off the notional opened under its id over the equity of the later moment, never below zero |
| ExposureLaws.CloseNeverRaises | backend/src/state/store.py:135-140 | With positive equity a close never raises the exposure and never makes it negative |
| ExposureLaws.TripReturns | backend/src/state/store.py:109-140 | A position closed at the equity it was opened at gives back exactly the exposure it took |
| ExposureLaws.TripReturnsIff | backend/src/state/store.py:109-140 | Otherwise, between positive equities, the exposure is back where it was if and only if there was none before and the equity has fallen |
| RoundTrip.FlatExposureNeedNotBeZero | backend/src/state/store.py:133-140 | A run of three cycles that gains on its only trade ends flat with an exposure still on record |
| TradeLaws.MarkStoresGain | backend/src/state/store.py:191-208 | A mark stores for each position of the bar's symbol side times quantity times the move to the close, and leaves the others as they were |
| RiskRecord.RecordFollowsCloses | backend/src/state/store.py:139-174 | Over any run of transitions: realised profit is the sum of all closes, daily profit and the signal count are those since the last reset, the start equity is the stored equity at that reset, the loss streak is exactly the losing closes at the end, and drawdown is the fall of stored equity since the reset |
| RiskRecord.RunKeepsRecord | backend/src/runtime/platform_runtime.py:503-554 | The same record, relative to the last reset, in every state a run of the platform reaches |
| RiskRecord.DrawdownMeans | backend/src/state/store.py:149-152 | A recorded drawdown taken off a positive start equity gives the equity, and it is zero while equity is not below the start |
| DailyRecord.CycleMovesDaily | backend/src/runtime/platform_runtime.py:125-138 | What one cycle does to the daily figures: on the same day it adds everything it closed; on a new day only what it closed after the pre-decision phase counts, and the start equity is the stored equity after that phase |
| DailyRecord.DayIsCalendar | backend/src/runtime/platform_runtime.py:523-554 | A day is 24 hours from midnight |
| DailyRecord.DailyFigures | backend/src/runtime/platform_runtime.py:523-554 | At the end of every cycle of a run in time order: daily profit is what was closed in the cycles of that calendar day less what the pre-decision phase of the first of them closed, the signal count is the decisions approved that day, and the start equity is the stored equity of that first cycle after its fills and exits |
| DailyRecord.DailyProfitIsDaysIff | backend/src/runtime/platform_runtime.py:125-128 | Daily profit is the profit of the calendar day if and only if what the pre-decision phase of its first cycle closed sums to nothing |
| DailyRecord.DrawdownSinceDayStart | backend/src/state/store.py:149-152 | The recorded drawdown is the fall of the stored equity since the fills and exits of the calendar day's first cycle |
| RoundTrip.FirstExitIsErased | backend/src/runtime/platform_runtime.py:125-138 | A target reached on the first bar of a day closes 200 in profit on that day, of which the record keeps nothing |
| Pricing.SizeMeetsSmallestCap | backend/src/execution/simulated_pricing.py:31-65 | A size is zero when none can be named, and otherwise, to half a unit of the eighth decimal, the smallest of the exposure or risk target times the multiplier, what cash buys and what the exposure limit leaves; zero if one of them leaves no room |
| Pricing.SizeIsCapped | backend/src/execution/simulated_pricing.py:31-65 | Sizing is never negative, is zero unless entry, cash and equity are positive, and exceeds what cash buys at the entry price by at most half a unit of the eighth decimal |
| Pricing.RoundIsNearest | backend/src/execution/simulated_pricing.py:65-65 | Rounding is to the nearest unit, and to the even one of two equally near |
| OrderLaws.SizeRespects | backend/src/execution/simulated_pricing.py:31-65 | Up to rounding a size stakes at most its share of equity, on its price or on its distance to the stop, costs at most the cash, takes at most what the exposure limit leaves, and reaches one of the three; it is zero where no size can be named or one leaves nothing |
| OrderLaws.GateVerdict | backend/src/execution/risk_gate.py:15-38 | The gate refuses for the first that applies of: as many positions as the limit, no price, total exposure above the limit, notional above the cash; and passes otherwise |
| OrderLaws.TakenIsSound | backend/src/execution/simulated.py:136-213 | Every decision the engine takes is within the position limit, the exposure limit, the cash and its own stake, on the account it was taken on |
| FillLaws.FillsFrom | backend/src/execution/simulated_pricing.py:11-28 | A fill is at the open, the middle or the close as configured, a buyer pays slippage above it and a seller receives it below, and the position has the order's symbol, side, size, stop and target |
| Engine.SimulatedExecutionEngine.OpenPosition | backend/src/execution/simulated_positions.py:18-114 | An opening: fill price with slippage, fee on the notional, zero bars held, the order recorded, one event and one transition that agree on the position |
| Engine.SimulatedExecutionEngine.ClosePosition | backend/src/execution/simulated_positions.py:117-210 | A close: signed profit less the exit fee, both table entries popped, the event and the transition carry the same profit |
| Engine.SimulatedExecutionEngine.ProcessPendingEntries | backend/src/execution/simulated_pending.py:32-75 | Every deferred entry of the bar's symbol is filled at the open, in queue order; the others stay queued in order |
| Engine.SimulatedExecutionEngine.EvaluatePosition | backend/src/execution/simulated.py:337-370 | One turn of the exit loop: other symbols untouched, the bar counted, then stop, target, timeout or signal exit |
| Engine.SimulatedExecutionEngine.EvaluateBar | backend/src/execution/simulated.py:299-372 | Fills first, then exits over the positions of the snapshot taken before the fills, so an entry filled on this bar cannot exit on it |
| Engine.SimulatedExecutionEngine.Execute | backend/src/execution/simulated.py:121-297 | Sizing, gate, then a deferred or immediate entry; each refusal leaves the engine unchanged and publishes its own event |
| Engine.SimulatedExecutionEngine.LiquidateOpenPositions | backend/src/execution/simulated.py:374-407 | End of run: every open position of the symbol is closed at the bar's close |
| ExitLaws.FirstLook | backend/src/execution/simulated_exits.py:31-45 | A position open before a bar survives its first look if and only if the bar is of another symbol, or touched neither its stop nor its target and left its age below max_bars_in_trade; otherwise an event closes it, at the stop if that was touched, even with the target, else at the target, else at the close |
| ExitLaws.OpenAfterSignal | backend/src/execution/simulated_exits.py:24-29 | After an approved signal exactly the positions remain that are of another symbol or on its side |
| ExitLaws.FilledStays | backend/src/execution/simulated.py:317-337 | A position filled on a bar cannot leave on that bar's first look |
| ExitLaws.EveryExit | backend/src/execution/simulated_exits.py:24-45 | In every cycle of every run, every position that was open before is stopped, taken at its target, timed out, closed at the close by an opposing approved signal, or still there as it was; which, when and at what price and profit is decided by its own terms, the bar, its age and the decision |
| ExitLaws.NoOtherExit | backend/src/execution/simulated.py:337-370 | Every close a cycle publishes is of a position that had to go on one of its two looks |
| ExitLaws.LiquidationAtClose | backend/src/execution/simulated.py:374-407 | Liquidation publishes one end-of-run close at the bar's close for every position of the symbol, and nothing else |
| TradeLaws.RoundTripPays | backend/src/execution/simulated_positions.py:36-147 | Opening a position and closing it later moves cash by side times quantity times price move, less the fee rate on the money paid and on the money received |
| TradeLaws.EveryCloseEarns | backend/src/execution/simulated_positions.py:130-146 | Over every run, each close in the log earned side times quantity times the move from its own earlier opening, less the exit fee |
| TradeLaws.RealisedIsTrades | backend/src/state/store.py:160-163 | Realised profit in every state a run reaches is the sum of that over the closes in its log, each paired with its opening |
| TradeLaws.FinalCashIsTrades | backend/src/validation/harness.py:82-238 | After a whole validation run cash is the opening capital plus what every trade in the log earned less the fee rate on every opening |
| FillLaws.BarFillsQueue | backend/src/execution/simulated_pending.py:47-75 | A bar fills every deferred entry of its symbol at the open, in the order they were queued and on their own terms, and keeps the others |
| FillLaws.DecisionActs | backend/src/execution/simulated.py:132-297 | A decision changes something if and only if it is approved, has a signal the engine may take, a size, and passes the gate; then one order on the signal's terms is queued, or filled at once |
| FillLaws.RefusalTells | backend/src/execution/simulated.py:132-213 | A decision that is not taken publishes nothing, an invalid size, or the gate's reason, whichever it was |
| FillLaws.EveryOpening | backend/src/runtime/platform_runtime.py:125-138 | In every cycle of every run each deferred entry of the symbol is filled at the open, and every other opening was decided in that cycle and passed the gate |
| FillLaws.EntryFeesAreCharged | backend/src/execution/simulated_positions.py:36-38 | The entry fees of a run are the fee rate on price and quantity of every opening in its log |
| CycleLaws.OpeningCase | backend/src/execution/simulated.py:132-213 | A decision opens a position only when approved, of positive size, not a short for a long-only engine, filled at once, and passed by the gate against the same snapshot |
| CycleLaws.NoOpeningCase | backend/src/execution/simulated.py:259-274 | A decision that opens nothing publishes at most one event that replay ignores, and changes the engine only by queueing one order of its symbol behind a passed gate under next_open |
| Runtime.PlatformRuntime.RunCycle | backend/src/runtime/platform_runtime.py:109-149 | The order of a cycle: fills and exits, daily reset, mark, decision counted, same-bar signal exit, execution; the candle is published before everything the engine did |
| Runtime.PlatformRuntime.PreDecisionEvaluate | backend/src/runtime/platform_runtime.py:188-203 | The engine's transitions are applied to the store in the order they were emitted and its events collected |
| Runtime.PlatformRuntime.MaybeResetDailyRisk | backend/src/runtime/platform_runtime.py:523-554 | Daily counters are reset once per calendar day, never on the first cycle, and skipped when they are already reset |
| Runtime.PlatformRuntime.MarkPositions | backend/src/runtime/platform_runtime.py:503-521 | Marking at the bar's close, skipped when flat |
| Runtime.PlatformRuntime.SameBarExitAndExecute | backend/src/runtime/platform_runtime.py:465-501 | A signal exit on the same bar sees the marked store; execution sees the store after that exit |
| Runtime.ValidationHarness.Run | backend/src/validation/harness.py:82-194 | Too few bars is an error that runs no cycle; otherwise one cycle per bar past the lookback, then liquidation on the last bar |
| Runtime.ValidationHarness.LiquidateOpenPositions | backend/src/validation/harness.py:196-238 | Nothing happens when the symbol has no open position; otherwise the liquidation transitions are applied and its events published |
| LedgerLaws.StepExitKeeps | backend/src/execution/simulated.py:337-370 | One turn of the exit loop keeps the whole invariant and can only remove the position it looked at |
| LedgerLaws.CloseStepKeeps | backend/src/execution/simulated_positions.py:143-210 | A close removes exactly its id from store and tables together, is its opening's only close, and replays to the store's realised profit |
| CycleLaws.CandleIsNeutral | backend/src/runtime/platform_runtime.py:126-138 | Publishing the candle ahead of the bar's own events changes no count of openings or closings and no replayed position |
| CycleLaws.CycleKeeps | backend/src/runtime/platform_runtime.py:109-149 | Every phase of a cycle, on any input, keeps the invariant, and every open position is one that was open before or carries a newly drawn id |
| CycleLaws.RunKeeps | backend/src/execution/simulated_positions.py:81-209 | At every cycle boundary of any interleaving of symbols: both engine tables have exactly the ids of the open positions, ids are distinct, each opening has one close if and only if it is no longer open, and the event log replays to the store's positions and realised profit |
| CycleLaws.RunBalances | backend/src/state/store.py:104-208 | Cash conservation and exact equity drift in every state a run of the platform reaches |
| HoldingTime.CounterIsElapsed | backend/src/execution/simulated.py:341-344 | The counter of every open position is exactly the number of its symbol's bars since the one that opened it, although evaluate_bar may run twice in a cycle |
| HoldingTime.HoldingTimeIsBounded | backend/src/execution/simulated_exits.py:42-45 | At every cycle boundary the counter of every open position is the number of its symbol's bars since it opened, and if max_bars_in_trade is positive that is fewer |
| RunLaws.PositionCap | backend/src/execution/risk_gate.py:21-22 | Over any interleaving on L symbols: open plus deferred positions never exceed max_open_positions - 1 + L under next_open, nor max_open_positions with immediate fills, and no symbol ever has two deferred entries |
| CapReached.CapIsReached | backend/src/execution/simulated_pending.py:47-74 | That cap is exact: for every positive limit and any L symbols some run with deferred fills, which bypass the gate, ends with max_open_positions - 1 + L positions open |
| CapReached.LimitIsRespectedIff | backend/src/execution/risk_gate.py:21-22 | No run ends with more open positions than max_open_positions if and only if the limit is not positive, fills are immediate, or at most one symbol is traded |
| RunLaws.LiquidationKeeps | backend/src/execution/simulated.py:374-407 | Liquidation keeps the invariant, and exactly the positions of the other symbols stay open, unchanged |
| RunLaws.EveryPositionClosedOnce | backend/src/validation/harness.py:196-238 | After a whole single-symbol run nothing is open, both engine tables are empty, and every id opened has exactly one opening and one close in the log |
| Metrics.WalkEvents | backend/src/validation/metrics.py:135-157 | The event walk: last close, open lots by position id, realised profit, and the last value recorded for each day |
| Metrics.ComputeMarkToMarketSeries | backend/src/validation/metrics.py:97-160 | The daily curve: empty without candles, else the initial capital followed by one value per day in date order, from the events sorted stably by time |
| StableSort.SortIsStable | backend/src/validation/metrics.py:114-114 | Sorting events by time keeps those of one time in the order they were published |
| Replay.ReplayMatchesStore | backend/src/validation/metrics.py:140-157 | Replay refines the store: the value the walk records at the end of every cycle is the store's cash plus, for each open position, its entry notional and signed profit at the bar's close, plus all entry fees charged so far; for any mix of longs, shorts, deferred fills and exits |
| Replay.CyclesPublish | backend/src/runtime/platform_runtime.py:125-138 | A run publishes its events in time order, each cycle's after its own candle |
| Replay.CurveIsDayValues | backend/src/validation/metrics.py:135-160 | For every run in time order the whole curve is the opening capital followed by one value for each day: the store's cash plus its positions marked at the close of that day's last bar plus all entry fees charged so far |
| Replay.FinalCurveOverstatesCash | backend/src/validation/metrics.py:154-160 | At the end of a liquidated run the curve ends above the cash really held by exactly the entry fees of the whole run |
| Overdraft.PurchaseFits | backend/src/execution/simulated_pricing.py:23-28 | A purchase that fits the cash at the raw close can overdraw it by at most the slippage and fee mark-up on that cash |
| Overdraft.OverdraftIsBounded | backend/src/execution/risk_gate.py:24-36 | In a long-only run filled at the close, whatever the stops and whatever is signalled to sell, at every transition cash is at least minus ((1+s)(1+f) - 1) times the most cash held so far |
| Overdraft.OverdraftIsReached | backend/src/execution/simulated.py:136-147 | The bound is exact: for every slippage and fee, one purchase of the whole account ends on it |
| Overdraft.NeverInDebtIff | backend/src/execution/risk_gate.py:24-36 | For every slippage that is not negative and every fee from 0 to 100 per cent: no long-only run filled at the close on signals that quote it, from any account not in debt and under any limits, ends with cash below zero if and only if slippage and fee are both zero |
| CarryManager.PlanNeverOversellsSpot | backend/src/carry/position_manager.py:92-147 | No plan sells more spot than is held, whatever the prices and the target |
| CarryManager.PlanCanOvercoverPerp | backend/src/carry/position_manager.py:135-145 | A resize can ask to cover more perp than is short |
| CarryManager.ResizesIff | backend/src/carry/position_manager.py:118-147 | A plan re-strikes exactly when the pair is held, the hedge is inside its band, and a positive size is outside its own band around a positive target |
| CarryManager.OvercoverIff | backend/src/carry/position_manager.py:118-147 | A plan covers more perp than is short exactly then, and when the target at the spot price is below what the spot leg has over the perp leg |
| PlanLaws.TargetIs | backend/src/carry/position_manager.py:87-90 | The pair is held exactly when funding is at or above the minimum, and its target times the capital multiplier is the equity, if that is positive |
| PlanLaws.PlanIffDue | backend/src/carry/position_manager.py:92-147 | Each kind of plan is made if and only if its own condition holds of position, target and prices; nothing is done only inside both bands or with nothing to do |
| PlanLaws.PlanAchieves | backend/src/carry/position_manager.py:103-147 | Filled in full, a close ends flat, a rebalance leaves spot alone and ends with no net delta, an opening and a resize end at the target notional and move both legs alike |
| PlanLaws.RunIsServed | backend/src/carry/carry_runner.py:94-125 | Every step of every run makes the plan that is due and achieves what it is for; below the minimum funding it ends flat |
| CarryManager.FillIsSelfFinancing | backend/src/carry/position_manager.py:150-203 | On every input a fill changes equity only by fill price against mark on the quantities really traded, the fee, and spot sold that was not held; averaging in and partial closes included |
| CarryManager.SpotEntryIsAverage | backend/src/carry/position_manager.py:177-200 | Buying averages the spot entry price over the new quantity, selling leaves it, a leg sold out forgets it |
| CarryManager.FlipsCountCrossings | backend/src/carry/position_manager.py:192-193 | Each entry to and exit from the market counts one flip; a step counts at most one |
| CarryRunner.PaperRunner.TakeStep | backend/src/carry/carry_runner.py:94-125 | A step: target from marked equity, plan, fill, cash flow, funding only while in the market, equity and action logged |
| CarryRunner.PaperRunner.RunAll | backend/src/carry/carry_runner.py:127-130 | A run is its steps in order |
| CarryRunner.PaperFillCosts | backend/src/carry/carry_runner.py:46-67 | A paper fill costs the traded notional of both legs times taker fee and slippage, fee on the planned quantity and spread on the traded one |
| CarryRunner.StepEquity | backend/src/carry/carry_runner.py:94-125 | Marked equity after a step is marked equity before it plus accrued funding less the cost of its plan |
| CarryRunner.ProfitAttribution | backend/src/carry/carry_runner.py:94-130 | For every sequence of snapshots: final equity is the initial capital plus market profit on the carried legs between snapshots plus funding less trading cost |
| CarryRunner.LogEndsWithEquity | backend/src/carry/carry_runner.py:122-124 | The logs gain one equity and one action per snapshot, and the last entry is the equity the attribution explains |
| CarryRunner.LogEntry | backend/src/carry/carry_runner.py:122-124 | Every entry of the two logs is the marked equity and the action of the state reached at its snapshot, and later steps never change it |
| CarryRunner.PricePathIndependence | backend/src/carry/carry_runner.py:94-125 | When spot and perp marks coincide the legs are equal in every reachable state, no rebalance is ever planned, and equity is capital plus funding less cost whatever the prices did |
| CarryRunner.EvenStep | backend/src/carry/position_manager.py:112-147 | With equal legs and marks no rebalance is planned, both legs move by the same amount, and the cost is charged on twice one leg |
| LiveCarry.RoundQtyShrinks | backend/src/carry/live_executor.py:147-160 | Rounding keeps the sign and never enlarges an order |
| LiveCarry.TruncateIsLargest | backend/src/carry/live_executor.py:155-159 | Truncation is the largest whole number of steps not above the quantity |
| LiveCarry.BothAcceptIff | backend/src/carry/live_executor.py:147-160 | The rounded quantity is whole in both venues' steps for every order exactly when one step is a whole multiple of the other |
| LiveCarry.CarryExchange.MarketSpot | backend/src/carry/live_executor.py:191-193 | A spot order asks the market for the size of the quantity, trades what the market executes of it and reports the resolved fill |
| LiveCarry.CarryExchange.MarketPerp | backend/src/carry/live_executor.py:195-200 | A perp order asks for the size of the quantity, reduce-only or not, and moves the short by what the market executes of it |
| LiveCarry.LiveCarryExecutor.ExecutePlan | backend/src/carry/live_executor.py:218-257 | The two-leg protocol: spot for the rounded delta, then perp, reduce-only when it lessens the short, then, if the perp order fails and the spot reply reads positive, an unwind for the quantity read; and the signed report |
| ReportLaws.ReportTells | backend/src/carry/live_executor.py:170-189 | A successful execution reports each leg at its own reply's quantity, price (else the one read back, else the reference) and fee (else the estimate of ten or five basis points), and the sum of both fees |
| ReportLaws.ExecutionCase | backend/src/carry/live_executor.py:218-257 | An execution does nothing for an empty plan, fails with the spot order, fails with the perp order after an unwind that itself may fail, and otherwise reports |
| ReportLaws.LiveRunCash | backend/src/carry/live_executor.py:248-257 | Over every live run the runner's cash moves by minus the spot quantity at the spot reply's price, plus the gain on the short covered at the perp reply's price, less both fees; a failed step moves none |
| LiveCarry.UnwindRestoresIff | backend/src/carry/live_executor.py:240-246 | When the perp leg fails and the market fills whatever the unwind asks for, the exchange is as before if and only if the quantity read from the spot reply, if positive, is what the spot order traded |
| LiveCarry.TruthfulUnwindRestoresIff | backend/src/carry/live_executor.py:173-173 | For a spot reply whose filled figure is true, that holds exactly when something was traded or no positive amount is given |
| LiveCarry.UnwindSellsBaseline | backend/src/carry/live_executor.py:240-246 | A spot order accepted but not filled, and a refused perp order: the unwind sells coins the runner never bought |
| LiveCarry.FailureRestores | backend/src/carry/live_executor.py:240-246 | With replies that read right and a market that fills the unwind, every failed execution, at whichever order, leaves the exchange as it was |
| LiveCarry.ReportMatchesBook | backend/src/carry/live_executor.py:248-257 | A successful execution reports exactly what moved on the exchange, never more than planned |
| LiveCarry.RunReconciles | backend/scripts/run_carry_live.py:109-124 | Over every run with the perp leg failing anywhere, runner quantities are the exchange's less the spot baseline; what is assumed is that replies read right, reduce-only is respected and the unwind is filled |
| LiveCarry.ReportIsRightIff | backend/src/carry/live_executor.py:173-173 | For replies whose filled figure is true, the report of a successful execution is what moved on the exchange if and only if each order placed traded something or has no amount in its reply |
| LiveCarry.UnfilledOrderIsBooked | backend/src/carry/live_executor.py:173-173 | An accepted order with nothing filled is read as fully filled, so the runner books a position the exchange does not hold |
| Ohlcv.WalkPages | backend/src/data/live_provider.py:79-109 | The page loop terminates and collects the history from the first bar at or after the start, at least to the end of the range |
| Ohlcv.FetchOhlcvRange | backend/src/data/live_provider.py:59-126 | For any page size the result is exactly the exchange's bars in [start, end], each once and in order, or the error that applies |
| Ohlcv.FrameIs | backend/src/data/live_provider.py:117-120 | From any rows, repeated or out of order, the frame is in strict time order and has for each time in the range exactly the first row of that time |
| MarketCache.MergeKeepsLast | backend/src/data/market_cache.py:155-169 | Whatever the two frames hold, unsorted or repeated: the merge is in strict time order and has for each time exactly its last row, the new frame counting as later |
| MarketCache.MergeMembers | backend/src/data/market_cache.py:155-169 | For frames already in strict time order, as files and downloads are: every row of both sides is kept except that the new row wins a repeated timestamp |
| MarketCache.CacheFile.TryFetchGap | backend/src/data/market_cache.py:179-201 | A gap with no bars is not an error; any other failure is |
| MarketCache.CacheFile.DownloadCsv | backend/src/data/market_cache.py:278-364 | Covered requests touch nothing; otherwise the missing ends are fetched and merged in order, and the file is replaced only when something was fetched |
| MarketCache.CoveredIsLeft | backend/src/data/market_cache.py:305-318 | A request that the first and last rows of the file enclose changes nothing |
| MarketCache.Extends | backend/src/data/market_cache.py:320-364 | A request that coverage does not meet leaves one window over the old coverage and the new range, however far apart they are |
| MarketCache.DownloadKeepsCoherent | backend/src/data/market_cache.py:302-364 | Against a fixed history a non-forced request keeps the file equal to the exchange's bars between its ends, loses no row, cannot fail once the file has a row, and on success holds every exchange bar of its range |
| MarketCache.RangesStayCovered | backend/src/data/market_cache.py:288-318 | Over any run of requests, every bar of every range ever requested successfully is in the file at the end |
| MarketCache.ForcedKeepsCoherentIff | backend/src/data/market_cache.py:309-326 | A forced fetch keeps the file coherent if and only if no exchange bar lies strictly between its range and the old coverage |
| MarketCache.HoleIsNeverFilled | backend/src/data/market_cache.py:305-352 | Coverage is judged by the first and last timestamps, so a missing time between them stays missing after any run of non-forced requests |
| LiveCache.GrowthKeepsTip | backend/src/data/market_cache.py:341-352 | While the exchange's last bar changes and new bars appear, only the file's last row can become wrong |
| LiveCache.LiveDownload | backend/src/data/market_cache.py:328-364 | A request against the changed exchange cannot fail and has a row for every bar of its range; the file is exact afterwards if and only if it was, or the request reaches past the last row, or the only row is fetched again |
| LiveCache.LiveRunKeepsTip | backend/src/data/market_cache.py:278-364 | However trading and requests interleave, the file is the exchange's window except for the values of its last row |
| SseParser.ParseSseChunks | frontend/hooks/useJobEventSource.ts:25-48 | The parser: complete blocks become frames in order, comments and blocks without data are dropped, the unfinished part is returned |
| SseParser.SplitResumes | frontend/hooks/useJobEventSource.ts:30-31 | Splitting can be resumed from the last part wherever the text was cut, even inside a delimiter |
| SseParser.SplitIs | frontend/hooks/useJobEventSource.ts:30-31 | The parts joined with blank lines are the text, and each ends at the first blank line there is |
| SseParser.LinesAre | frontend/hooks/useJobEventSource.ts:36-36 | The lines of a block joined again are the block, and none has a line break |
| SseParser.EventIsLast | frontend/hooks/useJobEventSource.ts:36-38 | The last line that names an event names the frame |
| SseParser.DataAreAll | frontend/hooks/useJobEventSource.ts:39-44 | The data of a frame are the trimmed texts of all its data lines, in order |
| SseParser.TrimIs | frontend/hooks/useJobEventSource.ts:38-40 | Trimming takes white space off both ends, and nothing else |
| SseParser.ActedOnIff | frontend/hooks/useJobEventSource.ts:113-127 | A frame is acted on exactly when it is one of the three kinds and its data parse |
| SseParser.JobEventReader.Receive | frontend/hooks/useJobEventSource.ts:110-131 | One chunk: every completed frame of a known kind with parseable data is acted on, those after a terminal frame of the same chunk too |
| SseParser.JobEventReader.ReadAll | frontend/hooks/useJobEventSource.ts:107-135 | Reading stops after the chunk in which a terminal frame was seen |
| SseParser.ChunkInvariance | frontend/hooks/useJobEventSource.ts:104-135 | For every way of cutting the stream the frames acted on agree with one parse of the whole text up to the first terminal frame, and a terminal frame is seen exactly when the text has one |
| SseParser.CutsAgree | frontend/hooks/useJobEventSource.ts:107-131 | Two ways of cutting the same text agree |
| JobStream.SseJobEventStream | backend/src/api/services/job_progress.py:63-89 | The server sends the snapshot, then heartbeats and progress up to one terminal payload, and nothing after it |
| JobStream.ServerTellsAll | backend/src/api/services/job_progress.py:71-87 | The server writes the snapshot and then one message for each update, in order, a heartbeat for each silence, up to the first terminal one and including it |
| JobStream.FrameOfBlock | backend/src/api/services/job_progress.py:59-60 | An event written by format_sse is read back as the same frame; a heartbeat is read as none |
| JobStream.ParseOfWire | backend/src/api/services/job_progress.py:59-87 | Round trip: parsing everything the server wrote gives back its events in order with nothing left over |
| JobStream.PageFollowsServer | frontend/hooks/useJobEventSource.ts:104-135 | End to end: wherever text is cut and wherever the connection breaks, the page acts on a prefix of what was sent; having seen a terminal frame it has everything, and with the whole text it stops exactly when the job ended |
| Sampling.NonoverlapMask | backend/scripts/run_funding_signal_research.py:175-184 | The mask keeps exactly the positions of the greedy choice |
| Sampling.GreedyIsOptimal | backend/scripts/run_funding_signal_research.py:176-184 | The kept positions are active and pairwise at least the horizon apart, and no set of active positions with that spacing is larger |
| Sampling.OptimalIffHorizonFits | backend/scripts/run_funding_signal_research.py:178-182 | That holds for every signal if and only if the horizon is at most 10^9, the offset of the first comparison |
| MarketStructure.Advance | backend/src/research/direction_phase.py:98-104 | A pointer moves over every point confirmed by the bar, keeping the last two prices |
| MarketStructure.SweepBars | backend/src/research/direction_phase.py:92-114 | The loop over the bars computes both pointers and the held-over bias at every bar |
| MarketStructure.MarketStructureBias | backend/src/research/direction_phase.py:73-116 | The one-pass series is UP at a bar exactly when the production verdict on the bars up to it, held over when undecided, is not negative |
| MarketStructure.SweepIsHeld | backend/src/research/direction_phase.py:80-86 | The sweep refines the quadratic form: after each bar the pointers count the pivots the production helper confirms by then and the bias is its verdict held over |
| MarketStructure.NoLookAhead | backend/src/research/direction_phase.py:84-86 | The bias at a bar is unchanged by any change to prices after it, hence by any pivot confirmed after it |
| MarketStructure.SeriesFollowsProduction | backend/src/features/indicators/market_structure.py:76-98 | Where the live indicator gives a verdict on the bars so far the series has the same one, and elsewhere keeps the one before |
| MarketStructure.VerdictIff | backend/src/features/indicators/market_structure.py:38-62 | A verdict is up exactly when the last two highs and the last two lows that k bars have confirmed both rise, down when both fall |
| MarketStructure.EarlyVerdictIff | backend/src/features/indicators/market_structure.py:81-86 | The series gives a verdict before the live indicator has its minimum of 4k + 1 bars, for some history, exactly when the pivot width k is at least 2 |
| TrialSampler.GenerateTrials | backend/src/validation/optimization_space.py:320-369 | Product, validity filter, the empty and small cases, the division error at a cap of zero, the stride loop and the fill loop |
| TrialSampler.ProductIsGrid | backend/src/validation/optimization_space.py:333-336 | A combination is in the product exactly when it has one value of each axis and nothing else |
| TrialSampler.ProductSize | backend/src/validation/optimization_space.py:333-336 | There are as many combinations as the sizes of the axes multiply to |
| TrialSampler.CandidatesAre | backend/src/validation/optimization_space.py:89-115 | A candidate is a combination of the grid with some provider on and, where families are kept apart, not both a trend and a reversion provider; they are kept apart by default when two switches have a choice of values |
| TrialSampler.StrideLoop | backend/src/validation/optimization_space.py:350-358 | The stride loop picks each stop not seen before until the cap is reached |
| TrialSampler.FillUp | backend/src/validation/optimization_space.py:360-369 | The fill loop terminates, drawing and removing until the cap is reached or nothing remains |
| TrialSampler.TrialsAreDistinctAndEnough | backend/src/validation/optimization_space.py:345-369 | With more valid combinations than a positive cap, whatever is drawn: the trials are pairwise distinct, valid, and as many as the smaller of the cap and the number of distinct valid combinations |
| TrialSampler.SeedCannotMatter | backend/src/validation/optimization_space.py:345-358 | If no axis repeats a value, the stride loop alone reaches the cap: trial i is the valid combination i strides in, and the seed cannot change the result |

## Left out

- Floating point: rounding of amounts and prices is not modelled, except `round(q, 8)` in sizing and the lot steps of the venues; NaN does not occur.
- Uuids: a fresh position or order id is the next number; that two uuids differ is assumed by this, not proved.
- Clocks: a cycle carries one event time, which the candle, the decision and the engine's events of that cycle share, and one close, which liquidation reuses.
- Unused fields of events: correlation ids, causation, fill and order events, and everything else replay does not read; with event emission switched off the log is not the one modelled here.
- Snapshots kept by the store, `get_portfolio` and `get_risk`: plain reads.
- Transition payloads: `risk_updated` may name only the four fields the platform sends; the unknown transition type, an error in the source, cannot be expressed.
- StateStore.CashConservation: does not cover `portfolio_updated`, which overwrites cash and positions wholesale; the platform never issues it.
- Pricing.CheckGate: is stated for non-zero equity, since the source divides by it; `Pricing.SizeIsCapped` shows that no order of positive size reaches the gate otherwise.
- Overdraft.OverdraftIsBounded: is stated for bars whose low and close are not negative and for signals to buy that quote the bar's close and a target that is not negative; stops and signals to sell are unrestricted. With deferred fills or shorts there is no such bound.
- Replay.ReplayMatchesStore: assumes bars arrive in time order, and marks every position at the last close of whatever symbol, as the walk does; only with one symbol is that each position's own close.
- DailyRecord.DailyFigures: assumes bars arrive in time order; out of order the runtime resets on every change of day, back and forth.
- Replay.CurveIsDayValues: assumes the same order, and is about the run before liquidation; `Replay.FinalCurveOverstatesCash` gives the last point after it.
- A runtime without an execution engine, and a run with several portfolios on one store.
- The returns derived from the curve, Sharpe, Sortino, drawdown and regime statistics, and the dashboard timeline, which repeats the walk.
- Retries, rate limits and network errors of the exchange client: a range request fails only for want of bars; a page is the first `limit` bars at or after a time, and bars are at least one timeframe apart.
- Ohlcv.FetchOhlcvRange: does not model timestamps finer than a millisecond or the end of the range truncated to one.
- File writes are atomic replacements of a value; reading back what was written is taken to be exact, and times are integers, not parsed text.
- CarryRunner.PricePathIndependence: is stated for a rebalance band that is not negative and a capital multiplier that is not zero; the source divides by the multiplier, and a negative band would plan rebalances of nothing.
- LiveCarry.RunReconciles: assumes replies read as what was traded, reduce-only is respected and the spot market fills the unwind, whatever quantity that asks for; `LiveCarry.UnwindRestoresIff` and `LiveCarry.ReportIsRightIff` say exactly when the code gets by without. An order that raises after it was accepted is not modelled, nor are persisted state and restarts.
- LiveCarry.BothAcceptIff: is stated for truncation to whole steps, which is how the client library rounds amounts down. That library is commonly known to refuse an amount that truncates to zero; the catch-all in `round_qty` would then return the raw quantity, where the model has zero.
- JSON is a predicate on texts; decoding of bytes to text, reconnection with back-off, cancellation and the query cache are not modelled.
- JobStream.PageFollowsServer: assumes the payload text has no line break and no white space around it, which holds for the JSON text of an object.
- TrialSampler.GenerateTrials: flags are numbers; a text flag, which would raise in the source, counts as off. The generator's draws are an arbitrary function of the draw number.
- Data frames, arrays and dictionaries are sequences and maps; aliasing between them does not occur in the code modelled.
- Indicators and signal providers, strategy configuration, Optuna search, persistence, the HTTP and WebSocket layers, and the user interface.
