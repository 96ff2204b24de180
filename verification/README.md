# BlackOak: planner, executors, order protocol and ranking

BlackOak is an autonomous equity trading engine. One pure planner decides what to sell and what to buy; a backtester carries
its plans out against a simulated portfolio, and a live engine carries them out against a broker, an order ledger and
per-symbol entry theses. A cross-sectional ranking feeds both. This project models those parts and proves what holds over
whole runs, not just single calls:

- **Parity.** Over any sequence of cycles with zero execution cost, the simulated book and the broker-plus-thesis book stay the
  same, field by field, and every live cycle completes. Where parity stops is proved too: a whole cycle keeps it if and only
  if both engines decide the same entries, each entry is simulated at its planned price and the exits raise the same cash.
- **No lookahead.** Two histories that agree up to day t give the same equity points and trades up to day t.
- **Risk, cash and limits.** The risk budget over a position's whole life and in whole runs, costs included, with the exact
  opening price at which it fails; the closed form of the trailing stop, the book
  equation, the cash floor, forty positions, eight entries a day, and 27.5% of equity per entered sector.
- **Rules from their inputs.** Which sell rule fires, when a name is entered and on what budget, what a session sees of the
  loaded rows, what a fill costs, what a percentile measures: each is stated on raw rows, ranks and numbers, beside the
  functions that compute it.
- **Orders.** Crashes and retries converge to one submission; the ledger is sound under every interleaving of placement and
  polling; no live order is ever refused.
- **Ranking.** Ranks, percentiles, gate, coverage and attribution agree; every composite is in [0, 100]; a company that is at
  least as good on every metric never scores lower; tied ranks and deciles are right.

Conventions. Money, prices and scores are `real`. A dictionary is a `map` together with an explicit key order wherever its
iteration order is visible. Code that updates state in place is a class or a method proved against a function on values
(`SimPortfolio` against `Book`, `LiveEngine` against `Cycle`, `FuseScores` against `Fuse`); the theorems are about those
functions. `Round3` and `Round4` round half to even. The normal distribution function is any nondecreasing function into
[0, 1] and the standard deviation any nonnegative root of the variance. Signal computation, the fusion inside the backtest and
set iteration order are parameters (`Env`); broker quotes, fuses, clocks and enumeration order are inputs of a cycle (`Inputs`).

## Model

| member | source | states |
|---|---|---|
| Sizing.SizeIsLargest | backend/app/domain/sizing.py:37-66 | the size is the largest whose stop costs at most 0.4% of equity, whose notional is at most 2.5% of it and which is affordable, with stop and target 2.5 and 3 ATR away; refused exactly when even that one is below 100 dollars |
| CostModel.CostBand | backend/app/backtest/cost_model.py:13-22 | costs always go against the trade, by 7 to 16 basis points |
| CostModel.CostOf | backend/app/backtest/cost_model.py:13-22 | 7 basis points in quiet trading, 3 more per unit of volume ratio above 1.5, 16 from 4.5 on, paid by a buy and given up by a sale |
| Rules.BuyIffEligible | backend/app/domain/rules.py:164-221 | a buy passes exactly when every gate does, in whatever order they are read; each of the six portfolio limits is blamed exactly when the gates read before it pass and it fails, which for the sector pool cap comes before the average and trigger gates |
| Rules.BuyRefusals | backend/app/domain/rules.py:164-221 | each of the other refusals, exactly |
| Rules.SellRules | backend/app/domain/rules.py:260-314 | which rule fires: for each of the six reasons the exact condition on bar, stop, target, scores, trend signals and reversing days |
| Rules.SellTerms | backend/app/domain/rules.py:249-314 | what each reason sells, at which price, and where it leaves stop, high-water mark and reversing days |
| Lifecycle.SurvivingAction | backend/app/domain/rules.py:260-314 | a session that leaves a position open trims half at the target, once, or holds and trails |
| Lifecycle.ClosingAction | backend/app/domain/rules.py:260-314 | a session that closes a position sells all of it, at the stop or better unless the bar gapped through the stop |
| Lifecycle.TrailIsHistory | backend/app/domain/rules.py:249-314 | while a position is open, its stop, high-water mark, trim latch and shares are a closed form of the price history |
| Lifecycle.TrailStep | backend/app/domain/rules.py:249-257 | that closed form advances exactly as the trailing-stop rule does |
| Lifecycle.StopNeverFalls | backend/app/domain/rules.py:249-257 | the stop never falls while the position stays open |
| Lifecycle.LifeWithinRisk | backend/app/domain/rules.py:260-314 | over any number of coherent bars a life earns at least -2.5 ATR a share, 1.5 ATR once trimmed, unless it ends in a gap |
| Lifecycle.RiskBudgetHolds | backend/app/domain/sizing.py:47-66 | a planned position loses at most 0.4% of the equity it was sized on over its whole life, and earns at least 1.5 ATR a share once trimmed, unless closed by a gap |
| Lifecycle.GapIffOpenBelowStop | backend/app/domain/rules.py:279-282 | a session closes a position by a gap if and only if it opens below the stop that the price history left |
| Lifecycle.RiskBudgetIff | backend/app/domain/sizing.py:47-66 | for every planned position and every life that ends: the loss is within 0.4% of equity if and only if the closing session opens at or above a worst open fixed by size, ATR and trim |
| Lifecycle.GapExceedsBudget | backend/app/domain/rules.py:279-282 | every planned position whose worst open is a positive price is closed at more than the budget by one coherent bar |
| Lifecycle.PlannedGap | backend/app/domain/decision.py:124-209 | an entry that the planner funds, and such a bar for it |
| Lifecycle.TrendExitIsConfirmed | backend/app/domain/rules.py:300-311 | in the session of a trend exit and in the one before it the price was below its average, MACD bearish and momentum under 30; one such session never sells |
| RunHistory.ExecuteOnSymbol | backend/app/backtest/engine.py:158-184 | executing a plan does to each held position what its own sell action says and nothing else |
| RunHistory.SessionOnSymbol | backend/app/backtest/engine.py:110-142 | so does a whole session, for each position it has data on |
| RunHistory.PositionLivesItsLife | backend/app/backtest/engine.py:62-145 | in any backtest a held position is what the sell rules make of the sessions that show it |
| RunHistory.ClosedLeavesBook | backend/app/backtest/engine.py:158-171 | the session that closes its life takes the symbol off the book |
| RunHistory.StopIsHistoryInRuns | backend/app/backtest/engine.py:167-171 | so its stop and high-water mark in the run are the closed form of the prices seen |
| SessionData.SessionShows | backend/app/backtest/engine.py:76-128 | a session decides on a name exactly when it has 200 rows up to the day, one on the day and a score; its bar is that row, its closes the history up to the day, its ATR the percentage of that raw close |
| SessionData.StopIsHistoryInRows | backend/app/backtest/engine.py:167-171 | in any run an open position is what the raw rows since its first day made of it: high-water mark, trim latch and stop |
| RunProfit.RunRecordsLife | backend/app/backtest/engine.py:158-184 | what the trade log records on the symbol is exactly what the sales of that life book at their fills |
| RunProfit.LifeWithinCosts | backend/app/backtest/cost_model.py:13-22 | which is what the sales raise before costs, less 7 to 16 basis points of it, less what the sold shares cost |
| RunProfit.RunRiskBudget | backend/app/backtest/engine.py:62-145 | in every backtest, an entered position loses at most 0.40736% of the equity it was sized on, all costs included, if its closing session opens at or above the worst open, and more than 0.39972% if below |
| CandidatePool.FirstPassCount | backend/app/domain/rules.py:98-109 | in every rank prefix the first pass admits min(size, sum over sectors of min(cap, names)) |
| CandidatePool.GreedyIsOptimal | backend/app/domain/rules.py:80-109 | no selection obeying the cap has more names in any rank prefix |
| CandidatePool.PoolIsSectorClosed | backend/app/domain/rules.py:111-121 | the final pool holds a rank prefix of each sector |
| CandidatePool.PoolIsFull | backend/app/domain/rules.py:111-121 | the pool has min(size, n) names and exceeds a sector's cap only if the caps alone could not fill it |
| CandidatePool.TopUpInOrder | backend/app/domain/rules.py:111-119 | the second pass keeps the first pass and fills up in rank order |
| CandidatePool.CappedOutIff | backend/app/domain/rules.py:98-121 | a name is reported as capped out exactly when there was room for it and only its sector's share was used up, and the second pass did not take it |
| CandidatePool.PoolSizes | backend/app/domain/rules.py:75-131 | a sector's share is a fifth of the pool, at least one, and the pool a fifth of the scored names between one and eighty |
| CandidatePool.BuildCandidatePool | backend/app/domain/rules.py:80-121 | the two loops compute that pool and the names a cap displaced |
| CandidatePool.AdmitUnderCap | backend/app/domain/rules.py:98-109 | the first loop admits exactly the first-pass names and defers the others in rank order |
| CandidatePool.TopUp | backend/app/domain/rules.py:111-119 | the second loop leaves exactly the final pool |
| Decision.ExitsForEach | backend/app/domain/decision.py:97-121 | one exit intent per held symbol with data, and no other |
| Decision.WeaknessOfData | backend/app/domain/decision.py:82-121 | when a held name that neither stops nor trims is sold for weakness, sold for its trend, or held, from its closes, signals and scores |
| Decision.PlanExits | backend/app/domain/decision.py:97-121 | the exit loop produces those intents in book order |
| Decision.CandidatesDistinct | backend/app/domain/decision.py:136-145 | the candidates are the data, once each |
| Decision.FundInRankOrder | backend/app/domain/decision.py:146-209 | the entry loop with its running cash and sector totals is the fold of the per-name decision |
| Decision.PlanEntries | backend/app/domain/decision.py:124-209 | entries, skips and threshold of the entry planner, whose order PlanRanks.DecidedOnBetterRanks explains |
| Decision.PlanCycle | backend/app/domain/decision.py:212-227 | a plan is the exits and the entries made for the same book |
| PlanLimits.AcceptedIsFunded | backend/app/domain/decision.py:177-207 | a funded name is sized within every limit and moves the running budget by exactly its notional |
| PlanLimits.EnteredIff | backend/app/domain/decision.py:146-207 | a name is entered exactly when it shows each score, trend and trigger the gates ask for, room is left under each limit, and a size exists; it lacks an ATR or a size only when all else passes |
| PlanLimits.EntryTerms | backend/app/domain/decision.py:189-204 | what an entry says and what position it opens |
| PlanLimits.PlanStaysWithinLimits | backend/app/domain/decision.py:146-207 | entries cost at most the cash, respect 40 positions and 8 a day, and leave every entered sector below 27.5% of equity |
| PlanLimits.PlanNamesAreFresh | backend/app/domain/decision.py:152-155 | entries are distinct candidates not held at cycle start |
| PlanLimits.EntriesComeFromData | backend/app/domain/decision.py:189-207 | every entry is sized from its own data within the limits |
| PlanOrder.WalkRanked | backend/app/domain/decision.py:137-209 | unranked names never change the running budget |
| PlanOrder.PlanIsOrderIndependent | backend/app/domain/decision.py:136-209 | permuting the data changes neither the entries nor the multiset of skips |
| PlanRanks.RankedInOrder | backend/app/domain/decision.py:139-145 | the names handed to the pool are the ranked ones, in increasing rank |
| PlanRanks.PoolIsOfRanked | backend/app/domain/decision.py:136-145 | the pool is that of these names under their own sectors, for the pool size of the scored names |
| PlanRanks.PoolTakesBestRanks | backend/app/domain/rules.py:98-121 | of each sector the best ranks are in the pool |
| PlanRanks.EntriesInRankOrder | backend/app/domain/decision.py:136-209 | entries come in strictly increasing rank |
| PlanRanks.DecidedOnBetterRanks | backend/app/domain/decision.py:146-209 | every ranked name is decided on the cash and sector totals that the better-ranked entries leave, and on nothing that ranks worse |
| Books.ExitIsAfterAction | backend/app/backtest/engine.py:160-171 | one executed exit leaves exactly what the sell rules leave |
| Books.ExitsAreAfterActions | backend/app/backtest/engine.py:160-171 | so do all exits of a plan, and other positions are untouched |
| Books.SellBalances | backend/app/backtest/portfolio.py:58-73 | a sale keeps cash plus cost basis less realized profit |
| Books.EntryBalances | backend/app/backtest/portfolio.py:51-56 | so does a buy of a symbol that is not held |
| Books.ExecuteBalances | backend/app/backtest/engine.py:158-184 | so does a whole executed plan, whatever the pricing |
| Books.ExitTrade | backend/app/backtest/engine.py:160-166 | the sale an exit logs: shares, price, reason, realized profit and cash |
| Books.EntryTrade | backend/app/backtest/engine.py:173-184 | the purchase an entry logs and the position it opens |
| BookLimits.CashFloor | backend/app/backtest/engine.py:158-184 | cash after a plan is at least min(cash, -0.16% of cash) |
| BookLimits.BookStaysBounded | backend/app/domain/rules.py:213-214 | an executed plan leaves at most forty positions and the book equation |
| BookLimits.PlanIsPlannedFrom | backend/app/domain/decision.py:212-227 | every shared plan satisfies what the executor relies on |
| Portfolio.SimPortfolio.Buy | backend/app/backtest/portfolio.py:51-56 | the in-place ledger follows the book function on a buy |
| Portfolio.SimPortfolio.Sell | backend/app/backtest/portfolio.py:58-73 | and on a sale, including the position's own fields |
| Regimes.ClassifierMonotone | backend/app/domain/regime.py:69-90 | more bearish features never give a less cautious label |
| Regimes.LabelIff | backend/app/domain/regime.py:43-90 | risk-off exactly with three of the four signs, risk-on exactly with at most one, read off the volatility, yield-curve and index series and the breadth |
| Regimes.ConfirmedIsLatestRepeat | backend/app/domain/regime.py:93-104 | the confirmed regime is the raw label at the latest index that is first or repeats its predecessor |
| Regimes.FourLabelsSuffice | backend/app/backtest/engine.py:102-105 | keeping the last four raw labels loses nothing |
| Regimes.SwitchNeedsTwoPrints | backend/app/domain/regime.py:93-104 | the confirmed label changes only onto a label printed twice in a row |
| DataWindow.BisectSplits | backend/app/backtest/data_window.py:64-71 | on ascending dates the cut separates the past from the future |
| DataWindow.WindowIsPast | backend/app/backtest/data_window.py:74-132 | a session sees every price, volume and market column exactly up to its day, bars of that day only, and exactly the statements at least 45 days old |
| DataWindow.WindowsAgree | backend/app/backtest/data_window.py:74-132 | histories that agree up to t look the same from any day up to t |
| Backtester.ExecuteExit | backend/app/backtest/engine.py:160-171 | the executor's exit step on mutable positions follows the book function |
| Backtester.ExecuteEntry | backend/app/backtest/engine.py:173-184 | so does its entry step |
| Backtester.ExecutePlan | backend/app/backtest/engine.py:158-184 | exits first, then entries |
| Backtester.ScoreUniverse | backend/app/backtest/engine.py:76-96 | the signal pass with its breadth counters |
| Backtester.SectorTotals | backend/app/backtest/engine.py:148-155 | the sector totals of the book |
| Backtester.RunSession | backend/app/backtest/engine.py:98-142 | one session on the mutable portfolio is one step of the run |
| SessionData.SessionPlans | backend/app/backtest/engine.py:110-137 | the equity, cash, sector totals and counts a session plans on, from its holdings at the day's marks |
| SessionData.MarksShow | backend/app/backtest/engine.py:110-118 | a name is marked at its raw close of the day exactly when it has one, a score, and is scorable or held |
| SessionData.SessionPoint | backend/app/backtest/engine.py:139-142 | the equity point: cash plus what the positions are worth after trading |
| SessionData.BreadthIsShare | backend/app/backtest/engine.py:89-96 | breadth is the share of names with 200 closes that close above their own 200-day average |
| Backtester.RunBacktest | backend/app/backtest/engine.py:62-145 | the session loop computes the run, its curve, trades and regime days |
| RunRecords.CalendarIsRange | backend/app/backtest/engine.py:63 | the calendar is the trading days within the range, in order |
| RunRecords.RunIsRecorded | backend/app/backtest/engine.py:62-145 | points are dated after 200 warm-up days, in order, each with the confirmed regime of its days' own raw labels; regime days count them |
| BacktestRuns.RunKeepsBook | backend/app/backtest/engine.py:62-145 | in every run cash plus open cost equals initial cash plus realized profit, with at most 40 positions |
| BacktestRuns.RunCashFloor | backend/app/backtest/engine.py:62-145 | no session leaves cash below -0.16% of the most cash held before |
| BacktestRuns.NoLookahead | backend/app/backtest/engine.py:62-145 | equity points and trades up to t depend only on rows up to t and statements up to t less 45 days |
| BacktestRuns.RunIsOrderFree | backend/app/backtest/engine.py:110-129 | a run does not depend on the order sets are iterated in |
| Broker.FakeBroker.SubmitOrder | backend/app/adapters/fake_broker.py:60-106 | cash, positions and orders after a submission, or a refusal that changes nothing |
| Broker.SubmitMeans | backend/app/adapters/fake_broker.py:60-106 | cash, average cost, dust and the order after a submission, from the account alone |
| Broker.FakeBroker.SetPrice | backend/app/adapters/fake_broker.py:32-33 | only the quote changes |
| Broker.SubmitIsIdempotent | backend/app/adapters/fake_broker.py:63-65 | resubmitting an id at any later prices returns the same order and changes nothing |
| Broker.RefusalIgnoresPrices | backend/app/adapters/fake_broker.py:77-86 | a refused sale is refused at any price |
| OrderLedger.PlaceOrder | backend/app/services/execution.py:32-78 | one placement: skipped if known, nothing written if refused, else one order row and at most one execution |
| OrderLedger.PlacedRows | backend/app/services/execution.py:48-78 | the order row and the execution row a placement writes |
| OrderLedger.RetriesConverge | backend/app/services/execution.py:28-78 | any crashes and retries leave the broker as after one submission, and one order row once an attempt completes |
| OrderSync.SyncOpenOrders | backend/app/services/order_sync.py:37-65 | the polling loop follows the ledger function and reports what it checked, changed, wrote and found missing |
| OrderSync.SyncMeans | backend/app/services/order_sync.py:37-65 | an open order takes the reported status, a finished one is left alone, and a first priced fill is recorded |
| OrderSync.ReportCounts | backend/app/services/order_sync.py:37-45 | the report counts exactly the orders whose status moved and names those the broker does not know |
| OrderSync.LedgerIsSound | backend/app/services/order_sync.py:53-65 | under every interleaving an order has at most one execution; an order recorded filled has one, given priced fills |
| OrderSync.LedgerOnlyGrows | backend/app/services/order_sync.py:42-51 | execution rows never change and finished orders are never touched again |
| OrderSync.LedgerRemembersFirstFill | backend/app/services/order_sync.py:53-65 | the execution row is the first fill the ledger was shown |
| OrderSync.RecordedQuantityIsFinal | backend/app/services/order_sync.py:53-65 | the recorded quantity is the last one the broker reported if and only if the first fill carried it, or there was no fill and none was reported |
| OrderSync.PartialFillIsNeverCorrected | backend/app/services/order_sync.py:53-65 | a concrete partial fill that stays recorded as such |
| OrderSync.CanceledFillIsNeverRecorded | backend/app/services/order_sync.py:53-65 | a concrete order canceled after a partial fill, whose fill is never recorded |
| LiveBook.UpsertHoldings | backend/app/services/reconciliation.py:41-54 | every known holding is mirrored and counted |
| LiveBook.DropUnreported | backend/app/services/reconciliation.py:56-61 | rows the broker no longer reports go, with their theses |
| LiveBook.ReconcilePositions | backend/app/services/reconciliation.py:29-64 | the two loops compute the reconciled book |
| LiveBook.ReconciledMeans | backend/app/services/reconciliation.py:37-61 | what reconciliation leaves of each symbol's row and thesis |
| LiveBook.ReconcileMirrorsBroker | backend/app/services/reconciliation.py:37-61 | the mirror equals the broker's known holdings if and only if no reported symbol is mirrored without a company |
| LiveBook.MirrorStaysRegistered | backend/app/db/models.py:359-371 | reconciling, and companies coming and going with their rows, never leave a mirrored symbol without a company |
| LiveBook.ReconciledMirrorIsHoldings | backend/app/services/reconciliation.py:37-61 | so after every reconciliation of such a history the mirror is exactly the broker's known holdings |
| LiveBook.ReconcileIsIdempotent | backend/app/services/reconciliation.py:37-61 | reconciling again changes nothing |
| LiveBook.AdoptOrphanPositions | backend/app/services/position_adoption.py:44-87 | the loop writes the missing theses and reports them |
| LiveBook.AdoptionCoversMirror | backend/app/services/position_adoption.py:48-78 | every mirrored symbol with an ATR gets a thesis, existing ones are untouched, adopting again changes nothing |
| LiveBook.AdoptedThesisIsSane | backend/app/services/position_adoption.py:63-77 | an adopted thesis: stop 2.5 ATR below and target 3 ATR above the average entry, the rest blank |
| LiveBook.AdoptedSellsAtOnceIff | backend/app/services/position_adoption.py:63-77 | the adopting cycle sells at the adopted stop if and only if its low is at or below the average entry less 2.5 ATR |
| LiveCycle.LiveEngine.ExecuteExit | backend/app/services/decision_engine.py:160-171 | one live exit: sale sized from broker truth, then the thesis write-back |
| LiveCycle.LiveEngine.ExecuteEntry | backend/app/services/decision_engine.py:173-178 | one live entry: order, then a fresh thesis |
| LiveCycle.LiveEngine.ExecutePlan | backend/app/services/decision_engine.py:159-181 | exits, entries unless locked, reconcile; stops at a refusal |
| LiveCycle.LiveEngine.RunDecisionCycle | backend/app/services/decision_engine.py:101-183 | a cycle on the stores and the broker is one step of the live world |
| LiveRuns.CycleIsNeverRefused | backend/app/services/decision_engine.py:497-507 | a long-only account never refuses an order of a cycle, whatever rounding the mirror applies |
| LiveRuns.CycleKeepsDailyCap | backend/app/services/decision_engine.py:130-136 | a cycle never takes the buy orders submitted that day past eight |
| LiveRuns.EntriesFitTheDay | backend/app/db/repositories/trading.py:53-61 | the buy orders of the day on the ledger and the entries a cycle plans are at most eight together, and eight leave none |
| LiveRuns.FusesStopTrading | backend/app/services/decision_engine.py:146-178 | a halted cycle trades nothing, a locked day only sells |
| LiveRuns.RefusalStops | backend/app/services/decision_engine.py:159-183 | a refused order ends the cycle where it happens; a cycle that succeeds has every order of its plan on the ledger |
| LiveRuns.EntryFiles | backend/app/services/decision_engine.py:173-178 | the order an entry files |
| LiveRuns.ExitFiles | backend/app/services/decision_engine.py:160-171 | the order an exit files, sized from broker truth |
| LiveRuns.ManyCycles | backend/app/db/repositories/trading.py:53-61 | any number of cycles leave at most eight buy orders of the day, and none of their orders is refused |
| Parity.LivePlanOnBook | backend/app/services/decision_engine.py:120-136 | on related states the live engine plans the exits of the simulated book, up to order, and the entries for the broker's equity and its own sector totals |
| Parity.SamePlan | backend/app/services/decision_engine.py:120-136 | the two engines decide the same entries whenever they see the same equity and sector totals |
| Parity.SectorTotalsAgreeIff | backend/app/services/decision_engine.py:299-330 | for any book, they see the same sector totals if and only if every holding without data belongs to the live fallback sector |
| Parity.DecisionsAgree | backend/app/services/decision_engine.py:299-330 | conditions on quotes, storage and sectors under which the entries are the same |
| Parity.SectorNotionalPermutes | backend/app/services/decision_engine.py:299-330 | the sector totals do not depend on the listing order |
| Parity.SimExitsCash | backend/app/backtest/engine.py:160-166 | the simulated exits raise the sum of their proceeds |
| Parity.LiveExitLeaves | backend/app/services/decision_engine.py:510-537 | a live exit leaves in broker and thesis exactly what the sell rules leave |
| ParityRuns.LiveExitsLeave | backend/app/services/decision_engine.py:159-171 | so do all live exits, for the same proceeds |
| ParityRuns.ExitPhaseAgrees | backend/app/backtest/engine.py:158-171 | after both exit phases the two books agree |
| ParityRuns.EntryPhaseAgrees | backend/app/services/decision_engine.py:487-494 | and after both entry phases |
| ParityRuns.CycleKeepsSize | backend/app/adapters/fake_broker.py:88-94 | every position stays above the broker's 1e-9 dust, from the 100-dollar minimum and the at most one trim |
| ParityRuns.CycleFollowsPlan | backend/app/services/decision_engine.py:101-183 | a live cycle completes and leaves exactly what its own plan, carried out at its prices, leaves of the simulated book |
| ParityRuns.CycleKeepsParity | backend/app/services/decision_engine.py:101-183 | so one zero-cost cycle keeps the two books the same when both engines decide the same entries |
| ParityRuns.ParityOverRuns | backend/app/backtest/engine.py:158-184 | over any sequence of such cycles the books stay the same and every live cycle completes |
| ParityLimits.EntryParityIff | backend/app/services/decision_engine.py:487-494 | an entry keeps parity if and only if the simulated fill equals the planned price |
| ParityLimits.ExitParityIff | backend/app/backtest/engine.py:160-171 | an exit keeps parity if and only if it sells nothing or is paid its exit price |
| PlanOrder.SameFollowers | backend/app/domain/decision.py:136-209 | the entries of a plan are decided by which candidates it enters: they come in candidate order |
| ParityLimits.CycleParityIff | backend/app/backtest/engine.py:158-184 | under any pricing rule a cycle keeps parity if and only if both engines decide the same entries, each entry is filled at its planned price, and the exits raise what they raise at their exit prices |
| ParityLimits.CostsBreakParity | backend/app/backtest/cost_model.py:13-22 | so under the backtest's costs a cycle keeps parity if and only if neither side trades |
| Rounding.Round3Facts | backend/app/domain/cross_section.py:52 | rounding is monotone and within half a unit |
| Rounding.HalfEvenIsNearest | backend/app/domain/cross_section.py:52 | the nearest whole number, ties to even, if and only if |
| CrossSection.QuantileMonotone | backend/app/domain/cross_section.py:16-24 | quantiles rise with the fraction and stay inside the data |
| CrossSection.WinsorizeClips | backend/app/domain/cross_section.py:27-30 | winsorizing keeps order and moves exactly the values outside the band |
| CrossSection.ZeroDeviationIffConstant | backend/app/domain/cross_section.py:43-46 | the degenerate branch is taken exactly for constant values |
| CrossSection.RankCohort | backend/app/domain/cross_section.py:33-53 | the loop computes the percentile of every symbol |
| CrossSection.PercentileRankOrders | backend/app/domain/cross_section.py:33-53 | percentiles are in [0, 100], follow or for inverse metrics oppose the raw values, and are 50 when all agree |
| ZScores.PercentilesAreOfScores | backend/app/domain/cross_section.py:33-53 | percentiles are the rounded normal distribution of standard scores: mean zero, mean square one, gaps those of the winsorized values |
| ZScores.PercentilesIgnoreShift | backend/app/domain/cross_section.py:33-53 | adding one amount to every value of a cohort changes no percentile |
| ZScores.QuantileInterpolates | backend/app/domain/cross_section.py:16-29 | the winsorizing band lies at the interpolated 1st and 99th percentile |
| FusionMeaning.MetricScoreIs | backend/app/domain/strategy.py:309-330 | a metric score is the percentile among the reporting members of the company's cohort, its sector or everybody |
| FusionMeaning.AppliesIff | backend/app/domain/strategy.py:278-296 | a metric applies when at least a fifth of the cohort reports it |
| FusionMeaning.FamilyScoreIs | backend/app/domain/strategy.py:149-160 | a family score is the mean of the metric scores, to three decimals |
| FusionMeaning.FilledIs | backend/app/domain/strategy.py:185-207 | a missing family stands at the sector median, where there is one |
| FusionMeaning.MedianIsMiddle | backend/app/domain/strategy.py:173-182 | the median is the middle value, or halfway between the two in the middle |
| FusionMeaning.CompositeIs | backend/app/domain/strategy.py:163-170 | the composite is the weighted mean of the present families, to three decimals |
| FusionMeaning.WeightsAre | backend/app/domain/strategy.py:364-383 | covered and imputed weight are those of the observed and the missing families |
| FusionMeaning.ScoreIs | backend/app/domain/strategy.py:364-390 | no composite with more than 0.30 of the weight imputed; completeness is present over applicable metrics |
| FusionMeaning.ResultIsOwn | backend/app/domain/strategy.py:364-390 | each result is made of the company's own observations |
| FusionMeaning.CoverageAddsUp | backend/app/domain/strategy.py:336-354 | present and applicable metrics are added up over the five families |
| FusionMeaning.PlaceIs | backend/app/domain/strategy.py:397-418 | what a place in the ranking says of its company |
| FusionMeaning.TiesKeepOrder | backend/app/domain/strategy.py:397-401 | equal composites are ranked as listed |
| FusionMeaning.PercentileIsOfComposites | backend/app/domain/strategy.py:392-395 | the gated percentile is that of the composite among all composites |
| Fusion.Impute | backend/app/domain/strategy.py:185-207 | missing families at the sector median, and the weight that was missing |
| Fusion.SectorMedians | backend/app/domain/strategy.py:173-182 | the bucket loop gives the median of each sector and family with an observed score |
| Fusion.MedianAt | backend/app/domain/strategy.py:176-182 | a sector and family has a median exactly when some company of the sector has an observed score |
| Fusion.ScoreCompanies | backend/app/domain/strategy.py:364-390 | the second pass scores every company from observed and imputed families |
| Fusion.RankResults | backend/app/domain/strategy.py:392-418 | the final loop ranks and places the results |
| Fusion.FuseScores | backend/app/domain/strategy.py:299-418 | the passes together compute the fusion |
| FusedRuns.FusionRanksDistinctly | backend/app/backtest/engine.py:108 | the fusion gives distinct positive ranks, which order independence rests on |
| Ranking.OrderedBestFirst | backend/app/domain/strategy.py:397-401 | the two-key stable sort puts scored names first, best composite first |
| Ranking.RanksAreDense | backend/app/domain/strategy.py:397-404 | ranks are 1..k in nonincreasing composite order, for exactly the scored names |
| Ranking.PercentileFollowsComposite | backend/app/domain/strategy.py:392-395 | composite percentiles compare as composites do |
| Ranking.RankAndGateAgree | backend/app/domain/strategy.py:392-404 | percentiles never rise with rank, so the 70th-percentile gate cuts a rank prefix |
| Ranking.FusionRanks | backend/app/domain/strategy.py:299-418 | all of this for the whole fusion |
| Ranking.RegimeWeights | backend/app/domain/strategy.py:54-69 | every regime weighs every family positively and its weights add up to one |
| Ranking.CoverageIffImputation | backend/app/domain/strategy.py:364-383 | under regime weights imputed weight is within its cap if and only if observed weight is at least 0.70 |
| Ranking.RankedIffCovered | backend/app/domain/rules.py:190-195 | so a name is ranked if and only if it passes the coverage gate |
| CompositeScore.CompositeInRange | backend/app/domain/strategy.py:163-170 | the weighted mean of scores is a score |
| CompositeScore.FusionInRange | backend/app/domain/strategy.py:362-390 | every composite and family score, observed or imputed, is in [0, 100] |
| CompositeScore.AttributionAddsUp | backend/app/domain/strategy.py:232-253 | contributions, worst first, sum to composite - 50 within 0.003 |
| FusionMeaning.AttributionIs | backend/app/domain/strategy.py:232-253 | one line for each family that carries weight, with its own score, share and pull |
| Dominance.MetricDominates | backend/app/domain/strategy.py:320-330 | an at-least-as-good raw value gives an at-least-as-good metric score, direction included |
| Dominance.CompositeMonotone | backend/app/domain/strategy.py:163-170 | the composite rises with every family score |
| Dominance.DominanceIsRespected | backend/app/domain/strategy.py:299-395 | a company at least as good on every metric is scored whenever the other is, and no lower |
| Dominance.FamilyIsKept | backend/app/domain/strategy.py:149-160 | a family is scored if and only if some metric applies, one has a score, and at least half as many have a score as apply |
| Dominance.SectorFamiliesAreLocal | backend/app/domain/strategy.py:145-146 | valuation and fundamentals depend on the company's own sector only |
| Dominance.CompletenessIsFraction | backend/app/domain/strategy.py:345-371 | data completeness is in [0, 1] |
| Dominance.MedianSplits | backend/app/domain/strategy.py:173-182 | at least half of the observed scores are no higher than the stand-in, and half no lower |
| RankIC.RunRank | backend/app/backtest/rank_ic.py:157-165 | a maximal run of ties at positions i..j shares rank (i + j) / 2 + 1 |
| RankIC.Ranks | backend/app/backtest/rank_ic.py:153-166 | the nested loops give each value (number smaller) + (number equal + 1) / 2 |
| RankIC.RanksAddUp | backend/app/backtest/rank_ic.py:153-166 | ranks sum to n (n + 1) / 2 |
| RankIC.CutsAreEven | backend/app/backtest/rank_ic.py:206-207 | decile sizes differ by at most one |
| RankIC.ChunksCover | backend/app/backtest/rank_ic.py:205-209 | the ten contiguous chunks are the whole list |
| RankIC.Deciles | backend/app/backtest/rank_ic.py:201-210 | the mean forward return of each chunk, best composite first |
| RankIC.SortedBestFirst | backend/app/backtest/rank_ic.py:202-203 | the pairs are taken in falling composite order, ties as listed |
| RankIC.DecilesConserve | backend/app/backtest/rank_ic.py:201-210 | decile means weighted by size add up to all forward returns |

## What the code does not do

Where a documented promise is not what the code does, the model follows the code:

- A partial fill seen first is recorded and never corrected (`OrderSync.PartialFillIsNeverCorrected`), and a fill on an order
  that is then canceled or expires is never recorded at all (`OrderSync.CanceledFillIsNeverRecorded`);
  `OrderSync.RecordedQuantityIsFinal` is the exact condition.
- The 0.4% risk budget is not a bound for a bar that opens far enough below the stop (`Lifecycle.GapExceedsBudget`); the exact
  opening price is in `Lifecycle.RiskBudgetIff`, and `RunProfit.RunRiskBudget` carries it into runs with costs.
- Parity is not kept by a cycle that trades at a cost, on either side of the book (`ParityLimits.CostsBreakParity`); the exact
  condition for a cycle is `ParityLimits.CycleParityIff`.
- A held symbol without cycle data counts under its own sector in the backtest and under "Unknown" live, so the sector totals
  agree only if every such holding is of that sector (`Parity.SectorTotalsAgreeIff`).

## Left out

- ParityRuns.ParityOverRuns: assumes cycles without fuses, one plan per cycle id and day, holdings of known companies that the broker quotes, the same entries decided on both sides, fills at the planned prices, and prices below 5e10 (`Comparable`, `SameEntries`). That the entries are the same and filled at plan is also necessary in each cycle: `ParityLimits.CycleParityIff`.
- LiveRuns.CycleIsNeverRefused: assumes nobody else trades the account between the position listing and the sale.
- BacktestRuns.RunCashFloor: assumes positive opens, lows and closes in the history.
- Lifecycle.RiskBudgetHolds: counts profit at pre-cost exit prices against the entry reference price; RunProfit.RunRiskBudget counts it after costs.
- RunProfit.RunRiskBudget: assumes that every bar of the history is positive and lies within its own range.
- Fusion.FuseScores: percentile tables and applicable metrics are computed per name rather than cached in tables per cohort; the values are the same.
- Strategy scores carry no metric details, imputed-family list, present and applicable counts or confidence: these are shown, never decided on.
- Market data, macro and broker adapters, HTTP routes, schemas, the frontend, migrations, logging and configuration.
- SQL: each repository is a map under its unique column; a crash drops uncommitted rows. Fixed-precision columns are modelled for mirrored shares only (any function of the quantity).
- The uniqueness of broker execution ids, broker market values and the portfolio history endpoint.
- Journal evidence, skip details, portfolio snapshots and job tracking.
- Signals, indicators and factors: one function of what a session can see.
- Scheduling, the exchange calendar, time zones and the clock: days and cycle numbers are inputs.
- The daily-loss and stale-data fuses: two booleans of a cycle.
- UUID generation: a client order id is the triple it is derived from.
- The frozen first-version scorer, correlation statistics and the walk of the rank-correlation report.
- IEEE rounding, NaN, and the numeric values of the normal distribution function and of square roots.
