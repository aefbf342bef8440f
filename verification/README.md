# Verified models of the trading core

A Dafny model of the parts of this options-trading system whose correctness is worth a proof: the two
bar-by-bar backtest engines, alert selection and throttling, the single-flight result cache, the capital
manager, two statistics kernels, broker failover, the two change-approval lifecycles and the score
adjustment pipeline. `dafny verify dfyconfig.toml` checks the whole project.

How a component is modelled follows how its source works. Where the source updates an object or loops,
there is a class or a method with the same fields, loops and early exits, proved against a function of the
old state; what the component promises is then proved about that function, for every input or every run.

Conventions used throughout:

- Floats are exact reals. `round(x, k)` is Python's: to the nearest multiple of 10^-k, ties to the even
  neighbour (`Rounding.NearestEven`). Ties matter: for money in whole cents they are the only way the two engines' ledgers lose a cent.
- A square root is passed in as a witness `r >= 0` with `r * r` equal to the radicand; `Reals.RootUnique`
  shows there is only one.
- The clock is an input. Where the order of readings matters it is required not to go back. Generated ids
  are inputs that have not been used before. Times in trade records are the index of their bar.
- Signal evaluation, option pricing, learned models and quotes are function-valued or plain parameters. A
  signal function is given exactly the bars up to and including the current one, as the source gives it.

| files | component |
|---|---|
| `ExitRules`, `CandleModel`, `CandleTrades`, `CandleResults`, `CandleCausality`, `CandleAccounts`, `CandleDrawdown`, `CandleMetrics`, `CandleEngine` | candle backtest engine |
| `BacktestModel`, `BacktestTrades`, `BacktestResults`, `BacktestEngine` | second backtest engine |
| `Benchmark` | reference drawdown |
| `AlertSelection`, `AlertThrottle` | stock scanner |
| `JobRunner` | background job cache |
| `CapitalManager` | position sizing and ledger |
| `AnomalyDetector`, `Wilson` | statistics |
| `BrokerFailover`, `ChangeManagement`, `ChangeGovernance` | state machines |
| `ScorePipeline` | signal score adjustments |
| `Rounding`, `Reals`, `Sets`, `Sequences`, `Steps`, `Wrappers` | shared arithmetic, set sizes, slices, run principle, `Option` |

## Where the code and its own words, or its expected properties, part

- core/candle_backtest.py:565-572 says an exit always fills at a worse price; the code multiplies by
  1 + slip on both sides, which in index points is worse exactly for puts (`CandleModel.ExitSlippageAdverseIffPut`).
- A latency of 0 bars makes the candle engine never trade (`CandleTrades.ZeroLatencyNeverEnters`), and from 2
  bars on the record of a bar depends on bars that come later (`CandleCausality.LongLatencyLooksAhead`).
- Summing rounded results does not always give the rounded capital: a half-cent result on an odd number of
  cents separates them (`CandleAccounts.HalfCentTradeSkewsCapital`, `BacktestEngine.HalfCentTradeSkewsReport`), and so
  does money that is not in whole cents. `CandleAccounts.CapitalAccounted` and `BacktestEngine.ReportFollowsCapital`
  say that nothing else does, the two lemmas `GapBounded` by how much.
- A grant of the rate limiter that is then lost to the daily limit or to a missing quote still uses up a place
  in the window, but not the symbol's cooldown (core/all_nse_scanner.py:1001-1015, 1420-1453;
  `AlertThrottle.GrantsSpent`, `AlertThrottle.LostGrantBlocks`).
- The drawdown followed at closings can be deeper than the running-peak drawdown of the curve
  (`CandleDrawdown.DebtTrackedDeeper`); `CandleDrawdown.TrackedAtMostTrueIff` has the exact condition. It is never
  deeper than the deepest fall (`CandleDrawdown.TrackedAtMostDeepest`).
- The running-peak drawdown is not always the deepest fall (`Benchmark.NegativeValueBreaksDeepestFall`);
  `Benchmark.DrawdownIsDeepestFall` has the exact condition. The capital peak is not always the highest capital
  (`CapitalManager.NegativeLockHidesPeak`); `CapitalManager.PeakIsHighest` has the exact condition.
- When the risk assessment of a change raises, core/change_governance.py:583-588 logs that it uses the type-based
  default; for ML and INFRA changes it uses LOW instead of MEDIUM (`ChangeGovernance.FallbackIsDefaultIff`).
- REVIEWING is documented as a stage of a change proposal, but no operation enters it
  (`ChangeManagement.EveryRun`). The docstrings of core/change_governance.py:355-368 name IN_REVIEW as the
  only status to approve or reject from; the code also accepts SUBMITTED, and the model follows the code.
- The header of core/adaptive_signal.py (lines 10-12) takes 20 points for mismatched time frames and 15 for a choppy
  regime; the code takes 25 and 18 (lines 55-56, `ScorePipeline.StartTakesPenalties`).
- The correction made by the penalty cap is recorded in no score component (`ScorePipeline.AuditExplainsFinalIff`).

## Model

| member | source | states |
|---|---|---|
| `Rounding.Round2Shift` | core/candle_backtest.py:578-596 | adding an amount to a balance in whole cents and rounding equals adding the rounded amount, except exactly when the amount is a half cent and the balance an odd number of cents |
| `ExitRules.Bracket.ExitAt` | core/candle_backtest.py:514-541 | an exit happens exactly when stop, target or holding limit qualifies; the reason is the stop whenever it is touched, the target only if it is not; which price each reason pays |
| `ExitRules.Bracket.FirstTouch` | core/candle_backtest.py:300-309 | the first qualifying bar: it qualifies and no earlier one does |
| `ExitRules.HeldWithinLimit` | core/candle_backtest.py:539-540 | a position left after the first bar examined was held at most the holding limit |
| `Benchmark.MaxDrawdown` | core/benchmark.py:62-72 | the loop returns the rounded deepest fall below the running peak |
| `Benchmark.FallsWithinIff` | core/benchmark.py:66-71 | whether any fall over a pair exceeds a bound the running-peak drawdown respects is decided in one pass: only a negative value can, measured from the least positive value before it |
| `Benchmark.DrawdownIsDeepestFall` | core/benchmark.py:62-72 | the single pass finds the largest relative fall over all pairs of an earlier and a later close, attained by some pair, exactly when no negative close falls deeper below the least positive one before it; so always on prices |
| `Benchmark.DrawdownAtMostDeepest` | core/benchmark.py:62-72 | on every series it is at most the deepest fall |
| `Benchmark.NegativeValueBreaksDeepestFall` | core/benchmark.py:66-71 | the closes 1, 2, -1 show it fails for negative values |
| `CandleModel.Order` | core/candle_backtest.py:316-414 | an order is only placed for the bar one latency later, and only if that bar exists |
| `CandleModel.LoopBounds` | core/candle_backtest.py:282 | the loop starts at the configured warmup but not before bar 20 |
| `CandleModel.OpenedStraddlesEntry` | core/candle_backtest.py:444-510 | the fill is never better than the reference price, and after rounding the stop still lies on the losing and the target on the winning side of the entry, for calls and puts |
| `CandleModel.OnePositionOneOrder` | core/candle_backtest.py:282-314 | at every bar of every run an open position and a pending order never coexist, and there is one equity point per bar after the warmup |
| `CandleModel.ExitSlippageAdverseIffPut` | core/candle_backtest.py:565-572 | exit slippage lowers the net result exactly for puts, against the comment that says it always does |
| `CandleTrades.StepRefines` | core/candle_backtest.py:289-414 | one bar moves at most one trade from the trades to come into the journal; their concatenation never changes |
| `CandleTrades.JournalIsTrades` | core/candle_backtest.py:289-414 | for every latency the bar loop's journal equals the recursion over trades: wait for an order that is not overwritten, enter when due, leave on the first touch, wait out the cooldown, again |
| `CandleTrades.ZeroLatencyNeverEnters` | core/candle_backtest.py:293-296 | with latency 0 nothing is ever entered and the capital never moves |
| `CandleTrades.JournalIsScheduled` | core/candle_backtest.py:293-314 | trades are disjoint and in time: held at most the limit, and the next entry at least max(1, cooldown) plus the latency after the previous exit |
| `CandleTrades.PendingIsDueNext` | core/candle_backtest.py:378-394 | with the default latency a pending order is always due on the very next bar, which exists |
| `CandleTrades.ResumeIsLater` | core/candle_backtest.py:307-314 | after an exit signals are looked at again from the next bar on, or once the cooldown is over if that is later |
| `CandleResults.OrderIff` | core/candle_backtest.py:316-414 | a bar orders exactly if its verdict says BUY, its score before the threshold clears it by the gap, and the due bar exists |
| `CandleResults.EntryCharges` | core/candle_backtest.py:293-300 | an order that is due is always filled and charged the fee of all lots; nothing else changes |
| `CandleResults.SettlementIsWorth` | core/candle_backtest.py:568-590 | what a closed position is worth: with the option model its gross and net figure for one lot times the lots; in index points the move in the favour of the side from entry to slipped exit times the lots, and for the net result less the fee times the lots |
| `CandleResults.ClosingBooks` | core/candle_backtest.py:592-622 | a closing with that worth appends one row with gross and net rounded to cents and moves the capital by the unrounded net result |
| `CandleResults.IdlingOrders` | core/candle_backtest.py:310-414 | without an exit the equity is recorded, and an order is placed exactly when there is no position, the cooldown is over and the bar orders |
| `CandleResults.StepBooks` | core/candle_backtest.py:289-414 | on every bar of every run the capital, once a due entry is charged, stays or moves by exactly what the closed position is worth |
| `CandleResults.JournalExplained` | core/candle_backtest.py:267-441 | every row of every journal follows field by field from a signal that ordered, the open it was filled at, its stop and target, the touch or limit that ended it and the worth of the position; with an option, premium, ratio and percentage are those of the option model |
| `CandleCausality.NoLookAhead` | core/candle_backtest.py:289-414 | two series, of any length, that agree up to bar k lead to the same variables after bar k (but for an order for the bar not yet there) if the latency is at most one bar |
| `CandleCausality.LongLatencyLooksAhead` | core/candle_backtest.py:378-394 | for every configuration with a latency of two or more bars a signal and two series show that the record looks ahead |
| `CandleCausality.CausalIffLatencyAtMostOne` | core/candle_backtest.py:289-414 | the record up to each bar depends on the bars up to it alone, for all signals and series, exactly if the latency is at most one bar |
| `CandleAccounts.CapitalAccounted` | core/candle_backtest.py:492-596 | for every initial capital and fee, capital equals initial plus net results minus one fee per entry on every bar so far, exactly when no entry so far left a fraction of a cent and no closing was a half-cent result on an odd-cent capital |
| `CandleAccounts.OffCentEntryIff` | core/candle_backtest.py:492 | from an initial capital in whole cents an entry leaves a fraction of a cent exactly when the fee does |
| `CandleAccounts.GapIsSlipSum` | core/candle_backtest.py:492-596 | at every bar of every run capital minus ledger is the signed sum of what each entry and closing was rounded by, so the account balances there exactly when they cancel |
| `CandleAccounts.GapBounded` | core/candle_backtest.py:492-596 | in every run capital and ledger part by at most half a cent for every off-cent entry and a cent for every skewed closing |
| `CandleAccounts.HalfCentTradeSkewsCapital` | core/candle_backtest.py:578-596 | a concrete 22-bar run after which capital and ledger differ by a cent |
| `CandleDrawdown.DrawdownSandwiched` | core/candle_backtest.py:596-599 | the drawdown followed at closings only misses at most one entry fee of the running-peak drawdown of initial capital and equity curve, measured on the initial capital (with half a cent for each amount that is not in whole cents); it is at most that drawdown where no first entry rounds the capital up or the account never goes below zero |
| `CandleDrawdown.TrackedAtMostTrueIff` | core/candle_backtest.py:596-599 | in every run, whatever capital and fee, it is at most the running-peak drawdown exactly if no closing at a negative capital falls further below the tracked peak than that |
| `CandleDrawdown.DebtTrackedDeeper` | core/candle_backtest.py:492-599 | a concrete 23-bar run on an initial capital of 0.006 in which it is deeper |
| `CandleDrawdown.LevelFor` | core/candle_backtest.py:492 | rounding up at a first entry needs an initial capital with a fraction of a cent and a fee below half a cent |
| `CandleDrawdown.TrackedIsFall` | core/candle_backtest.py:596-599 | in every run the tracked drawdown is zero or a fall between two points of the curve |
| `CandleDrawdown.TrackedAtMostDeepest` | core/candle_backtest.py:596-599 | so in every run, whatever capital and fee, it is at most the deepest fall over all pairs of points |
| `CandleDrawdown.DeepestFallSandwiched` | core/candle_backtest.py:596-599 | and it misses at most one entry fee of every fall to a point that is not negative, and of all falls exactly if no negative point falls further below the least positive one before it |
| `CandleMetrics.TotalAdd` | core/candle_backtest.py:675-697 | adding to one bucket, present or new, adds exactly as much to the sum of all buckets |
| `CandleMetrics.PartitionGrows` | core/candle_backtest.py:675-697 | one more trade keeps the buckets a partition of the trades |
| `CandleMetrics.BucketBy` | core/candle_backtest.py:675-697 | the bucket loop gives every key that occurs the tally of its own trades, no others, and the buckets add up to the tally of all trades |
| `CandleMetrics.TallyCounts` | core/candle_backtest.py:675-697 | a tally counts the rows with its key and, of these, those that did not lose |
| `CandleEngine.CountsAreSets` | core/candle_backtest.py:644-670 | wins, losses, calls and puts are the numbers of rows with a result from zero up, below zero, and of each side |
| `CandleEngine.CandleBacktestEngine.ComputeMetrics` | core/candle_backtest.py:626-721 | wins are the rows with a result from zero up and losses those below, and calls and puts the rows of each side, so both pairs add up to the number of trades; regime and score buckets partition the journal |
| `CandleEngine.CandleBacktestEngine.ExecutePending` | core/candle_backtest.py:444-510 | the branches and field assignments of the source make the position of the step specification, whose stop and target straddle its entry, and the capital loses the rounded entry fee |
| `CandleEngine.CandleBacktestEngine.Settle` | core/candle_backtest.py:556-590 | the slippage, option and index branches of the source give the specified fill and result, which `CandleResults.SettlementIsWorth` says in the terms of the option model and of index points |
| `CandleEngine.CandleBacktestEngine.CloseTrade` | core/candle_backtest.py:544-622 | the row, field by field, and the new capital, peak and drawdown are those of the step specification's closing |
| `CandleEngine.CandleBacktestEngine.RunBar` | core/candle_backtest.py:289-414 | one pass of the loop with its early exits is one step of the specification |
| `CandleEngine.CandleBacktestEngine.RunBars` | core/candle_backtest.py:289-414 | journal, equity curve, capital and drawdown after the loop are those the step specification reaches |
| `CandleEngine.CandleBacktestEngine.Run` | core/candle_backtest.py:267-441 | the journal is the list of first-touch trades and every row of it is explained by a signal, the bars and the option model; the curve has max(0, n - warmup) points, the reported drawdown is a fall of the curve and brackets the true one, and the ending capital is on the ledger exactly when the roundings cancel |
| `BacktestModel.EntryAdverse` | core/backtest_engine.py:270-272 | the rounded fill is never better than the rounded close |
| `BacktestModel.DefaultBracketStraddlesEntry` | core/backtest_engine.py:270-280 | a bracket the signal leaves open has its stop on the losing and its target on the winning side of the fill |
| `BacktestModel.Entry` | core/backtest_engine.py:258-287 | a position is opened exactly when there is a signal that clears its threshold by the buffer, and at the current bar |
| `BacktestTrades.StepRefines` | core/backtest_engine.py:204-287 | one bar moves at most one trade from the trades to come into the list |
| `BacktestTrades.TradesAreTrades` | core/backtest_engine.py:204-287 | the bar loop's list equals the recursion over trades, whose exits are first touches from the bar after the entry on |
| `BacktestTrades.ReportIsScheduled` | core/backtest_engine.py:254-262 | trades are disjoint, left after their entry bar and within the limit, with the cooldown between them |
| `BacktestTrades.NoLookAhead` | core/backtest_engine.py:204-287 | the whole state after bar k depends on the bars up to k alone |
| `BacktestResults.ReportExplained` | core/backtest_engine.py:194-302 | every trade of every report follows field by field from a signal that cleared its threshold, the close it was filled at, the levels of the signal or the configured ones, the touch or limit that ended it, and the money: gross is exit minus entry for a call and entry minus exit for a put, times the quantity, net is gross less the commission, both rounded to cents |
| `BacktestResults.LevelsDecideSign` | core/backtest_engine.py:216-246 | with a positive quantity a trade left at a target on the winning side never has a negative gross result, one left at a stop on the losing side never a positive one, for calls and puts |
| `BacktestResults.ClosingBooks` | core/backtest_engine.py:232-256 | a closing appends one trade with that gross and net result and moves the capital by the unrounded net result |
| `BacktestResults.StepBooks` | core/backtest_engine.py:204-287 | on every bar of every run the capital stays or moves by exactly that |
| `BacktestEngine.ReportFollowsCapital` | core/backtest_engine.py:232-302 | the ending capital computed from rounded results equals the running capital on every bar so far, exactly when the initial capital is in whole cents and no closing so far was a half-cent result on an odd-cent capital |
| `BacktestEngine.GapIsSlipSum` | core/backtest_engine.py:232-302 | at every bar, for every initial capital, the two are apart by the signed sum of what each closing was rounded by and what rounding the report takes off; from whole cents they agree there exactly when the closings' roundings cancel |
| `BacktestEngine.SlipsIffSkewed` | core/backtest_engine.py:232-246 | from whole cents a closing slips exactly when it is a half-cent result on an odd-cent capital |
| `BacktestEngine.GapBounded` | core/backtest_engine.py:232-302 | in every run they part by at most the initial capital's own fraction of a cent and a cent for every closing that slips |
| `BacktestEngine.HalfCentTradeSkewsReport` | core/backtest_engine.py:291-297 | a concrete three-bar run that reports one cent where the running capital is two |
| `BacktestEngine.MaxDrawdownIsReference` | core/backtest_engine.py:233-236 | rounding each drawdown before taking the maximum gives the rounded reference drawdown of the capital after each trade |
| `BacktestEngine.WinsAreSet` | core/backtest_engine.py:289-290 | wins and losses are the numbers of trades with a net result from zero up and below zero |
| `BacktestEngine.Engine.RunBar` | core/backtest_engine.py:204-287 | one pass of the loop with its early exits is one step of the specification, whose closings `BacktestResults.ClosingBooks` says in terms of side, entry, exit and commission |
| `BacktestEngine.Engine.RunBars` | core/backtest_engine.py:194-287 | trades and drawdown after the loop are those the step specification reaches |
| `BacktestEngine.Engine.Run` | core/backtest_engine.py:194-304 | the report lists the first-touch trades, each explained by a signal and the bars; wins and losses are the trades from zero up and below, its drawdown is the reference one, and from whole cents its ending capital is the running capital exactly when the roundings cancel |
| `AlertSelection.LeadersAreGreedy` | core/all_nse_scanner.py:777-786 | leaders are in rank order, at most k and at most two of a category; while there is room, every candidate passed over had two leaders of its category |
| `AlertSelection.LeadersAreDiverse` | core/all_nse_scanner.py:777-786 | the leaders are themselves one of the choices they are compared with |
| `AlertSelection.PrefixDominance` | core/all_nse_scanner.py:777-786 | among the first m candidates, for every m, no choice of at most k with at most two per category has more members than the leaders |
| `AlertSelection.LeadersDominate` | core/all_nse_scanner.py:777-786 | so no such choice is larger, and its i-th best is not ranked before the i-th leader |
| `AlertSelection.LeadersAreOptimal` | core/all_nse_scanner.py:773-786 | on a ranked list the leaders beat every such choice score by score, and for non-negative scores in total |
| `AlertSelection.PickLeaders` | core/all_nse_scanner.py:777-786 | the loop with its counter map, continue and break returns the greedy leaders |
| `AlertSelection.Fill` | core/all_nse_scanner.py:787-794 | the second loop keeps the leaders, ends with exactly min(k, n) distinct candidates, adds the rest in rank order and leaves out none that outranks an added one |
| `AlertSelection.Select` | core/all_nse_scanner.py:773-794 | both loops together: leaders first, then the best of the rest in rank order, min(k, n) distinct candidates |
| `AlertSelection.RankOrder` | core/all_nse_scanner.py:773 | the order of the sort: score decides, then confidence, then probability; it is total and transitive |
| `AlertThrottle.GrantedIffRoom` | core/all_nse_scanner.py:716-725 | the pruned deque refines a count over the whole history: a call is granted exactly if fewer than the maximum of all past grants lie in the closed window before it |
| `AlertThrottle.WindowNeverOverfull` | core/all_nse_scanner.py:716-725 | in every run every closed interval of one window length, wherever it starts, holds at most the maximum of grants |
| `AlertThrottle.Dispatch` | core/all_nse_scanner.py:996-1017 | a signal stopped by any gate leaves the cooldown table as it was |
| `AlertThrottle.OutcomeIsGate` | core/all_nse_scanner.py:996-1017 | in every state a run can reach a signal is stopped by the first of cooldown, full window, daily limit and missing quote that applies, and sent exactly if none does |
| `AlertThrottle.SentHadQuotes` | core/all_nse_scanner.py:1407-1456 | over every run each alert belongs to a signal that had a quote and was within the daily limit |
| `AlertThrottle.GrantsSpent` | core/all_nse_scanner.py:996-1017 | every signal that passes the limiter takes a place in the window, only one that is sent a place in the cooldown table |
| `AlertThrottle.LostGrantBlocks` | core/all_nse_scanner.py:996-1017 | so a signal lost to the daily limit can stop another symbol's signal although nothing was sent |
| `AlertThrottle.EveryRunIsThrottled` | core/all_nse_scanner.py:1407-1456 | over every run of cash and futures signals, alerts for one symbol are at least the cooldown apart and at most the maximum fall into any window |
| `AlertThrottle.Scanner.RateLimitAllowsDispatch` | core/all_nse_scanner.py:716-725 | the popping loop and its answer are the specified request |
| `AlertThrottle.Scanner.DispatchAlertIfEligible` | core/all_nse_scanner.py:996-1017 | cooldown, rate, daily and quote gate in this order produce the specified state and the outcome of the first gate that applies, and keep the throttling invariant |
| `JobRunner.OneOwnerStep` | core/bi_job_runner.py:82-104 | every step of every call and worker keeps running jobs and owners in one-to-one correspondence |
| `JobRunner.PollersStep` | core/bi_job_runner.py:103-120 | every step keeps: a polling call has only ever seen entries stored after it was made |
| `JobRunner.ResultsStep` | core/bi_job_runner.py:89-101 | every step keeps: a stored result stays, or a later one replaces it, until its key or everything is cleared |
| `JobRunner.SingleFlight` | core/bi_job_runner.py:82-104 | under every interleaving no two calls own a job for one key, from claim to release and so while computing, and a key is in the running table exactly while some call owns its job |
| `JobRunner.PollersGetNewData` | core/bi_job_runner.py:103-118 | a call that reached the polling loop is never answered with data stored before it was made |
| `JobRunner.RunIsLogged` | core/bi_job_runner.py:44-120 | in every run the cache holds under each key the data and time of the last store under it, and every call that was answered got what some store put under its key, or None |
| `JobRunner.FreshIffYoung` | core/bi_job_runner.py:44-79 | a call that looks at the cache is answered at once exactly if it does not force a refresh and the last store under its key is at most its maximal age old and not None, and then with that data |
| `JobRunner.FreshWasYoung` | core/bi_job_runner.py:44-79 | in every run a call was answered fresh only if, when it looked, it did not force a refresh and its data had been stored under its key at most its maximal age before |
| `JobRunner.PollingEnds` | core/bi_job_runner.py:109-119 | in every run a call takes at most sixty polling turns, and once it has it is answered; none gives up sooner |
| `JobRunner.OwnResultOutlivesRelease` | core/bi_job_runner.py:89-101 | after a successful job is released, and unless cleared, the cache holds its result or that of a later store |
| `JobRunner.BIJobRunner.GetCached` | core/bi_job_runner.py:44-50 | a hit exactly if the old cache has the key with data that is at most the maximal age old, and then that data; a hit answers the call, anything else sends it on to the claim, and the cache stays as it was |
| `JobRunner.BIJobRunner.SetCached` | core/bi_job_runner.py:52-55 | replacing one entry is the store step, of a worker or of anyone else, and keeps the protocol invariant |
| `JobRunner.BIJobRunner.ClearCache` | core/bi_job_runner.py:57-63 | is the clear step: an empty key, like no key, clears everything; any other key only itself |
| `JobRunner.BIJobRunner.Claim` | core/bi_job_runner.py:82-85 | check and claim are one step: the call becomes the owner of the job, or one that saw it running |
| `JobRunner.BIJobRunner.Release` | core/bi_job_runner.py:99-101 | is the release step, after which no call owns a job for the key |
| `JobRunner.BIJobRunner.GetStale` | core/bi_job_runner.py:103-108 | a call that saw its job running is answered by whatever the cache holds, else it starts polling |
| `JobRunner.BIJobRunner.Poll` | core/bi_job_runner.py:115-118 | is the polling step: it ends the call exactly when the job is over, and then with data stored after the call was made |
| `CapitalManager.LosingNeverSizesUp` | core/capital_manager.py:93-141 | from any state, recording a trade with pnl <= 0 never raises scale factor or lots, through four rounded, clamped factors, for any request |
| `CapitalManager.WinningNeverSizesDown` | core/capital_manager.py:93-141 | recording a trade with pnl >= 0 never lowers them |
| `CapitalManager.ScaleStaysPositive` | core/capital_manager.py:96-116 | below the drawdown limit, or with drawdown scaling off, the rounded product of the factors is never zero: the scale is at least 0.002 |
| `CapitalManager.FactorsAre` | core/capital_manager.py:96-116 | what each factor and their product is, to three decimals: capital over initial capital within a tenth and one and a half, the share of the drawdown limit that is left but at least 0.3 and nothing from the limit on, 1, 0.75, 0.5 or 0.25 by losses in a row, and half the used daily limit taken off from the warning level on but not below 0.25 |
| `CapitalManager.LotsFill` | core/capital_manager.py:117-118 | for a positive scale at least one lot, at most the limit or one, more than one only if the scaled request has room for them, and below the limit no further lot would fit |
| `CapitalManager.DrawdownBelowIff` | core/capital_manager.py:198-200 | the drawdown is below a limit exactly if the limit is positive and less than its share of a positive peak is lost |
| `CapitalManager.GateAndSizerAgree` | core/capital_manager.py:93-178 | lots are zero exactly if drawdown scaling is on and the limit reached; what the gate allows gets a lot; what the sizer blocks the gate refuses |
| `CapitalManager.CapitalConserved` | core/capital_manager.py:129-164 | over every run current plus locked capital is the initial capital plus all results |
| `CapitalManager.CountersAreRight` | core/capital_manager.py:129-146 | in every run the counters are the number of trades, of winners, of losses since the last winner, and number and sum of the trades since the last reset |
| `CapitalManager.PeakIsHighest` | core/capital_manager.py:129-164 | after every operation of a run the peak is the highest capital so far, exactly when no lock puts the capital above its peak |
| `CapitalManager.ForwardLocksKeepPeak` | core/capital_manager.py:148-164 | locking shares that are not negative never does |
| `CapitalManager.NegativeLockHidesPeak` | core/capital_manager.py:148-164 | two operations after which the capital is above its peak |
| `CapitalManager.LockingTripsGate` | core/capital_manager.py:148-174 | locking profit at the peak counts as drawdown: the limit is reached exactly if the amount taken out is the limit's share of the peak |
| `CapitalManager.Manager.Scale` | core/capital_manager.py:93-127 | every figure of the result in numbers: drawdown, the four factors and their product to three decimals and within 0 and 1, and the lots, which are zero exactly at the drawdown limit, else at least one, at most the limit (or one) and the scaled request, with no further lot that would fit |
| `CapitalManager.Manager.RecordTradeResult` | core/capital_manager.py:129-141 | the field updates, one by one, make the specified new state |
| `CapitalManager.ResetNeverSizesDown` | core/capital_manager.py:143-146 | a daily reset never lowers scale or lots, and leaves the gate with its drawdown and loss-streak tests alone |
| `CapitalManager.Manager.Lock` | core/capital_manager.py:148-164 | moves a share of the profit, to half a cent, to the locked capital, nothing without a profit; the sum stays |
| `CapitalManager.Manager.DecideTradeAllowed` | core/capital_manager.py:166-178 | allows exactly above the daily loss limit, below five losses in a row and with less than the drawdown limit of the peak lost; and whenever it does the sizer gives at least one lot for every request |
| `AnomalyDetector.CauchySchwarz` | core/anomaly_detector.py:106-110 | the squared sum of deviations is at most the number of values times the sum of their squares |
| `AnomalyDetector.LastDeviation` | core/anomaly_detector.py:91-110 | N times the squared deviation of the tested value is at most N - 1 times the sum of all squared deviations |
| `AnomalyDetector.ScoreBounded` | core/anomaly_detector.py:91-124 | Samuelson's inequality: since the tested value belongs to the sample, its squared score is at most the length of the history |
| `AnomalyDetector.UniformNeverAnomalous` | core/anomaly_detector.py:112-116 | the zero-variance branch never reports an anomaly |
| `AnomalyDetector.ReportedIff` | core/anomaly_detector.py:91-129 | after any history a value is reported exactly if it is more than threshold standard deviations above the mean of the sample or as far below it; the first value never is |
| `AnomalyDetector.ScoreIsDistance` | core/anomaly_detector.py:118-124 | the score is the distance from the mean in standard deviations |
| `AnomalyDetector.AnomalyNeedsHistory` | core/anomaly_detector.py:85-138 | an anomaly is only reported after a history longer than the squared threshold |
| `AnomalyDetector.AnomalyPossibleIffLongEnough` | core/anomaly_detector.py:85-138 | and that is exact: after some history of length n some value is reported if and only if n is larger than the squared threshold |
| `AnomalyDetector.DefaultThresholdNeedsTen` | core/anomaly_detector.py:23-40 | with the threshold three, ten earlier values |
| `AnomalyDetector.HistoryIsLastWindow` | core/anomaly_detector.py:131-135 | after any run the stored history is the last `window_size` values fed in; a window of 0 keeps everything, a negative one nothing |
| `AnomalyDetector.NegativeWindowNeverReports` | core/anomaly_detector.py:85-101 | so with a negative window nothing is ever reported |
| `AnomalyDetector.Detector.Check` | core/anomaly_detector.py:91-129 | the early branches give the specified verdict, an anomaly only after a long enough history |
| `AnomalyDetector.Detector.UpdateAndCheck` | core/anomaly_detector.py:70-138 | the verdict is on the history cut to the window, and the history of this metric alone is updated |
| `Wilson.CompletedSquare` | core/adaptive_signal.py:136-139 | completing the square turns the quadratic of the score test into a bound on the distance from the centre |
| `Wilson.WilsonIsScoreTest` | core/adaptive_signal.py:132-140 | a proportion lies in the interval exactly if the score test accepts it: n (p - x)^2 <= z^2 x (1 - x) |
| `Wilson.ClampsNeverAct` | core/adaptive_signal.py:140 | neither clamp ever changes an end of the interval |
| `Wilson.ContainsEstimate` | core/adaptive_signal.py:132-140 | the interval contains wins / n |
| `Wilson.MonotoneInWins` | core/adaptive_signal.py:132-140 | more wins never lower an end of the interval |
| `Wilson.MirrorsLosses` | core/adaptive_signal.py:132-140 | swapping wins and losses mirrors the interval at one half |
| `Wilson.EmptySampleExcludesNothing` | core/adaptive_signal.py:134-135 | without a sample every proportion lies in the interval |
| `BrokerFailover.FailoverIsAmortised` | core/broker_failover.py:74-114 | over every run of successes, failures, recoveries and resets, threshold times the failovers away from a broker plus its current count is at most the failures reported for it |
| `BrokerFailover.FailuresInARow` | core/broker_failover.py:87-114 | and a failover is no later: threshold failures in a row of the active broker switch to the next in the chain, fewer do not |
| `BrokerFailover.CountIsFailuresSince` | core/broker_failover.py:68-143 | in every run a broker's count is the number of its failures since its last success, the last reset and the last switch away from it |
| `BrokerFailover.SwitchIff` | core/broker_failover.py:74-114 | in every run a failure switches exactly if it is one of the active broker, fills its count and the chain has another broker; then to the next one, the first after the last |
| `BrokerFailover.EveryRun` | core/broker_failover.py:68-143 | the active index stays in the chain, and on a backup the timestamp is that of the last failover |
| `BrokerFailover.RecoversAfterWindow` | core/broker_failover.py:116-134 | in every run recovery happens exactly from a backup with the recovery window passed since the last failover |
| `BrokerFailover.BrokerFailoverManager.ActiveBroker` | core/broker_failover.py:61-66 | names a broker of the chain if there is one; in a valid state it is the only one whose failures can cause a failover |
| `BrokerFailover.BrokerFailoverManager.OnSuccess` | core/broker_failover.py:68-72 | clears the count of a known broker only |
| `BrokerFailover.BrokerFailoverManager.OnFailure` | core/broker_failover.py:74-114 | counts, and switches cyclically to the next broker only as specified |
| `BrokerFailover.BrokerFailoverManager.TryRecover` | core/broker_failover.py:116-134 | goes back to the primary only as specified |
| `BrokerFailover.BrokerFailoverManager.ResetCounts` | core/broker_failover.py:136-143 | clears every count and goes back to the primary |
| `ChangeManagement.EveryRun` | core/change_management.py:239-485 | in every reachable state: pending proposals within the limit, one open proposal per target, recorded approver and applier, each id's audit entries a lifecycle path ending in its status, the bounded log the end of the full history |
| `ChangeManagement.StepKeepsInv` | core/change_management.py:239-485 | every single operation keeps all of that |
| `ChangeManagement.ReplayRestoresStatuses` | core/change_management.py:583-602 | replaying the full audit history gives exactly the proposals and their statuses |
| `ChangeManagement.BoundedLogIsRight` | core/change_management.py:593-594 | replaying the bounded log gives the right status for every proposal it still mentions |
| `ChangeManagement.FinalIsAbsorbing` | core/change_management.py:355-485 | a rejected, expired, failed or rolled-back proposal never changes again, whatever follows |
| `ChangeManagement.ExpiresTheStale` | core/change_management.py:604-621 | exactly the proposals that wait for a decision past their time, if they have one, expire, and nothing else about any proposal changes |
| `ChangeManagement.ChangeManager.CountPending` | core/change_management.py:240-242 | the loop counts the proposals that wait for a decision |
| `ChangeManagement.ChangeManager.FindOpen` | core/change_management.py:249-256 | finds exactly whether an open proposal has the target |
| `ChangeManagement.ChangeManager.ProposeChange` | core/change_management.py:239-278 | accepted exactly below the limit and without an open proposal for the target; otherwise nothing changes |
| `ChangeManagement.ChangeManager.ApproveChange` | core/change_management.py:346-373 | done exactly for a proposal that waits for a decision, which becomes approved by the actor with one audit entry; else nothing changes |
| `ChangeManagement.ChangeManager.RejectChange` | core/change_management.py:375-396 | done exactly for a proposal that waits for a decision, which becomes rejected with one audit entry; else nothing changes |
| `ChangeManagement.ChangeManager.ApplyChange` | core/change_management.py:398-446 | done exactly for an approved proposal whose callback is absent or succeeds, which becomes applied by the actor; with a callback that fails or raises it becomes failed; else nothing changes |
| `ChangeManagement.ChangeManager.RollbackChange` | core/change_management.py:448-485 | done exactly for an applied proposal whose callback is absent or succeeds; a failing callback leaves no trace |
| `ChangeManagement.ChangeManager.ExpireStale` | core/change_management.py:604-621 | expires, in insertion order, exactly the pending proposals past their time |
| `ChangeManagement.ChangeManager.RecordAudit` | core/change_management.py:583-594 | appends, and drops the oldest entry beyond the bound |
| `ChangeGovernance.Created` | core/change_governance.py:270-330 | whatever is passed in, the change gets a supported type and one of the four priorities and starts as a draft |
| `ChangeGovernance.CreatedFields` | core/change_governance.py:270-330 | every field of the draft: texts stripped, unknown types and priorities replaced by OTHER and MEDIUM, the first event by the author as given, no reviewer, approver, links or dates |
| `ChangeGovernance.TypeLevels` | core/change_governance.py:571-577 | the level of each change type |
| `ChangeGovernance.AssessedIs` | core/change_governance.py:556-588 | without files level and score are those of the type, with files those of the scorer; where the assessment raises the fallback level with score zero |
| `ChangeGovernance.FallbackIsDefaultIff` | core/change_governance.py:571-588 | the level used when the assessment raises is the type-based default exactly for the types other than ML and INFRA |
| `ChangeGovernance.EncodedFields` | core/change_governance.py:165-188 | every field of a saved record, long texts and lists by their beginning, the events by their last ten, the score to three decimals |
| `ChangeGovernance.SaveLoadSave` | core/change_governance.py:165-188 | encoding what was decoded from an encoding gives the same encoding |
| `ChangeGovernance.LoadRestoresIff` | core/change_governance.py:165-188 | decoding restores a change exactly when nothing in it is cut, rounded or left out by the encoding |
| `ChangeGovernance.ActionTable` | core/change_governance.py:332-420 | the statuses each of the eight actions needs and the one it leads to |
| `ChangeGovernance.PerformChanges` | core/change_governance.py:332-420 | an action appends its event by the right person and sets status, reviewer, approver and dates as its own method does; nothing else changes |
| `ChangeGovernance.AddEventKeepsTwenty` | core/change_governance.py:150-156 | the event list keeps its last twenty |
| `ChangeGovernance.PerformKeepsComplete` | core/change_governance.py:332-420 | every lifecycle action appends exactly one event and keeps the history a complete lifecycle path that tells the status |
| `ChangeGovernance.ApprovedBefore` | core/change_governance.py:355-409 | every lifecycle path that ends approved, deployed, verified or closed passes through an approval |
| `ChangeGovernance.HistoryNeverTruncated` | core/change_governance.py:150-186 | in every run, with restarts anywhere, a change has at most seven events, so neither the 20-event trim nor the saved last ten ever cuts its history |
| `ChangeGovernance.DeployedWasApproved` | core/change_governance.py:378-409 | in every run a deployed, verified or closed change has an approval among its events |
| `ChangeGovernance.RestartKeepsFile` | core/change_governance.py:611-641 | saving after a restart writes the same file |
| `ChangeGovernance.RestartKeepsEvents` | core/change_governance.py:611-641 | a restart loses no event and keeps every history complete |
| `ChangeGovernance.ChangeGovernanceEngine.SaveChanges` | core/change_governance.py:629-641 | the file holds the encoding of every change, for complete histories with the status and all events of each |
| `ChangeGovernance.ChangeGovernanceEngine.LoadChanges` | core/change_governance.py:611-627 | decodes the saved file: every change is found again with all its events |
| `ChangeGovernance.ChangeGovernanceEngine.CreateChange` | core/change_governance.py:270-330 | cleans the arguments, assesses the risk, adds the draft with its first event and saves |
| `ChangeGovernance.ChangeGovernanceEngine.Advance` | core/change_governance.py:332-420 | the eight lifecycle methods: done exactly from the statuses the code allows, one event more, saved; otherwise nothing changes |
| `ChangeGovernance.ChangeGovernanceEngine.Link` | core/change_governance.py:458-467 | links an incident once and saves, without touching history |
| `ChangeGovernance.ChangeGovernanceEngine.AttachRelease` | core/change_governance.py:469-477 | records the release and saves, without touching history |
| `ScorePipeline.StagesAreHonest` | core/adaptive_signal_score_adjusters.py:34-471 | each of the ten stages reports exactly the change it made and never makes a score negative |
| `ScorePipeline.StagesDoAsConfigured` | core/adaptive_signal_score_adjusters.py:34-471 | what each of the ten stages makes of any score: six add their adjustment exactly where the sum is valid and stop at the bound passed otherwise, the multiplier gives the nearest valid score to the product, the skew penalty is taken off down to zero, the two bonuses add a third of the detection up to 20 and 25 |
| `ScorePipeline.StagesMoveInDirection` | core/adaptive_signal_score_adjusters.py:34-471 | on a valid score no stage moves against the sign of its adjustment, penalty or bonus or the side of one its multiplier lies on; where none is given it changes nothing |
| `ScorePipeline.InRangeIff` | core/adaptive_signal_score_adjusters.py:65-98 | a stage leaves a score in range exactly unless it is the skew stage with a penalty negative enough to lift it over 100 |
| `ScorePipeline.TrailTelescopes` | core/adaptive_signal.py:703-871 | whatever stages have been applied, start plus recorded points is the score reached, within range |
| `ScorePipeline.AuditExplainsScore` | core/adaptive_signal.py:692-932 | max(0, baseline - soft penalties) plus the ten recorded points is the score before the cap; the final score is the maximum of it and baseline plus cap, in [max(0, baseline + cap), 100] |
| `ScorePipeline.AuditExplainsFinalIff` | core/adaptive_signal_score_adjusters.py:475-504 | the recorded points explain the final score exactly when the total penalty is within the cap |
| `ScorePipeline.CapIsMaximum` | core/adaptive_signal_score_adjusters.py:486-490 | for a score that is not negative the cap takes the maximum with baseline plus cap |
| `ScorePipeline.FinalScoreMonotone` | core/adaptive_signal.py:692-932 | with a multiplier that is not negative the whole pipeline, rounding, clamps and cap included, keeps the order of base scores |
| `ScorePipeline.FinalTierMonotone` | core/adaptive_signal.py:692-932 | so a better base score never gets a worse tier, whatever the tier bounds |
| `ScorePipeline.AuditSteps` | core/adaptive_signal.py:703-864 | the ten stages are applied in the source's order, each to the score the one before left |
| `ScorePipeline.AuditPointsRight` | core/adaptive_signal.py:703-864 | in the whole pipeline the recorded points of every stage are what its module says about the score the stage before left |
| `ScorePipeline.SignalPointsRight` | core/adaptive_signal.py:703-871 | and so are the points a signal carries under the key of every stage |
| `ScorePipeline.StartTakesPenalties` | core/adaptive_signal.py:699-703 | mismatched time frames cost 25 points, a choppy regime 18, down to zero |
| `ScorePipeline.TierIff` | core/tier_engine.py:26-50 | which scores have which tier |
| `ScorePipeline.TagsAre` | core/adaptive_signal_score_adjusters.py:54-129 | a signal keeps its blocks and is tagged as well for lost volatility points and for the skew penalty |
| `ScorePipeline.HardBlockedIff` | core/adaptive_signal.py:739-742 | under the hard block a signal is stopped exactly by a session that does not allow entries or by a session block it came with |
| `ScorePipeline.ClosedSessionBlocks` | core/adaptive_signal.py:739-742 | with the hard block on no signal passes in a session that does not allow entries |
| `ScorePipeline.RecordEarly` | core/adaptive_signal.py:822-826 | the points of the first four stages are written under their own keys and nothing else changes |
| `ScorePipeline.RecordLate` | core/adaptive_signal.py:866-871 | likewise those of the other six |
| `ScorePipeline.AllRecorded` | core/adaptive_signal.py:822-871 | in the end every stage has its points and every feature of the base score its own |
| `ScorePipeline.EarlyPositive` | core/adaptive_signal.py:822-827 | the feature list holds exactly the components that are positive after four stages, whatever the later ones add |
| `ScorePipeline.Evaluate` | core/adaptive_signal.py:692-957 | a signal is blocked exactly by session tag, refiner or conviction filter, each seeing the score of its place; otherwise it has the final score and its tier, the size of the pre-cap score and the tier after four stages, all tags, and every stage's points under its key |

## Left out

- CandleDrawdown.DrawdownSandwiched: the upper half requires a positive initial capital, on which the fee is measured, and a fee that is not negative.
- AnomalyDetector.Detector.UpdateAndCheck: the history file is left out, so a run starts with no history.
- ChangeGovernance.ChangeGovernanceEngine.CreateChange: `strip`, `upper` and the risk scorer are parameters; ids are fresh inputs, while the source takes the clock's microseconds.
- ScorePipeline.Evaluate: the texts in `reasons` and the confidence band are left out; `PositionSizer` is a parameter, and the confidence, which the stages do not change, is an input.
- AlertSelection.Select: takes the candidates already ranked; the sort itself (Python's, stable) is not modelled.
- BrokerFailover.BrokerFailoverManager.OnFailure: an empty chain, for which the source can divide by zero, is excluded; `last_failure_ts`, read only by `status`, is left out.
- ChangeManagement.ChangeManager.ProposeChange: the disabled mode (automatic approval without an audit entry) and proposals rejected at their dry run, which are never stored, are left out.
- ChangeManagement.ChangeManager.ApplyChange: callbacks that call back into the manager are not modelled; proposals are values in the map, so references handed out by `get_proposal` and updated in place are not captured.
- ChangeGovernance.ChangeGovernanceEngine.SaveChanges: a failing write, which the source only logs, and malformed files are left out.
- AlertThrottle.Scanner.DispatchAlertIfEligible: the quality, deduplication, session and minimum-score gates before the cooldown, the reload of settings during dispatch, formatting and sending are left out; the cooldown is a constant.
- JobRunner.SingleFlight: pool size, cancellation and executor failure are not modelled; nothing is claimed about recomputing while an entry is fresh, because the cache is not looked at again when a job is claimed.
- CandleEngine.CandleBacktestEngine.ComputeMetrics: averages, ratios, profit factor, Sharpe and Calmar figures are left out; a score bucket is keyed by its lower end instead of its label.
- Candle and backtest engines: open-interest lookup and the strict coverage abort, frame building and resampling, the early-session clock, metadata of a signal, entry and exit times beyond their bar index.
- Signal, indicator, option premium and learned-model code: parameters here.
- Disk, network, mail, chat and user interface code, logging, reports and dashboards: no logic to prove, or only easy sums.
- Locks: each critical section is one atomic step.
