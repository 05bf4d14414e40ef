# A verified model of the claw-trader engine

This project models the parts of the trading engine that move money and positions, and proves
properties of them over whole runs: the fill ledger and its worker, the daily report, the exit
rule with its live copies and offline replays, the signal pipeline from queue to broker order,
the exit lock shared by two monitors, the reconciliation with broker holdings, and three exact
algorithms (chunked history scan, tick rounding, drawdown).

## How the model is built

- Redis keys are maps, sets and sequences. Where the source updates them in place
  (`Repository`, `Worker`, `Reporter`, `Strategy`, `Pipeline`, `Shadow`, `HoldingsSync`) the model
  has classes whose methods update fields, and every method is proved equal to a function on the
  state's value. The theorems are about those functions, over all runs of them.
- `Decimal` and `float` amounts are `real`: the 28-digit rounding of the averaging division and
  the `quantize` calls are idealised away, and so are NaN and infinities.
- The clock, the broker's replies and the places where an exception strikes are inputs. A fill
  call can be cut off after each group of writes (`Fault`), a worker turn also behind its counter
  (`Trouble`), and a broker call can raise although the order was taken; statements hold for all
  of these unless they say otherwise.
- Orders in which Redis returns set members are left open. Percentages and limits that the
  environment can override appear with their defaults only where a caller passes no value.

| module | part of the system |
|---|---|
| `Domain`, `FillLedger` | fills, trade ids, the ledger as a value |
| `Repository` | the Redis repository and the position engine as objects |
| `Conservation`, `LedgerSafety` | theorems about ledger runs |
| `Duplicates` | which fills stand for one trade, and what the journal keeps of a fill |
| `Worker` | retry, dead letters, termination |
| `Reporter` | daily statistics and the re-synchronised PnL |
| `MarkHistory`, `HistoryScan` | price lists and the live momentum check |
| `ExitRule`, `Shadow`, `Backtest` | the exit rule, its replay, its re-implementation |
| `ExitClock` | the exit rule on the wall clock |
| `ShadowRows` | what a shadow row says of the recorded prices and the live rule |
| `HighWater` | the high-water mark under both monitors, interleaved |
| `Strategy`, `Pipeline`, `PipelineSafety` | gate, risk engine, executor, runner, and their runs |
| `OrderLimits` | the limit on concurrent positions over those runs |
| `GateHistory` | the gate's decisions told by the signals before |
| `OrderContents` | what goes to the broker and what cash it reserves |
| `FamilyRules` | paused markets and signal families |
| `PauseWords` | the values of a pause key that stop the engine |
| `ExitLock` | the two monitors as interleaved commands |
| `HoldingsSync`, `SyncContents` | holdings differences, and what a sync leaves under each symbol |
| `TickGrid` | the two Korean tick tables |

## What turned out not to hold, and when exactly it does

- The kill switch writes the pause key only when the key is absent. It closes the losing market as
  long as that loss stands; it halts the others exactly when the key was absent, and otherwise each
  goes on ordering whenever it is open: broker there, loss within its limit, day's count not used up,
  some admissible symbol not cooling (`KillSwitchLatchesIff`, `CanOrderIff`).
  `docs/live_transition_checklist.md:121` goes live by setting the key to "false", which disarms it
  (`FalsePauseDisarmsKillSwitch`).
- A call cut off behind the trade record files the trade id without booking the fill; retries are
  then skipped as duplicates (`FiledButLostIff`). The ledger is at-most-once, not exactly-once.
- The backtester trails from the entry price itself, the live rule only above it. The two agree on
  all comparable paths exactly when the trail is at least the stop, or at least 100 %
  (`RefinesLiveIff`).
- A rising high-water mark can lower the stop when the tight trail is looser than the base trail, or
  when a trail exceeds 100 %; `StopRatchetsIff` gives the exact condition for all percentages, with
  and without the tight settings.
- The mark itself can fall. Over every interleaving of the two monitors it never does exactly when no
  write is a reset, none goes over a higher mark and none above the average is dropped
  (`MarkNeverFallsIff`); on such runs the stop never falls exactly under the ratchet condition
  (`StopHoldsIff`). Without overlap only the first poll of a position can lower it, exactly when it
  finds a time key left from the last holding and a mark risen since (`OnlyFirstPollLowers`); so the
  stop of a reopened coin can fall (`ReopenedCoinStopFalls`). With overlap a rise can be lost in
  every state (`OverlapCanLoseRise`).
- A stored shadow row is meant to be final, but saving a signal overwrites its snapshot, and every
  price push trims the list. The rows of a run stay equal to the replay of their snapshots on all
  recorded prices exactly as long as no save changes the terms of a signal that has its row and no
  scan completes a signal whose prices have begun to fall off the list (`RowsStayCurrentIff`). Both
  happen from the empty store on (`SecondSaveMakesRowStale`, `TrimmedScanStoresWrongRow`).
- The shadow replay uses a signal's own stop and take percentages, the websocket monitor passes its
  settings over them. Where these are the defaults the two decide alike at every price, mark and time
  exactly for signals whose percentages are absent or the same (`ShadowsMonitorIff`).
- The exit lock is safe exactly as long as no reply of an accepted order is lost, no exit order in
  use is canceled and no section outlives the lock (`ExitLockIsSafeIff`): after any step that breaks
  one of these, from whatever state the protocol has reached, ordinary commands lead to two sells
  or two monitors inside (`DoomedIffNotTame`). `LostReplySellsTwice` is such a run from the start.
- The report's day window includes the next midnight, so a sell on the stroke of midnight counts
  on two days (`MidnightCountsTwice`).
- An order just submitted by the executor reserves neither cash nor a slot until the watcher has
  stamped it (`OwnOrdersAreInvisible`). Runs in which each buy is a single one, placed with all
  earlier ones written and recently stamped, keep positions plus buys on their way within the limit
  (`SeeingRunsStayWithin`). Else one signal can break it exactly when the market can buy and what the
  broker's client may send does not fit (`BreakableIff`), and a burst of signals exactly when it can
  buy and enough different symbols are admissible within what the day's count has left
  (`BurstBreaksIff`). With the default limit of three, fifteen coins can be bought at once
  (`FifteenBuysInThreeSlots`).
- The KIS client sends an order again after a timeout or a server error, so that one call can put up
  to three orders at the broker (`ExposureMoves`).
- The holdings sync writes the position and also queues the discovered buy. Once that is booked the
  quantity on file is the broker's exactly for coins, for symbols indexed or tracked before and for
  ids pushed before, and twice the broker's otherwise (`BookedQtyIsHeldIff`).
- The worker counts a fill before it is done with it: `processed` is the number of fills booked, in
  turns that end well or raise late, plus the repeated BUYs (`ProcessedCountsRepeatedBuys`). A fill
  that is booked and then raises on its last retry is also dead-lettered (`BookedAndDeadIff`).
- Fill timestamps of twelve or fourteen digits pass validation as milliseconds but are stored as a
  different number (`TsKeptIffThirteenDigits`).
- Tick rounding never exceeds the price exactly when the price is not a negative fraction
  (`SignalBounds`, `BrokerBounds`).

Where code and documentation differ the model follows the code: the exit rule's docstring ranks
market overrides below the position's own percentages, the code ranks them above; and
`tests/test_strategy_engine.py:159` says that rejected signals stay in the daily count, while the
script takes its increment back.

## Model

| member | source | states |
|---|---|---|
| Domain.TsKeptIffThirteenDigits | src/portfolio/redis_repo.py:35-54 | a validated timestamp keeps its value in the trade index exactly when it has thirteen digits or is zero |
| Domain.TsTells | src/portfolio/redis_repo.py:35-54 | of the decimal number a timestamp is, thirteen digits are kept, twelve are multiplied by a thousand, and of fourteen the last is cut off |
| FillLedger.BookedFill | src/portfolio/engine.py:49-82 | what a booked fill changes in position, index, journal, marks and realized PnL, wherever the call is cut off afterwards |
| FillLedger.UnbookedFill | src/portfolio/engine.py:45-68 | a call that books nothing leaves positions, PnL and marks alone and files the id exactly in the cut-off and division-by-zero cases |
| Repository.PositionEngine.ApplyFill | src/portfolio/engine.py:30-82 | the method's writes and outcome equal the ledger step, for every fault; which fills it takes for duplicates is `DuplicateIff`, what it files `FiledTradeTellsFill` |
| Repository.PositionEngine.Book | src/portfolio/engine.py:84-138 | the writes behind the trade record, in order |
| Repository.RedisPositionRepository.SavePosition | src/portfolio/redis_repo.py:128-175 | saves or deletes the position, keeps the index in step, resets the high-water mark of a position that opens |
| Repository.RedisPositionRepository.RecordTrade | src/portfolio/redis_repo.py:191-231 | inserts exactly when the id is new and then files hash, index score and symbol |
| Repository.RedisPositionRepository.SumOpenGains | src/portfolio/redis_repo.py:334-350 | the loop over the index in any order gives the sum of open gains over marked positions |
| Repository.RedisPositionRepository.RecalcUnrealized | src/portfolio/redis_repo.py:334-365 | replaces unrealized PnL by that sum and keeps realized PnL |
| Repository.RedisPositionRepository.PopFill | src/portfolio/redis_repo.py:367-399 | takes the oldest payload; garbled text becomes a dead letter |
| Repository.RedisPositionRepository.RequeueFill | src/portfolio/redis_repo.py:296-300 | pushes the fill back with one more retry |
| Conservation.CashConservation | src/portfolio/engine.py:57-138 | over every run, realized PnL minus cost basis is net cash moved less exactly the deltas lost to cut-off sells; quantities are bought minus sold; ids on file are ids seen |
| Conservation.EquityAfterRecalc | src/portfolio/redis_repo.py:334-365 | after a recalculation realized plus unrealized is net cash plus holdings at market, independent of averages |
| Conservation.EquityAfterFill | src/portfolio/engine.py:80-82 | the same, less the deltas already lost, right after every applied fill that leaves no open position of its market unmarked |
| Conservation.UntornRuns | src/portfolio/engine.py:70-82 | runs not cut off between saving and marking lose nothing and leave every open position marked |
| Conservation.MarkMovesUnrealized | src/portfolio/redis_repo.py:334-365 | a new mark of an open position replaces its gain at the old one in the next recalculation, and no other's |
| Conservation.GainIsValueLessCost | src/portfolio/redis_repo.py:339-350 | open gains of a fully marked portfolio are market value less cost basis |
| LedgerSafety.RepeatIsNoOp | src/portfolio/engine.py:45-47 | a fill whose id is on file changes nothing at all |
| LedgerSafety.RepeatsAreHarmless | src/portfolio/engine.py:45-68 | inserting a repeat of a booked fill anywhere later does not change the outcome of a run |
| LedgerSafety.BookedAtMostOnce | src/portfolio/redis_repo.py:197-199 | every trade id is booked at most once per run |
| LedgerSafety.FiledButLostIff | src/portfolio/engine.py:65-76 | exactly when a call files an id without booking its fill, and that retries cannot repair it |
| LedgerSafety.NeverOversold | src/portfolio/engine.py:60-63 | with positive quantities positions are long, nothing unbought is sold, index and hashes agree |
| LedgerSafety.AverageCostBounds | src/portfolio/engine.py:94-100 | average cost lies between the lowest and highest buy price since the position was last flat |
| LedgerSafety.PositionCarriesEarnings | src/portfolio/engine.py:110-138 | over every run an open position's realized field is what its own sales have earned since it was last flat, after fees |
| LedgerSafety.OpeningResetsHighWaterMark | src/portfolio/redis_repo.py:170-175 | a position that opens starts with its high-water mark at its own average |
| Duplicates.SameIdIff | src/domain/models.py:185-196 | two fills share a trade key exactly when they are of one market and have the same execution id, or neither has one and symbol, side, time, quantity, price and the first 64 characters of the order id agree |
| Duplicates.DuplicateIff | src/portfolio/engine.py:36-47 | on every run from the start a fill is refused as a duplicate exactly when an earlier event filed that same trade |
| Duplicates.DifferentBuysBothCount | src/portfolio/engine.py:45-108 | two buys that differ in one of these and were not filed before are both applied, and both quantities count |
| Duplicates.FiledTradeTellsFill | src/portfolio/redis_repo.py:191-231 | the trade hash and the index score repeat the fill, and a sale carries its gain on the quantity sold less the fee |
| Duplicates.OutcomeTellsGain | src/portfolio/engine.py:57-82 | an undisturbed booking returns the gain of a sale on the quantity sold less the fee, and nothing for a buy |
| Duplicates.SaleTakes | src/portfolio/engine.py:110-138 | a booked sale takes its quantity, but no more than is held, and leaves the average |
| Worker.WorkerConservation | src/scripts/position_engine.py:125-183 | every payload pushed is queued, applied, skipped as repeat or dead-lettered, each exactly once; the dead-letter list grows by exactly those |
| Worker.AppliedAtMostOnce | src/scripts/position_engine.py:143-183 | a payload pushed any number of times is booked at most once, whether or not the turn raises late, and booked or repeated payloads are on file |
| Worker.TurnDisposes | src/scripts/position_engine.py:143-183 | one turn moves the popped payload to its one place |
| Worker.TurnDrains | src/scripts/position_engine.py:169-179 | every turn strictly lowers the queue's load, retries included |
| Worker.WorkerRefinesLedger | src/scripts/position_engine.py:125-183 | the worker's ledger is a ledger run, so the run theorems apply |
| Worker.ProcessedCountsRepeatedBuys | src/scripts/position_engine.py:148-168 | the processed counter equals the fills booked, late raises included, plus repeated BUYs |
| Worker.BookedAndDeadIff | src/scripts/position_engine.py:156-172 | a fill is booked and dead-lettered in one turn exactly when the turn raises behind its counter on the last retry |
| Worker.GivesUpAfterSixTries | src/scripts/position_engine.py:169-179 | a fill that always fails is requeued five times with its retries counted and then dead-lettered, and changes nothing else |
| Worker.PositionWorker.HandleFill | src/scripts/position_engine.py:143-183 | the loop body equals the disposition function, wherever the exception strikes |
| Worker.PositionWorker.Drain | src/scripts/position_engine.py:125-183 | a queue no longer fed is emptied within its load, whatever faults strike |
| Reporter.MaxDrawdown | src/app/performance_reporter.py:145-155 | the one-pass loop returns the greatest fall between any two points, start included |
| Reporter.PerformanceReporter.GetSellTradesForDate | src/app/performance_reporter.py:66-100 | lists each non-zero sell of the window once, over all symbols, in time order |
| Reporter.PerformanceReporter.ComputeDailyStats | src/app/performance_reporter.py:102-176 | net is the sum over the window and profit less loss; drawdown is that of the listed trades |
| Reporter.PerformanceReporter.SyncRealizedPnl | src/app/performance_reporter.py:197-214 | the recomputed net replaces realized PnL, unrealized PnL stays |
| Reporter.WindowIsDay | src/app/performance_reporter.py:66-78 | the window of a day begins at fifteen o'clock UTC of the day before and holds, but for its end, the times of that Korean day |
| Reporter.TotalsMoveTogether | src/portfolio/redis_repo.py:251-273 | over runs inside the window the running total and the recomputed net move together, short of exactly the unpaid sells |
| Reporter.SyncIsNoOpIffNothingUnpaid | src/app/performance_reporter.py:197-214 | a day that starts in step is left unchanged by the sync exactly when nothing is left unpaid |
| Reporter.CleanRunsPayAll | src/portfolio/engine.py:64-76 | runs not cut off between record and PnL update leave nothing unpaid |
| Reporter.RecordMovesNet | src/portfolio/redis_repo.py:191-231 | filing a new trade adds it to the windows that contain its time and to no others |
| Reporter.MidnightCountsTwice | src/app/performance_reporter.py:73-81 | two daily nets exceed the two-day net by exactly the sells at midnight |
| MarkHistory.ParseMarkHist | src/app/backtester.py:69-80 | readable entries in ascending, stable time order |
| MarkHistory.HistoryExtends | src/app/backtester.py:69-80 | pushing later entries extends the path at its end |
| HistoryScan.LoadUntil | src/app/consensus_signal_runner.py:280-311 | chunked loading returns a prefix that ends the window or ends behind an old enough entry, and terminates |
| HistoryScan.GetLiveReturn | src/app/consensus_signal_runner.py:994-1023 | for every list and batch size the result is that of one full scan: the return leads to the newest readable price, at most two minutes old, from the newest one at least five minutes old, and there is none exactly when one of them is missing or the older is zero |
| ExitRule.CopiesAgree | src/app/upbit_ws_exit_monitor.py:161-245 | on coin arguments the websocket copy equals the polling copy, reasons included |
| ExitRule.StopRatchetsIff | src/app/position_exit_runner.py:459-472 | for all percentages, tight settings or none, a rising high-water mark never lowers the stop exactly under the stated condition |
| ExitRule.StopNeverFalls | src/app/coin_shadow.py:125-129 | along every replayed path high-water mark and stop never fall, under that condition |
| HighWater.MarkNeverFallsIff | src/app/position_exit_runner.py:722-742 | over every interleaving of the monitors' commands the mark never falls exactly on clean runs |
| HighWater.LowersIff | src/app/upbit_ws_exit_monitor.py:358-369 | one command lowers the mark exactly when it writes a reset, writes over a higher mark or drops one |
| HighWater.ReadsResetIff | src/app/position_exit_runner.py:727-740 | a reading leads to a reset exactly when the poll finds a stale time key on a mark above average and price |
| HighWater.StopHoldsIff | src/app/position_exit_runner.py:459-472 | on all clean runs the stop never falls exactly under the ratchet condition |
| HighWater.OnlyFirstPollLowers | src/app/position_exit_runner.py:731-738 | without overlap the mark falls exactly at a first poll that finds a stale time key and a mark risen since |
| HighWater.PollAloneNeverLowers | src/app/position_exit_runner.py:722-742 | in markets without the websocket monitor the mark never falls |
| HighWater.OverlapCanLoseRise | src/app/upbit_ws_exit_monitor.py:358-369 | in every state four overlapping commands lose a rise |
| HighWater.ReopenedCoinStopFalls | src/app/position_exit_runner.py:731-738 | a reopened coin whose stop falls with the default percentages |
| ExitRule.ExitByDeadline | src/app/position_exit_runner.py:503-514 | past both limits the polling copy holds exactly in an undisturbed trail-only state, the websocket copy never; `PollKeepsIff` and `WsFiresAt` say when that is |
| ExitClock.PollKeepsIff | src/app/position_exit_runner.py:478-514 | while the price holds, the polling copy keeps a position exactly until its early, stagnant or final deadline in milliseconds, whether the opening time is stored in seconds or milliseconds |
| ExitClock.PollFiresAt | src/app/position_exit_runner.py:503-514 | a position above the stop, below the take, without early loss or stagnation is held exactly until the time limit, or the longer one if its mark has been above the average |
| ExitClock.WsFiresAt | src/app/upbit_ws_exit_monitor.py:214-245 | the same for the websocket copy, with its deadlines for early loss and stagnation |
| ExitClock.PollReasonsTell | src/app/position_exit_runner.py:478-514 | each reason of the polling copy tells price and elapsed time |
| ExitClock.WsReasonsTell | src/app/upbit_ws_exit_monitor.py:214-245 | each reason of the websocket copy tells price and elapsed time |
| ExitRule.FirstExitStable | src/app/position_exit_runner.py:418-514 | an exit found on a path is found on every extension |
| Shadow.EvaluateSignalSnapshot | src/app/coin_shadow.py:104-221 | the loop with its moving high-water mark equals the replay function |
| Shadow.EndOfDataUnreachable | src/app/coin_shadow.py:163-171 | with a positive last price and millisecond times the end-of-data row cannot occur |
| Shadow.FinalIffNotEndOfData | src/app/coin_shadow.py:125-171 | a returned row survives every later price exactly when it is not the end-of-data row |
| Shadow.ShadowLedger.EvaluatePending | src/app/coin_shadow.py:240-291 | ids are classified once each, completed counts the new rows, stored rows stay |
| Shadow.ShadowLedger.SaveSnapshot | src/app/coin_research.py:141-160 | a save lays the given fields over the stored snapshot |
| Shadow.ShadowLedger.PushPrice | src/market_data/upbit_feed.py:56-59 | a price goes to the head of the list, which is cut to the cap |
| Shadow.RowsStayCurrentIff | src/app/coin_shadow.py:224-291 | over every run of saves, capped prices and scans all rows equal the replay of their snapshots throughout exactly when each save and scan was harmless |
| Shadow.TakeKeepsCurrentIff | src/app/coin_research.py:156-157 | one save keeps all rows current exactly when it leaves the terms of a signal with a row alone |
| Shadow.ScanKeepsCurrentIff | src/app/coin_shadow.py:263-289 | one scan keeps all rows current exactly when no signal it completes has lost a price from its own time on |
| Shadow.SecondSaveMakesRowStale | src/app/consensus_signal_runner.py:736-765 | a second save of one id with a new time leaves a stale row |
| Shadow.TrimmedScanStoresWrongRow | src/market_data/upbit_feed.py:57-59 | a scan after the cap has cut the list stores a row the full history contradicts |
| Shadow.TrimKeepsRowIff | src/app/coin_shadow.py:98-101 | dropping the oldest entries keeps a row exactly when none is from the signal's time or later |
| ShadowRows.ReplayTells | src/app/coin_shadow.py:104-221 | a row exists exactly when the websocket rule on coin settings fires on one of at least ten prices or the last is four hours later; it counts the prices up to the first firing and states that trade in money and seconds |
| ShadowRows.ShadowsMonitorIff | src/app/upbit_ws_exit_monitor.py:387-394 | the replay of a signal is the monitor's decision at every price, mark and time exactly when its own percentages are absent or the defaults |
| ShadowRows.PathTells | src/app/coin_shadow.py:98-101 | the path holds the readable prices from the signal's time on, each as often as recorded, in time order |
| ShadowRows.SaveTells | src/app/coin_research.py:141-160 | what a save leaves of each field, and that a signal saved without symbol or price never has a row |
| ShadowRows.PushTells | src/market_data/upbit_feed.py:56-59 | a pushed price stands first and the others follow as far as the cap admits |
| Backtest.SimulateOne | src/app/backtester.py:83-159 | the loop equals the simulation function, whose results `ResultTells` and `LossBound` describe |
| Backtest.SimulatorFollowsLive | src/app/backtester.py:105-135 | under the trail condition the simulator exits at the live rule's first tick, with its price and reason |
| Backtest.SimulatorDiverges | src/app/backtester.py:110-116 | a path on which it does not, for every parameter set that violates the condition |
| Backtest.RefinesLiveIff | src/app/backtester.py:83-159 | the backtest refines the live rule on all comparable paths exactly under the condition |
| Backtest.LossBound | src/app/backtester.py:96-159 | exit prices are bounded below by stop and trail less one gap, non-stop exits are above the floor, holding is bounded |
| Backtest.ResultTells | src/app/backtester.py:117-159 | every result enters at a positive first price, its percentage leads to the price of the tick it names, take profits bring the take percentage, stops lose theirs, and nothing is held past 600 ticks at a loss or past 1200; there is none below ten prices |
| Backtest.LossBoundPct | src/app/backtester.py:117-159 | without price gaps wider than g no trade loses more than stop and gap together, in percent |
| Strategy.StrategyEngine.RuleDailyCap | src/strategy/engine.py:13-21 | the script passes exactly below the cap and counts exactly the passes |
| Strategy.StrategyEngine.Check | src/strategy/engine.py:163-180 | the three rules in order equal the gate function |
| Pipeline.RunnerPauseIsRiskPause | src/app/runner.py:147-150 | whatever makes the runner wait makes the risk engine refuse |
| Pipeline.RecentSubmittedBuyOrders | src/executor/risk.py:69-107 | the scan returns the notionals of exactly the recent, stamped, readable buys |
| Pipeline.Executor.RiskCheck | src/executor/risk.py:330-345 | the rules in order, and the conditional pause write of the kill switch |
| Pipeline.Executor.ExecuteSignal | src/executor/core.py:149-225 | risk check, lock, order, and the lock freed on an exception; `OrderedTells` and `LockTells` say what that is for the signal |
| Pipeline.Runner.HandleNext | src/app/runner.py:143-233 | one turn of the loop from pause check to outcome |
| PipelineSafety.OrdersIff | src/executor/risk.py:148-304 | a signal is ordered exactly when it is valid, fresh, allowed, within every limit, unlocked and buildable |
| PipelineSafety.CanOrderIff | src/app/runner.py:143-233 | some valid signal of a market can be ordered at an instant exactly when the pause key does not read as paused and the market is open |
| PipelineSafety.SeenOncePerWindow | src/strategy/engine.py:71-86 | two sightings that pass the duplicate check lie a full window apart |
| PipelineSafety.OrderedOncePerWindow | src/executor/core.py:155-171 | `place_order` is called at most once per window for one signal id, although the lock is freed on exceptions |
| PipelineSafety.CooldownSpacing | src/strategy/engine.py:88-115 | two allowed signals of one symbol are a full cooldown apart |
| PipelineSafety.DailyCapHolds | src/strategy/engine.py:117-135 | between resets the counter equals the allowed signals, stays within the cap and bounds the orders |
| GateHistory.GateDecidesByThePast | src/strategy/engine.py:71-135 | over every run from empty keys the gate refuses a signal exactly when its id was seen within the window, its symbol allowed within the cooldown, or the day's count since its reset is used up, in that order |
| GateHistory.DayIsKorean | src/strategy/engine.py:117-135 | the counter's day runs from midnight to midnight in Korea |
| PauseWords.RiskPausedIff | src/executor/risk.py:109-112 | a pause value stops the risk engine exactly when it spells true, 1 or yes, in any case, with any blanks around it |
| PauseWords.RunnerPausedIff | src/app/runner.py:147-150 | it stops the runner exactly when it spells true or 1, without blanks |
| PipelineSafety.PauseStopsAll | src/executor/risk.py:148-153 | while the pause key reads as paused and is not touched nothing is ordered in any market |
| PipelineSafety.KillSwitchLatchesIff | src/executor/risk.py:237-257 | after a kill switch the losing market orders nothing while its loss stands, and any other exactly when the key was present and the market is open |
| PipelineSafety.KillSwitchStopsAll | src/executor/risk.py:237-257 | after such a kill switch nothing is ordered until the key is set or cleared |
| PipelineSafety.FalsePauseDisarmsKillSwitch | docs/live_transition_checklist.md:120-123 | with the documented value "false" a kill switch in one market leaves another able to order at any time |
| FamilyRules.MarketPauseIff | src/executor/risk.py:114-158 | a paused market orders of what it would order otherwise exactly the exits and the entries of canary families set live whose bypass key reads as true |
| FamilyRules.FamilyModeIff | src/executor/risk.py:160-193 | an unpaused market orders a family's entry exactly when it would order it without family and the family is live: set so, or unset and no canary |
| OrderLimits.OwnOrdersAreInvisible | src/executor/core.py:182-196 | whatever a turn orders, the pending buys read as before at any later time, until somebody stamps the order |
| OrderLimits.ExposureMoves | src/executor/core.py:149-225 | a turn raises positions plus buys on their way by what the broker took of its order, re-sent ones included; stamps, settlements and fills never raise it |
| OrderLimits.SeeingRunsStayWithin | src/executor/risk.py:218-235 | every run whose buys are single and placed with all earlier ones written and recently stamped stays within the limit |
| OrderLimits.BreakableIff | src/executor/risk.py:218-235 | one signal breaks the limit exactly when the market can buy and what may be sent for it does not fit |
| OrderLimits.BurstBreaksIff | src/app/runner.py:143-233 | some burst of signals breaks the limit exactly when the market can buy and enough different admissible symbols fit the day's count |
| OrderLimits.CaughtUpHasRoom | src/app/order_watcher.py:80-96 | once every buy on its way is written and recently stamped, a buy that passes the check has room |
| OrderLimits.OnlyDailyCapStops | src/strategy/engine.py:117-135 | where the market can buy, any admissible symbols up to the daily cap can be bought one after the other |
| OrderLimits.FifteenBuysInThreeSlots | src/app/runner.py:86-105 | with the coin defaults, fifteen named coins are bought from the start although three positions are allowed |
| OrderContents.OrderedTells | src/executor/core.py:128-180 | every order a turn sends has the signal's symbol, price and side and spends its cash: all of it, in Korea short of one whole share; the orders on record before stay, and their number follows from the reply |
| OrderContents.SpendsOneQty | src/executor/core.py:128-136 | price and cash leave one such quantity |
| OrderContents.BuildFailsIff | src/executor/core.py:131-136 | a signal that passes all checks fails to become an order exactly in Korea with cash for less than one share |
| OrderContents.SettlingFrees | src/executor/risk.py:69-107 | an order that counted gives back its slot and its worth with its final status |
| OrderContents.BookedBuyBlocksEntry | src/executor/risk.py:195-216 | a booked buy's quantity comes on top of what is held, and while that is positive no entry in its symbol is ordered |
| OrderContents.PositionsTakeSlots | src/executor/risk.py:218-235 | an adopted position takes a slot and a closed one gives it back and is no longer held |
| OrderContents.LockTells | src/executor/core.py:155-180 | the signal lock is what stops a signal, is set for six hours by an answered call and freed by a failed one, and no turn touches another |
| OrderContents.OwnSettingsDecide | src/strategy/engine.py:40-47 | a turn depends on the settings of its own market only |
| OrderContents.SightingReserves | src/executor/risk.py:69-107 | stamping a submitted buy takes a slot and its worth from later signals for fifteen minutes |
| OrderContents.BuyReserves | src/app/order_watcher.py:80-96 | from signal to reserve: once stamped, a bought signal reserves its cash, in Korea short of less than one share |
| ExitLock.ExitLockIsSafeIff | src/app/upbit_ws_exit_monitor.py:370-437 | over every interleaving the lock keeps one monitor inside and sells a lock lifetime apart, in every tame future, exactly as long as each step is tame |
| ExitLock.DoomedIffNotTame | src/app/position_exit_runner.py:692-823 | from every state in good order a step opens a tame way to an unsafe state exactly when it loses a reply, cancels an order in use or outlives the lock |
| ExitLock.NextKeepsInv | src/app/position_exit_runner.py:692-705 | every command of either monitor keeps lock ownership and spacing |
| ExitLock.OverdueDooms | src/app/position_exit_runner.py:770-775 | a section longer than the lock lets the other monitor in, wherever it stands |
| ExitLock.LostReplyDooms | src/app/position_exit_runner.py:549-554 | an accepted order whose call raises frees the lock for a second sell |
| ExitLock.CancelDooms | src/app/position_exit_runner.py:694-705 | canceling an order in use lets both monitors in, wherever they stand |
| ExitLock.LostReplySellsTwice | src/app/upbit_ws_exit_monitor.py:290-295 | a run from the start in which one monitor sells twice at once |
| ExitLock.UndisturbedSale | src/app/upbit_ws_exit_monitor.py:399-418 | a monitor alone with a firing rule sells once, leaves the lock for a minute, and records the order or, the websocket monitor, clears it |
| ExitLock.NoSale | src/app/position_exit_runner.py:770-823 | a silent rule changes nothing, and a refused order only frees the lock |
| ExitLock.LockedMonitor | src/app/position_exit_runner.py:692-705 | a monitor that finds the lock changes nothing unless the recorded order was canceled; then it deletes the lock |
| HoldingsSync.PositionSync.Sync | src/app/position_exit_runner.py:210-396 | both loops equal the adoption and removal functions; the fallback changes nothing |
| HoldingsSync.IndexAfterSync | src/app/position_exit_runner.py:284-331 | the index is the held symbols plus pending buys; for coins it only shrinks |
| HoldingsSync.ReportsAfterSync | src/app/position_exit_runner.py:326-382 | held symbols are never reported sold, vanished ones once and for the whole quantity when the id is fresh |
| HoldingsSync.DropReports | src/app/position_exit_runner.py:351-382 | the same for one vanished symbol among many, in any order |
| HoldingsSync.BookedQtyIsHeldIff | src/app/position_exit_runner.py:268-321 | with the queued buy booked by the position engine, the quantity on file is the broker's exactly for coins, known symbols and used ids, else twice that |
| SyncContents.ReportedAfterSync | src/app/position_exit_runner.py:247-324 | under a symbol reported once: the broker's quantity and price, the old opening time or now, a high-water mark only for a new one; for a coin not indexed nothing changes |
| SyncContents.UnreportedAfterSync | src/app/position_exit_runner.py:326-396 | a vanished symbol without a pending buy loses index, mark, exit order and lock, its position hash stays; any other is untouched |
| SyncContents.SaleTells | src/app/position_exit_runner.py:335-382 | the sale reported has the cached quantity, and the recorded exit order's id and limit price, or the day's id and the average |
| SyncContents.BuyTells | src/app/position_exit_runner.py:268-282 | the discovered buy reported has the broker's quantity and average |
| SyncContents.SyncReportsOnce | src/app/position_exit_runner.py:127-158 | from sync to sync no id is pushed twice, and ids on record stay there |
| TickGrid.TablesTell | src/exchange/kis/client.py:33-42 | both tick tables by one rule: from how many ticks on each tick size applies |
| TickGrid.SignalBounds | src/app/consensus_signal_runner.py:166-183 | the result is on its own grid, loses less than a tick, and stays below the price exactly off negative fractions |
| TickGrid.BrokerBounds | src/exchange/kis/client.py:33-48 | the same for the broker's grid |
| TickGrid.SignalMonotone | src/app/consensus_signal_runner.py:166-183 | rounding keeps the order of prices |
| TickGrid.BrokerMonotone | src/exchange/kis/client.py:44-48 | rounding keeps the order of prices |
| TickGrid.SignalIsGreatest | src/app/consensus_signal_runner.py:166-183 | no grid price at or below the price is greater than the result |
| TickGrid.BrokerIsGreatest | src/exchange/kis/client.py:33-48 | the same for the broker's grid |
| TickGrid.RoundingComposes | src/exchange/kis/client.py:44-48 | both rounders are idempotent, the broker keeps signal prices, and broker-first changes no signal price |
| TickGrid.BrokerPriceOnSignalGrid | src/exchange/kis/client.py:33-48 | a broker price survives the signal grid exactly when it lies on it |

## Left out

- Broker and websocket plumbing, token refresh, Telegram, AI prompts, news and watchlists: I/O; broker calls are open outcomes.
- Coin research metadata (`hydrate_fill_signal_id`, `bind_position_signal_context`, `record_closed_trade`): an exception in them is one of the modelled faults.
- Win/loss streaks and the position-size adjustment: easy branch reading.
- Timestamps and remaining fields of position hashes (`opened_ts`, `updated_ts`, per-signal percentages) in the ledger.
- Expiry of keys other than the duplicate window, the cooldown, the signal lock and the exit lock; in particular the 60-second life of a vanished position's hash.
- Two writers on one position hash: the run theorems take one position engine as the only writer; `BookedQtyIsHeldIff` shows what the sync adds. The order watcher runs a second position engine in another process (`src/app/order_watcher.py:55-56`); calls of the two may interleave, which the ledger model does not.
- LedgerSafety.NeverOversold: saving a position is one step; an exception between its hash write and its index write would leave the two disagreeing until the symbol is saved again.
- PipelineSafety.DailyCapHolds: the gate has no fault input; an exception behind the increment drops the signal and leaves the counter above the number of allowed signals.
- Domain.TsKeptIffThirteenDigits: the fallback to the current time for unreadable timestamps is not modelled, because the fill validator refuses them first.
- Trade ids as text: the fallback id is kept as its parts, so collisions between rendered ids and execution ids are not modelled.
- ExitLock.ExitLockIsSafeIff: an order the KIS client sends again inside one call counts as one sell. Only the polling runner trades in Korea.
- ExitLock.NextKeepsInv: a run covers one holding; the sync's removal of a vanished symbol's lock, and the startup cleanup, end it.
- The decision in `_run_market` before the lock: the exit lock model leaves open whether the rule fires.
- Shadow.RowsStayCurrentIff: snapshots read from the consensus audit fallback instead of the saved hash; rows compare the numbers of a snapshot, not their text.
- HighWater.MarkNeverFallsIff: one holding with a fixed average; the websocket monitor works on the average it read when it connected.
- The scan limit of the shadow evaluation: the ids of a scan are an input, so nothing is claimed about every signal being evaluated.
- Best and worst trades, ratios and report texts; parameter-sweep summaries.
- Exceptions inside `record_trade` itself, between the duplicate key and the trade hash; inside the dead-letter and requeue calls, where the worker dies; and the worker being stopped between taking a payload and disposing of it.
- The fallback counter that stops US exits after repeated broker failures.
- Pipeline.Executor.ExecuteSignal: the buy_pending key, and the fill pushed for an order the broker reports filled at once; `OrderLimits` counts such an order as a buy on its way until it is booked.
- OrderLimits.BurstBreaksIff: broker order ids are taken to be fresh, and a scan to visit each order once.
- Counters and audit records (funnel, rejects, pause reason), which no decision reads.
- Corrupt cooldown values, which the source lets pass and never writes; unreadable position hashes in the sync.
- KIS, IBKR and Upbit minimum order sizes and price quantisation at the broker.
