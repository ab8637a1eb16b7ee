# Verification of the trading core

This project models the parts of the trading system in which money and orders are decided, and proves laws of them.
`dafny verify dfyconfig.toml` checks everything.

## What is modelled

**The backtest machine.** `Simulator` is the simulated broker, `Engine` the backtest engine that drives it through the day
loop: mark the held positions, run the exit scan, buy yesterday's pending signals at today's open, generate new signals at
today's close, record a snapshot. Both are classes whose methods update their fields step by step. Each method is proved
equal to a function on values (`Simulator` and `Backtest`); a raised exception is a `Result` or the flag `raised`, together
with the state the exception leaves behind. `Invariants` splits a day into four kinds of step (a mark, an exit, an entry,
and steps that touch no money) and shows once that whatever these steps keep holds after any days of any run; `EveryStep`
shows it for every state inside a day. The laws are in `Accounting`, `Reconciliation`, `DayLaws`, `DailyTotals`,
`HighWater`, `LookAhead`, `FlatMarket`, `ScanFailures`, `RunOutcome`, `RunLaws`, `Snapshots` and `SnapshotLaws`.
`OrderLaws`, `EntryLaws` and `SignalLaws` say in prices, rates and bars alone what an order is filled at and charged, what
is bought at an open, and what is proposed at a close. `Examples` has runs of two and three bars at which the exceptions to
the laws can be seen.

**The approval and execution protocol.** `Approval` has the approval manager's pure decisions and its in-memory state as a
class, one method per await-free segment; its methods are proved equal to the functions on the in-memory state that the
protocol steps use. `Protocol` puts the manager and the order executor on one event loop as a transition system: runs of
`execute_entry` and `execute_exit`, callbacks and timers are coroutines, a step is one await-free segment, and every
schedule is a sequence of events. The answer of every awaited call is part of the event: a database write may be applied or
not and may raise or not, the web verifier, the portfolio and the broker may answer anything, and any awaited call may
raise. `ProtocolSafety`, `ProtocolLifecycle`, `ProtocolAgreement`, `ProtocolQuantity`, `ProtocolRows`,
`ProtocolModification`, `ProtocolStatus`, `ProtocolAutomatic` and `ProtocolReasons` prove their theorems for all schedules
(`Protocol.After`).

**The quantity gate.** `RiskGate` (the risk manager's check and its rules) and `Sizing` (the position sizer), the exact
relation between the two, and in `GateLaws` what the gate lets through in the figures of the portfolio alone.

**Algorithms.** `WalkForward` and `CalendarLaws` (window generation on a civil calendar with end-of-month clamping),
`Metrics` (maximum drawdown and daily returns), `Patterns` (local extrema and price-level clusters); `Sorting`, `Decimals`
and `Dicts` support them.

Decimals and floats are exact `real` numbers: rounding to won or to hundredths, `int()` truncation and floor division are
modelled exactly, the 28-digit decimal context and binary floating point are not. Days of market data are integers. The
indicator library and the replay lookup are uninterpreted functions of the bars up to today, and whether the performance
report raises is an uninterpreted predicate of the closed positions and the snapshots. Dictionaries keep their insertion
order.

## Findings

- A forced close at the end of a run passes "backtest_end" to a field that only takes an `ExitReason`. The broker has sold
  by then, the trade record is refused, and `run` reports FAILED (`Examples.ForcedCloseFails`). `RunOutcome.RunCompletes`
  says exactly when a run completes, given whether its performance report raises, `RunOutcome.SaneRunCompletes` does so for
  configurations under which no exit scan raises, and `RunOutcome.ForcedCloseBreaksLedger` says by how much the ledger is
  then off. `RunOutcome.IntendedCloseReconciles` is the intended behaviour, with a reason the record accepts.
- The exit scan raises, and the run with it, exactly where a held symbol above its stop has an armed trailing stop with a
  mark or a percentage that is not positive (`ScanFailures.DaysRaise`). A trailing percentage of zero, which nothing
  rejects, is armed without a profit and fails the run (`Examples.ZeroTrailingFails`). The scan never raises in swing
  trading, nor with a positive trailing percentage and slippage of -10000 basis points or more
  (`ScanFailures.SaneRunsThrough`).
- `result.filled_price or open_price` replaces a fill that rounds to zero by the open (`Examples.ZeroFillDisagrees`).
  Replaying the ledger gives the broker's cash if and only if no purchase filled at zero, and misses exactly the price of
  those that did (`Reconciliation.ReplayGivesCash`); costs and profits disagree for exactly those positions
  (`Reconciliation.ProfitReconciles`).
- The engine resets itself between runs but not its broker. What the broker held before a run it still holds after it, on
  top of the engine's quantities (`Reconciliation.QuantitiesOnTop`), so the two agree if and only if the broker had no open
  position when the run started (`Reconciliation.QuantitiesMirror`, `Examples.LeftoverDisagrees`).
- The docstring of `generate_windows` says that in-sample windows overlap and out-of-sample windows do not. In-sample
  windows always tile, and out-of-sample windows are disjoint exactly when `oos_months` is at most `window_months`
  (`WalkForward.LongOutOfSampleOverlaps` is a range on which they overlap). The loop never ends exactly when `window_months`
  is zero and the first window fits (`WalkForward.ZeroMonthsNeverEnd`, `WalkForward.NoMonthsFit`).
- Three schedules make the returned approval status disagree with the rows: a tap accepted while the timeout handler awaits,
  two taps at once, and a lost database write whose error the handler swallows. The request row and the order row never
  disagree about an answer; the returned status agrees with them if and only if it is the one of the last write that took
  effect (`ProtocolRows.AgreesExactly`).
- When the lost write is the one of a modified quantity, the broker is asked for the full quantity although the only tap
  named another (`ProtocolQuantity.LostModificationBuysAll`). Exactly: a tap approved the quantity sent if and only if a
  write with a modified quantity had taken effect when the run read its order row, or a tap approved the full quantity
  (`ProtocolModification.QuantityApprovedExactly`).
- The single-pass maximum drawdown can miss the largest drop once a total value is negative: on a day, the drop from the
  peak is the largest one if and only if the value is not negative or no earlier positive value lies below the peak
  (`Metrics.PeakDropIsLargest`, `Metrics.NegativeValuesBreakIt`). The pass finds the largest drop over all pairs if and only
  if that holds on some day on which the largest drop ends (`Metrics.RunningFindsLargest`).

## Model

| member | source | states |
|---|---|---|
| Simulator.SimulatedBroker.SetCurrentDate | src/backtest/simulator.py:98-102 | The new account is the old one moved to the day with every held position that has a bar marked at its close |
| Simulator.SimulatedBroker.UpdatePositionValuations | src/backtest/simulator.py:470-494 | Every held position with a bar carries its close, market value and unrealised profit; every other position is untouched |
| Simulator.SimulatedBroker.PlaceOrder | src/backtest/simulator.py:217-275 | The account and result are those of `Place`; an order that raises changes nothing |
| Simulator.SimulatedBroker.DoBuy | src/backtest/simulator.py:367-420 | Cash pays value and commission, the position is opened or averaged, or the order is refused and nothing changes |
| Simulator.SimulatedBroker.DoSell | src/backtest/simulator.py:422-468 | Proceeds less commission are received and profit realised, or the order is refused and nothing changes |
| Simulator.SimulatedBroker.GetBalance | src/backtest/simulator.py:283-310 | Invested cost and unrealised profit are the sums over open positions, total assets are cash plus both |
| OrderLaws.PlaceExactly | src/backtest/simulator.py:217-275 | An order is refused exactly for want of a day, a bar, a limit price, funds, a position or shares; otherwise it fills at its limit or at the slipped open of the bar of the day, pays the commission of its side, and cash, profit, every field of its position and the order list are as stated |
| OrderLaws.SlippageExactly | src/backtest/simulator.py:104-118 | A market fill is the open plus, for a sale less, its basis points, rounded half up to whole won |
| OrderLaws.CommissionExactly | src/backtest/simulator.py:120-130 | A purchase pays the purchase rate and a sale the sale rate on its amount, rounded half up to whole won |
| OrderLaws.MarkExactly | src/backtest/simulator.py:470-494 | Moving to a day values every open position with a bar on that day at its close, in all four figures, and leaves every other one |
| OrderLaws.PricesOfTheDay | src/backtest/data_loader.py:117-129 | Open and close of a day are those of the bar with that date, and missing exactly without one |
| Accounting.Conservation | src/backtest/simulator.py:367-468 | After any orders and date changes: cash plus open cost is capital plus realised profit less all commissions, every open position is valued at price times quantity, and total value is the balance's total |
| Accounting.TotalIsBalance | src/backtest/simulator.py:132-138 | `get_total_value` equals the total assets of `get_balance` |
| Accounting.PlaceKeepsConserved | src/backtest/simulator.py:217-275 | One accepted order keeps the conservation law from any account that satisfies it |
| Accounting.AddedCost | src/backtest/simulator.py:386-406 | The weighted average cost of an added purchase carries exactly the old cost plus the new value |
| Accounting.CommissionWithinProceeds | src/backtest/simulator.py:120-130 | The half-up rounded sale commission stays within the proceeds for every amount exactly when the rate is at most one half |
| Accounting.CashNeverNegative | src/backtest/simulator.py:226-263 | Cash stays non-negative over any order sequence with non-negative prices, slippage up to 10000 bps and sale rates up to one half |
| Accounting.SlippageAbove | src/backtest/simulator.py:104-118 | Slippage never fills a purchase below its rounded base price |
| Engine.BacktestEngine.Run | src/backtest/engine.py:135-257 | Final state and result of a run, exceptions included, are those of `Backtest.Run` from whatever account the broker has |
| Engine.BacktestEngine.RunOver | src/backtest/engine.py:200-257 | Main loop, then forced close, then performance report; the run fails exactly when one of them raised, with the trades so far |
| Engine.BacktestEngine.RunDay | src/backtest/engine.py:200-218 | One day: reset counters, mark, exits, pending entries, signals, snapshot, stopping where the exit check raises |
| Engine.BacktestEngine.CheckExits | src/backtest/engine.py:277-329 | Marks and exits are collected over all positions before any exit is executed, in position order |
| Engine.BacktestEngine.ExecuteExit | src/backtest/engine.py:331-383 | The sale, the closed record, counters and trade; with "backtest_end" the book has moved on when the trade record raises |
| Engine.BacktestEngine.ExecutePendingSignals | src/backtest/engine.py:389-475 | Every pending signal of yesterday is tried once at today's open, in order, and the queue is emptied first |
| Engine.BacktestEngine.GenerateSignals | src/backtest/engine.py:481-518 | At most one proposal for each symbol that is neither held nor pending, sized on the total value after the entries |
| Engine.BacktestEngine.RecordSnapshot | src/backtest/engine.py:929-965 | The snapshot of the day, with the running peak and the drawdown from it |
| Engine.BacktestEngine.ForceCloseAll | src/backtest/engine.py:967-971 | Every held symbol is closed with "backtest_end", up to the first that raises |
| Engine.BacktestEngine.ResetState | src/backtest/engine.py:987-1000 | The book is emptied; the broker is not mentioned |
| Engine.BacktestEngine.CollectExits | src/backtest/engine.py:284-325 | The first pass of the exit check: high-water marks raised, exits listed, stopping where a rule raises |
| EntryLaws.RiskCheckExactly | src/backtest/engine.py:872-922 | The risk check lets through the largest quantity whose value at the open fits the percentage cap, the won cap and the cash, and nothing exactly when the book is full, the price is not positive or not one share fits |
| EntryLaws.EntryExactly | src/backtest/engine.py:389-432 | A pending signal opens a position exactly when it is a purchase, there is room, the symbol has a bar, and the cash pays value and commission of that largest quantity at the slipped open; it opens that quantity |
| EntryLaws.EntryBooks | src/backtest/engine.py:432-475 | The position carries the fill, the signal's stop and target, the configured trailing percentage and holding limit; mark, trade, counters and nothing else in the book |
| SignalLaws.ProposeExactly | src/backtest/engine.py:533-606 | A symbol is proposed exactly when the strategy wants it on all bars up to the day and a positive quantity is admissible at the close with the strategy's exits; the proposal is the largest such quantity with those exits |
| SignalLaws.FixedExactly | src/strategy/exit_calculator.py:18-48 | Stop and target lie at their percentages of the entry; refused exactly for an entry that is not positive or a negative percentage |
| SignalLaws.AtrExactly | src/strategy/exit_calculator.py:50-83 | Stop and target lie at multiples of the range, the stop at one won where it would not be positive |
| RunLaws.NeverTooManyPositions | src/backtest/engine.py:889-891 | At every state of every run there are at most as many positions as configured |
| RunLaws.DailyTradeLimit | src/backtest/engine.py:893-896 | A day with a purchase has no more trades than configured |
| RunLaws.LedgerMatchesPositions | src/backtest/engine.py:351-383 | At every state of every run the sales in the ledger are those of the closed positions, one for one and in order, with price, day, reason and profit, and every position was bought in the ledger at its cost on its day of entry |
| RunLaws.DayProposes | src/backtest/engine.py:492-518 | After a day the pending signals are exactly its proposals for configured symbols that are not held |
| RunLaws.PositionsFollowProposals | src/backtest/engine.py:200-218 | After any days of a run every held position was opened by a signal proposed at the close of the trading day before its entry, with that signal's exits and at most its quantity |
| Invariants.DaysSound | src/backtest/engine.py:200-218 | At every day boundary of every run: pending symbols distinct and not held, marks for exactly the held symbols, broker quantities at least the engine's, whatever the broker held before |
| Invariants.ExitHasEffect | src/backtest/engine.py:331-383 | An exit of a covered position is never refused, moves exactly proceeds less commission, and touches nothing else |
| Invariants.ForcedExitRaises | src/backtest/engine.py:967-971 | An exit with "backtest_end" raises exactly when it sold |
| Reconciliation.QuantitiesOnTop | src/backtest/engine.py:987-1000 | From any account, after any days, the broker holds of every symbol what it held at the start plus the engine's quantity |
| Reconciliation.QuantitiesMirror | src/backtest/engine.py:389-475 | After any days the engine holds q of a symbol exactly when the broker does, if and only if the broker had no open position when the run started |
| Reconciliation.ExitsNeverRefused | src/backtest/engine.py:345-360 | Across repeated runs the broker covers the engine's quantities, so a day raises exactly where the exit scan raises |
| Reconciliation.EntryCostMirrors | src/backtest/engine.py:432-463 | A first purchase is carried at the same cost on both sides exactly when the open does not slip to a fill of zero |
| Reconciliation.WholeWonFills | src/backtest/simulator.py:104-118 | Positive opens of half a won or more never fill at zero |
| Reconciliation.ReplayGivesCash | src/backtest/engine.py:432-475 | From any account, the broker's cash is the replay of the trade list plus the price of every purchase that filled at zero; the replay is exact if and only if there was none |
| Reconciliation.ProfitReconciles | src/backtest/engine.py:351-383 | From a flat broker, realised profit is the closed positions' profit plus sale commissions plus what closed zero fills were overstated by; profits, and the cost of each held position, agree if and only if there was no such fill |
| Reconciliation.LedgerReconciles | src/backtest/engine.py:466-475 | Without zero fills the ledger reconciles outright: cash from any account, quantities, costs and profit from a flat one |
| Reconciliation.AccountLawsHold | src/backtest/simulator.py:435-440 | The broker's conservation law and valuation hold inside every run |
| Reconciliation.RunNeverOverdraws | src/backtest/simulator.py:372-378 | No run overdraws the account while sale rates are at most one half |
| EveryStep.EveryStateReconciles | src/backtest/engine.py:200-218 | At every state inside every day: the book is sound, the broker holds its start plus the engine's quantities, and its cash is the replay of the trades so far plus what zero fills were overcharged |
| EveryStep.EveryStateBalances | src/backtest/engine.py:200-218 | From a flat account that satisfies them, costs, profits, conservation and valuation hold at every state too |
| EveryStep.RunStatesEnd | src/backtest/engine.py:200-218 | The states listed end in the state the loop ends in |
| DayLaws.LedgerAlternates | src/backtest/engine.py:466-475 | The trades of a symbol alternate buy and sell with equal quantities, beginning with a buy |
| DayLaws.NoSameDayRoundTrip | src/backtest/engine.py:533-539 | In the main loop a symbol has at most one trade a day |
| DayLaws.ExitScanComplete | src/backtest/engine.py:285-329 | After the exit check a position is still held exactly when it has no bar or nothing triggers at the close, with its record unchanged and its mark raised to the close |
| DayLaws.NoExitMeansUntriggered | src/strategy/exit_checker.py:30-166 | No exit is decided exactly when price is above the stop, below the target, inside the holding limit and the active trailing stop is not hit |
| DayLaws.ExitReasonIsFirst | src/backtest/engine.py:296-325 | The reason is the first that applies, in the order stop loss, trailing stop, target, holding time |
| DayLaws.CheckExitsOpensNothing | src/backtest/engine.py:277-329 | The exit check opens no position |
| HighWater.HighWaterMarks | src/backtest/engine.py:292-296 | At the end of each day every mark is the maximum of the entry price and the closes on bars after the entry day, for exactly the held symbols |
| HighWater.HighSinceIsMaximum | src/backtest/engine.py:292-296 | The high since a day is an upper bound of the entry price and those closes and is one of them |
| LookAhead.NoLookAhead | src/backtest/engine.py:541-544 | Two histories that agree up to day T give the same book and account after day T and begin both final ledgers the same |
| LookAhead.LoopPassesThrough | src/backtest/engine.py:201-218 | The whole loop passes through the state after day T and only adds trades to it |
| MarketData.LookupsAgree | src/backtest/data_loader.py:85-133 | Lookups up to day T see only the bars up to day T |
| MarketData.BarsOnTradingDates | src/backtest/data_loader.py:36-83 | A bar exists only on a trading date of the loader |
| FlatMarket.FlatMarketNeverPays | src/backtest/simulator.py:104-130 | With constant whole prices total value never rises, and after a mark that reaches every position it is the start less recorded commissions and slippage |
| FlatMarket.ValueIsCapitalLessCosts | src/backtest/engine.py:432-475 | Total value is capital less recorded costs plus what fills are still marked above the price |
| ScanFailures.DayRaises | src/backtest/engine.py:285-325 | A day raises exactly when some held symbol with a bar, above its stop, has an armed trailing stop with a mark or a percentage that is not positive |
| ScanFailures.DaysRaise | src/backtest/engine.py:200-257 | The main loop raises exactly on the first day on which a held symbol fails so |
| ScanFailures.SaneRunsThrough | src/backtest/engine.py:299-309 | In swing trading, and with a positive trailing percentage and slippage of -10000 bps or more, it never raises, from any account |
| RunOutcome.RunCompletes | src/backtest/engine.py:220-257 | A run completes exactly when no held symbol fails the exit scan of a day, no remaining position has a bar on the last date and the performance report does not raise; its trades are the main loop's either way |
| RunOutcome.SaneRunCompletes | src/backtest/engine.py:220-257 | Under those configurations it completes exactly when no remaining position has a bar on the last date and the performance report does not raise |
| RunOutcome.WholeRunOnTop | src/backtest/engine.py:135-257 | After a whole run, forced close included, the broker holds its start plus the engine's quantities; they agree if and only if it started flat |
| RunOutcome.WholeRunBalances | src/backtest/engine.py:967-971 | After a whole run, forced close included, conservation and valuation hold, and cash is not negative under the stated rates |
| RunOutcome.ForcedCloseBreaksLedger | src/backtest/engine.py:361-383 | A forced close that raises leaves cash off the ledger by exactly the proceeds less commission, from any account, beside what zero fills were overcharged |
| RunOutcome.IntendedCloseReconciles | src/backtest/engine.py:967-971 | The intended forced close of all held symbols, with a valid reason, never raises, keeps every ledger law, and leaves exactly the positions without a bar on the last date |
| Examples.ForcedCloseFails | src/backtest/engine.py:967-971 | A run of two bars that buys on the second one ends FAILED |
| Examples.ZeroTrailingFails | src/backtest/engine.py:299-309 | A position with a trailing percentage of zero: the scan of the third day raises and the run ends FAILED |
| Examples.ZeroFillDisagrees | src/backtest/engine.py:432-463 | In the same run an open of 0.4 fills at zero, and the replay of the ledger and the cost of the position are off |
| Examples.LeftoverDisagrees | src/backtest/engine.py:987-1000 | A broker that holds five shares from before disagrees with the engine after any days |
| Snapshots.DrawdownOfRun | src/backtest/engine.py:942-948 | One snapshot a day, and the calculated maximum drawdown never exceeds the largest recorded one while no total is negative |
| Snapshots.DrawdownOfSaneRun | src/backtest/engine.py:942-948 | With non-negative closes, sale rates up to one half and an account worth nothing negative, no snapshot total is negative, so the bound holds outright |
| SnapshotLaws.SnapshotsDescribeRun | src/backtest/engine.py:929-965 | Every day has a snapshot, and it describes account and book at the end of that day: cash, total, counters, the profit of the held positions at their closes, the drawdown in hundredths, and as peak the highest of the capital and the totals so far |
| DailyTotals.SnapshotsAddUp | src/backtest/engine.py:368-370 | Daily realised profits in the snapshots sum to the closed positions' profit, daily counts to the number of trades; after an exception the rest is in the counters |
| Metrics.CalculateMaxDrawdown | src/report/metrics.py:191-214 | The loop computes the rounded single-pass drawdown of the snapshots in date order |
| Metrics.MaxDrawdownRounds | src/report/metrics.py:202-214 | The figure is the single pass over the values in date order, rounded half up to hundredths |
| Sorting.SortStable | src/report/metrics.py:202-203 | Elements that tie keep their order |
| Metrics.PeakDropIsLargest | src/report/metrics.py:207-212 | On one day the drop from the peak is the largest drop to that day if and only if the value is not negative or no earlier positive value lies below the peak |
| Metrics.RunningIsMaxDrop | src/report/metrics.py:206-212 | Where that holds every day, for non-negative values in particular, the single pass is the largest percentage drop over all pairs in date order, and is attained |
| Metrics.RunningFindsLargest | src/report/metrics.py:206-212 | For all values, before rounding: the single pass is the largest drop over all pairs if and only if the peak suffices on some day on which the largest drop ends |
| Metrics.NegativeValuesBreakIt | src/report/metrics.py:206-212 | Where it does not, the pass can miss the largest drop: 10, 20, -10 |
| Metrics.OrderDoesNotMatter | src/report/metrics.py:202-203 | Permuting snapshots of distinct dates does not change it |
| Metrics.WithinRecordedDrawdown | src/backtest/engine.py:942-948 | It never exceeds the largest drawdown recorded in snapshots the engine could have written |
| Metrics.DailyReturnsFromSnapshots | src/report/metrics.py:312-334 | The loop computes the returns of neighbouring values in date order, skipping zero values |
| Metrics.ReturnsCompound | src/report/metrics.py:326-332 | Compounding the first value with the daily returns gives the last value, one return fewer than values |
| GateLaws.PassesExactly | src/strategy/risk_manager.py:122-154 | A purchase passes if and only if seven inequalities hold over the portfolio: risk per trade, position limit, room for a holding, sector share, drawdown, both daily losses and trade count |
| GateLaws.ViolationsExactly | src/strategy/risk_manager.py:184-385 | Each violation is reported exactly when its own inequality fails |
| GateLaws.AllowedExactly | src/strategy/risk_manager.py:134-154 | `max_allowed_quantity` is the largest quantity for which all of them hold, and the adjusted quantity the smaller of it and what was asked for, whatever the limits |
| GateLaws.ExemptAndInvalid | src/strategy/risk_manager.py:81-120 | Sales and holds pass unchanged; a price or a total that is not positive is refused |
| GateLaws.ExistingAdds | src/strategy/risk_manager.py:225-227 | The existing value is the sum of the holdings of the symbol |
| RiskGate.ExactThreshold | src/strategy/risk_manager.py:122-154 | A buy passes exactly up to `max_allowed_quantity`, which is not negative, and the adjusted quantity is the smaller of the two |
| RiskGate.ThresholdIgnoresQuantity | src/strategy/risk_manager.py:184-293 | `max_allowed_quantity` does not depend on the quantity asked for |
| RiskGate.RecheckPasses | src/strategy/risk_manager.py:134-154 | Checking a positive adjusted quantity again passes and leaves it alone |
| RiskGate.PassedUnchanged | src/strategy/risk_manager.py:134-154 | A quantity of one or more that passes is never adjusted, whatever the limits |
| RiskGate.CombineThresholds | src/strategy/risk_manager.py:134-154 | Rules that are thresholds combine into one threshold, the smallest cap, and a block means a cap of zero |
| RiskGate.RiskRuleThreshold | src/strategy/risk_manager.py:184-213 | Rule 1 is violated exactly above its cap |
| RiskGate.PositionRuleThreshold | src/strategy/risk_manager.py:217-242 | Rule 2 is violated exactly above its cap |
| RiskGate.SectorRuleThreshold | src/strategy/risk_manager.py:267-293 | Rule 4, which compares percentages, is violated exactly above its cap in shares |
| SignalLaws.SizedExactly | src/strategy/sizing.py:61-87 | The sized quantity is the largest that fits both caps beside the whole shares already held and the risk budget, one share being allowed whatever its risk; zero when not even that one fits |
| SignalLaws.CalculateExactly | src/strategy/sizing.py:27-127 | Refused exactly for prices or totals that are not positive or a stop at the entry; amounts, percentages and the ratio are reported in hundredths |
| RiskGate.SizerWithinOneShare | src/strategy/sizing.py:65-85 | The sizer's remaining cap exceeds the gate's by zero or one share, and by zero without a holding |
| RiskGate.SizedQuantityPasses | src/strategy/sizing.py:27-127 | Without a holding a positive sized quantity passes rules 1 and 2 exactly when the risk quantity was at least one |
| Approval.AutomaticExactly | src/execution/approval.py:201-228 | For every decision: automatic without human approval and for stop-loss and take-profit, for an ordinary sale exactly when it is small and priced, and for no purchase |
| Approval.BuysNeedAHuman | src/execution/approval.py:201-228 | No buy is approved automatically while human approval is required |
| Approval.SmallSalesOnly | src/execution/approval.py:220-226 | An ordinary sale is approved automatically exactly when it is priced and worth at most its percentage of the portfolio |
| Approval.ApprovalManager.RegisterEvent | src/execution/approval.py:387-392 | The request becomes pending with its event clear |
| Approval.ApprovalManager.AcceptTap | src/execution/approval.py:506-547 | A tap counts only for a pending request, and decides what `Decide` says |
| Approval.ApprovalManager.StoreAndSignal | src/execution/approval.py:631-635 | Result and quantity are stored and the event set; it raises exactly when the request is no longer pending |
| Approval.ApprovalManager.TakeResponse | src/execution/approval.py:410-414 | The stored result, or a timeout, is returned and the request forgotten |
| ProtocolSafety.OrderSafety | src/execution/executor.py:175-300 | Over every schedule a broker call follows web verification that never blocked, and a buy under human approval follows an approving tap for that run's request, accepted after the request was registered |
| ProtocolSafety.AtMostOneCall | src/execution/executor.py:291-300 | A run calls the broker at most once |
| ProtocolSafety.QuantitySent | src/execution/executor.py:240-300 | The quantity sent is positive and is the one asked for, or one an earlier accepted modification of the run's own request named |
| ProtocolSafety.RecheckKeepsQuantity | src/execution/executor.py:246-289 | A modified quantity that passes the re-check is sent unchanged: the `or` fallback is never needed |
| ProtocolQuantity.QuantityApproved | src/execution/executor.py:240-300 | A buy under human approval with no lost answer to its request: before the call an approve tap was accepted for it, or the quantity sent is the one an accepted modify tap named |
| ProtocolModification.RowShowsLastModification | src/execution/approval.py:569-588 | Over every schedule the modified quantity in a run's order row is the one of the last write for its request that took effect and named one |
| ProtocolModification.QuantityExactly | src/execution/executor.py:240-561 | The quantity of every call: an exit sends what it was asked for, an entry the last modification that took effect before it read its order row, or without one what it was asked for |
| ProtocolModification.QuantityApprovedExactly | src/execution/executor.py:240-300 | A buy under human approval: a tap before the call approved the quantity sent if and only if a modification had taken effect at the read, or an approve tap or a modify tap named the full quantity; otherwise an answer was lost and the full quantity is sent |
| ProtocolModification.AlwaysRead | src/execution/executor.py:240-289 | After every schedule each call and each pending re-check has the quantity its run read from the order row |
| ProtocolQuantity.LostModificationBuysAll | src/execution/approval.py:589-635 | Without that condition: the only tap asked for one share, its write is lost, and the broker is asked for the full quantity |
| ProtocolQuantity.AlwaysNamed | src/execution/approval.py:569-635 | Every stored approval is explained by an approve tap, a modified quantity in the order row or a lost answer, after every schedule |
| ProtocolSafety.ApplyKeepsRow | src/execution/approval.py:553-588 | A callback writes only to the order of the run that owns its request, and only a quantity its own tap named |
| ProtocolSafety.AlwaysSafe | src/execution/approval.py:304-422 | The safety invariant behind these theorems holds after every schedule |
| ProtocolAutomatic.UnattendedNeverWaits | src/execution/approval.py:159-178 | Over every schedule a run with human approval off, or of a stop-loss or take-profit exit, is at no point of the manual path, nobody is asked or taps for its request, and its row, once written, and its approval are automatic |
| ProtocolReasons.PathFollowsPortfolio | src/execution/approval.py:150-190 | Over every schedule a run takes the automatic path exactly when its decision and the portfolio value it loaded allow it |
| ProtocolReasons.FailsForAReason | src/execution/executor.py:175-404 | Over every schedule a run is on its way to failure only for a blocking verdict, a rejection, a timeout, an exception, a refused re-check, an order not even partially filled or a quantity that is not positive; each but the last leads there |
| ProtocolReasons.RecheckExactly | src/execution/executor.py:246-256 | A modified purchase passes its re-check if and only if it is priced and the portfolio admits that quantity at the decision's price and stop; a sale always passes |
| ProtocolReasons.RunsMoveForward | src/execution/executor.py:100-404 | A segment moves its run forward or not at all, and any answer to its await moves it |
| ProtocolStatus.RowShowsLastStatus | src/execution/executor.py:175-404 | Over every schedule the order row shows the last status written: cancelled for a refused run, failed for an unfilled order or an exception, filled for a fill, pending before |
| ProtocolModification.AlwaysForJobs | src/execution/executor.py:681-725 | An order row has the side and the quantity its run was asked for, modified or not |
| ProtocolLifecycle.SuccessIsRecorded | src/execution/executor.py:314-404 | A run that returns success left its order row FILLED and an execution row, both with the returned price, quantity and commission, which are what the broker reported after the run's call |
| ProtocolLifecycle.FilledWasExecuted | src/execution/executor.py:351-361 | A FILLED order row has an execution row with the same price, quantity and commission, and its run called the broker |
| ProtocolLifecycle.ExecutedOnce | src/execution/executor.py:735-758 | No order has two execution rows |
| ProtocolLifecycle.RefusedNeverFills | src/execution/executor.py:175-238 | A run that was blocked, rejected or timed out makes no broker call, never succeeds, and its order row is never FILLED nor executed |
| ProtocolLifecycle.AlwaysLives | src/execution/executor.py:424-677 | The lifecycle invariant behind these theorems holds after every schedule of entries and exits |
| ProtocolAgreement.Agreement | src/execution/approval.py:395-414 | With at most one tap, its write not lost and none after the timer: returned status, request row and order row agree, on the tap's answer and quantity, or on a timeout when none came |
| ProtocolAgreement.LateAnswerDisagrees | src/execution/approval.py:439-451 | A tap accepted while the timeout handler awaits: the run returns a timeout, both rows say approved |
| ProtocolAgreement.TwoAnswersDisagree | src/execution/approval.py:549-635 | Two taps: the run returns approved and goes on, both rows say rejected |
| ProtocolAgreement.LostAnswerDisagrees | src/execution/approval.py:589-593 | A swallowed write error: the run returns approved, the request row is still pending |
| ProtocolRows.RowsShowLastWrite | src/execution/approval.py:439-451 | Over every schedule both rows show the status of the last write that took effect for the request, so they never disagree about an answer |
| ProtocolRows.AgreesExactly | src/execution/approval.py:395-422 | The returned status agrees with both rows if and only if the last write that took effect for the request carried it |
| ProtocolAgreement.AnswerSettles | src/execution/approval.py:646-655 | A woken run finds its one callback finished, its status stored and the rows written |
| ProtocolAgreement.AlwaysAgrees | src/execution/approval.py:304-422 | The run that owns a request stays in phase with its rows, event and callbacks after every schedule |
| WalkForward.GenerateWindows | src/backtest/walk_forward.py:166-196 | The loop terminates whenever windows of no months do not begin with one that fits; its windows are the chain from the start, and it stops at the first that runs past the end or leaves the calendar |
| CalendarLaws.AddMonthsExactly | src/backtest/walk_forward.py:183-185 | The date is the one in the month that many months on with the same day of the month, or else the last day of that month; none exactly outside the years 1 to 9999 |
| CalendarLaws.ChainParts | src/backtest/walk_forward.py:182-194 | Each window begins where the out-of-sample part before it began; its parts begin and end on the dates that months and days count to, by day number |
| CalendarLaws.WindowExists | src/backtest/walk_forward.py:183-185 | Dates of the calendar that make up these parts are the window; there is none without them |
| CalendarLaws.NextDayCounts | src/backtest/walk_forward.py:183-185 | The next day has the next day number, by an independent count of days and leap years |
| WalkForward.WindowsOrdered | src/backtest/walk_forward.py:178-196 | Every window is in order inside the range, its parts without a gap |
| WalkForward.InSampleTiles | src/backtest/walk_forward.py:193-194 | In-sample windows tile without gap or overlap |
| WalkForward.OutOfSampleDisjoint | src/backtest/walk_forward.py:183-194 | Out-of-sample windows are pairwise disjoint exactly when `oos_months` is at most `window_months` |
| WalkForward.ZeroMonthsNeverEnd | src/backtest/walk_forward.py:181-194 | Otherwise it never does: after any number of windows the cursor is back at the start and the next window fits |
| WalkForward.NoMonthsFit | src/backtest/walk_forward.py:181-194 | January 2020 with no months in sample and one out of sample is a range on which it never ends |
| WalkForward.ZeroMonthsNeverAdvance | src/backtest/walk_forward.py:181-194 | With zero months the cursor never moves |
| WalkForward.CursorMoves | src/backtest/walk_forward.py:182-194 | The cursor moves forward exactly with positive months and back exactly with negative ones |
| WalkForward.KeyIsLexicographic | src/backtest/walk_forward.py:188 | The number that orders dates compares them by year, then month, then day |
| WalkForward.LongOutOfSampleOverlaps | src/backtest/walk_forward.py:183-194 | One month in sample and two out of sample from the start of 2020: the first two out-of-sample windows overlap |
| WalkForward.MonthsMonotone | src/backtest/walk_forward.py:183-185 | Moving a date by more months, clamped to the end of the month, is strictly later |
| Patterns.FindLocalExtrema | src/analysis/technical/patterns.py:37-65 | Exactly the interior strict extrema, in increasing order |
| Patterns.CompareNeighbours | src/analysis/technical/patterns.py:46-58 | The flags of one index say whether it is a strict high or low among its neighbours |
| Patterns.ExtremaApart | src/analysis/technical/patterns.py:42-63 | Highs and lows are disjoint and two of a kind lie more than `order` apart |
| Patterns.CloseExactly | src/analysis/technical/patterns.py:239-241 | Close values differ by at most the tolerance times the previous one |
| Patterns.Clusters | src/analysis/technical/patterns.py:238-243 | The clusters concatenate to the sorted values, with gaps within tolerance inside and beyond it between them |
| Patterns.Cluster | src/analysis/technical/patterns.py:233-249 | The levels are the rounded means of clusters of two or more, or of the first cluster, and never decrease |
| Patterns.MeanExactly | src/analysis/technical/patterns.py:245-248 | The mean times the number of values grows by each value |
| Patterns.Round2Exactly | src/analysis/technical/patterns.py:245-248 | Levels are rounded to the nearest hundredth, ties to the even one |
| Patterns.LevelsRise | src/analysis/technical/patterns.py:245-248 | Rounded means of consecutive pieces of a rising sequence rise |

## Left out

- ProtocolAgreement.Agreement: gives conditions on the taps under which the three agree, and a schedule for each shows that it is needed; the exact condition, on the last write, is `ProtocolRows.AgreesExactly`.
- Rule 7 of the risk manager (correlation): it only adds a warning, never a violation or a cap.
- DayLaws.ExitScanComplete: is about days whose exit check does not raise; `ScanFailures.DayRaises` says exactly which do.
- Decimal precision: sums, products and quotients are exact; the 28-digit context rounding and float arithmetic are not modelled.
- Database: a write takes effect when its await returns, so two writes in flight commit in the order in which they resume; SQL, sessions and primary keys are maps and counters.
- Message ids, decision ids, Redis entries, notifications and account labels: they steer nothing. Awaits in a row between two modelled effects are one await that may raise.
- Action strings of a callback are already parsed; the clean-up of expired requests at start-up, the position-manager rows and the shutdown path are not modelled.
- The result a run returns on an exception names an automatic approval whatever happened; only its failure is modelled.
- Position records are values: nothing else in the modelled code keeps an alias of one.
- The replay provider's loading, the loader's database query, logging, run ids, timestamps and the figures of the performance report; that it may raise is an uninterpreted predicate.
- Sharpe, Sortino, annualised return, win rate and profit factor: roots and powers of floats, or single folds.
- Indicators, double tops and bottoms, crosses and divergences: library numerics over the extrema modelled here.
- Strategies, screening, agents, prompts, web search, messaging, administration and scheduling: external calls, formatting or plain records.
