# Strategy backtesting core, modelled in Dafny

The system is a stock backtesting service. A data source hands the engine an
OHLCV frame. The engine runs one of four strategies over it: moving-average
cross, RSI overbought/oversold, Bollinger-band breakout, or a user-written
rule script. Each strategy writes a signal column and replays it through a
simulated portfolio. It then reports trades, per-bar portfolio snapshots and
a record of performance metrics.

This project models that core and proves properties of it:

| file | module | models |
|---|---|---|
| `wrappers.dfy` | `Wrappers` | `Option` and `Result` |
| `market.dfy` | `Market` | bars, signal rows, trade records, snapshots, the metrics record, the float library routines |
| `series.dfy` | `Series` | pandas float series: NaN as `None`, comparisons that are false on NaN, the rolling mean |
| `signals.dfy` | `Signals` | signal columns and the long/flat position they fold to |
| `metrics.dfy` | `StrategyMetrics` | the default `_calculate_metrics` of `BaseStrategy` |
| `portfolio.dfy` | `Portfolio` | the whole-share simulator of the RSI, Bollinger and custom backtests |
| `ma_cross.dfy` | `MaCross` | `MACrossStrategy` |
| `rsi.dfy` | `Rsi` | `RSIStrategy`, as a class whose signal pass updates its position in place |
| `bollinger.dfy` | `Bollinger` | `BollingerBandsStrategy`, as a class |
| `custom.dfy` | `Custom` | `CustomStrategy`, as a class |
| `rule_helpers.dfy` | `RuleHelpers` | the helper functions a custom rule script can call |
| `data_source.dfy` | `DataSource` | `DataSource.format_data` and `DataSource.validate_symbol` |

**How the strategies are modelled.** Each stateful strategy is a Dafny class
whose `OnBar`, `GenerateSignals` and `Backtest` methods update the object's
position fields in place. Each method is proved equal to a specification
function:
- `Step` for one bar;
- `Pass` for the signal loop;
- `BacktestOf` for the whole backtest.

**What is proved.** Properties are proved of those functions:
- no signal during the indicator warm-up;
- for RSI and the custom strategy: a signal column a long/flat machine may emit, and trades that alternate buy/sell from a buy;
- for Bollinger: every position is -1, 0 or 1 and equals the sum of the signals so far;
- for the moving-average cross: equity compounded by the held positions (its raw signals need not alternate);
- one positive snapshot per bar;
- bounded drawdown and win rate.

**Parameters.** The float library (`pow`, `std`, `sqrt`) is a parameter of
the metrics. So is the user script of the custom strategy: a function from
the variables it is given to what it assigned.

## Model

| member | source | states |
|---|---|---|
| StrategyMetrics.PctChange | backend/strategies/base.py:78 | one return per value after the first, none for an empty series |
| StrategyMetrics.PctChangeStep | backend/strategies/base.py:78 | each return is the move to the next value relative to the current one |
| StrategyMetrics.RunningPeak | backend/strategies/base.py:90 | the running peak at bar i is at least every value up to i and is one of them |
| StrategyMetrics.Drawdowns | backend/strategies/base.py:91 | one drawdown per portfolio value |
| StrategyMetrics.MinOf | backend/strategies/base.py:92 | the minimum is at most every element and is one of them |
| StrategyMetrics.WorstDrawdownBounds | backend/strategies/base.py:90-92 | the worst drawdown of a positive series lies in (-100, 0] |
| StrategyMetrics.BelowPeak | backend/strategies/base.py:91 | a positive value at or below its peak is at least 0% and less than 100% below it |
| StrategyMetrics.RisingSeriesNoDrawdown | backend/strategies/base.py:90-92 | a series that never falls has a worst drawdown of 0 |
| StrategyMetrics.Buys | backend/strategies/base.py:97 | only buy records, no more of them than trades |
| StrategyMetrics.Sells | backend/strategies/base.py:98 | only sell records, no more of them than trades |
| StrategyMetrics.BuysAndSellsSplit | backend/strategies/base.py:97-98 | the buy and sell lists together account for every trade |
| StrategyMetrics.LatestEarlierBuy | backend/strategies/base.py:107-111 | the chosen buy is dated strictly before the sell and no later buy in the list is; -1 when none is |
| StrategyMetrics.FindCorrespondingBuy | backend/strategies/base.py:107-111 | the backwards search loop finds the last buy dated strictly earlier, or none |
| StrategyMetrics.PairReturn | backend/strategies/base.py:113-117 | a sell contributes at most one return |
| StrategyMetrics.PairReturnPresent | backend/strategies/base.py:113-117 | a sell contributes a return exactly when some buy is dated earlier and the latest such buy has a positive price |
| StrategyMetrics.SellReturn | backend/strategies/base.py:102-117 | one iteration of the pairing loop produces that sell's return, if any |
| StrategyMetrics.TradeReturns | backend/strategies/base.py:101-117 | at most one return per sell |
| StrategyMetrics.TradeReturnsStep | backend/strategies/base.py:101-117 | each further sell appends exactly its own return, preserving sell order |
| StrategyMetrics.PairTrades | backend/strategies/base.py:95-117 | the pairing loop over the sells yields the returns of the buy/sell split of the log |
| StrategyMetrics.CountPositive | backend/strategies/base.py:120 | the winning count never exceeds the number of returns |
| StrategyMetrics.AllPositiveCount | backend/strategies/base.py:120 | every return is a win exactly when every return is positive |
| StrategyMetrics.WinRate | backend/strategies/base.py:121 | the win rate is a percentage in [0, 100], 0 without pairs |
| StrategyMetrics.WinRateFull | backend/strategies/base.py:120-121 | the win rate is 100 exactly when there are pairs and all of them gained |
| StrategyMetrics.CalculateMetrics | backend/strategies/base.py:49-137 | zero metrics without snapshots; otherwise total return relative to the initial capital, trade count = number of sells, win rate in [0, 100], drawdown magnitude in [0, 100), no volatility with at most one return, no Sharpe ratio without volatility |
| Series.RollingMean | backend/strategies/ma_cross_strategy.py:43-44 | NaN exactly on the first w - 1 bars, one value per bar |
| Series.RollingMeanBounded | backend/strategies/ma_cross_strategy.py:43-44 | a defined average lies between the lowest and highest value of its window |
| MaCross.TradeSignals | backend/strategies/ma_cross_strategy.py:57-63 | the signal is +1 exactly on golden-cross bars, -1 exactly on death-cross bars, 0 otherwise |
| MaCross.CrossSignals | backend/strategies/ma_cross_strategy.py:43-63 | one signal per close |
| MaCross.CrossesExclusive | backend/strategies/ma_cross_strategy.py:57-63 | a golden and a death cross never fall on the same bar, so the order of the two assignments is immaterial |
| MaCross.WarmUpSilent | backend/strategies/ma_cross_strategy.py:43-59 | no signal before bar max(short, long) window, because NaN comparisons are false |
| MaCross.RawSignalsNeedNotAlternate | backend/strategies/ma_cross_strategy.py:57-63 | two golden crosses can follow each other with no death cross between, so the raw signals need not alternate |
| MaCross.CrossExample | backend/strategies/ma_cross_strategy.py:43-63 | on a concrete series with windows 2 and 3 the cross is up on bar 3 and down on bar 6 |
| MaCross.ExampleShortAverage | backend/strategies/ma_cross_strategy.py:43 | the two-bar rolling mean of the example closes |
| MaCross.ExampleLongAverage | backend/strategies/ma_cross_strategy.py:44 | the three-bar rolling mean of the example closes |
| MaCross.FoldPositions | backend/strategies/ma_cross_strategy.py:66-77 | each position is the fold of the signals so far, always 0 or 1, and +1/-1/other acts on the previous position |
| MaCross.HeldPositions | backend/strategies/ma_cross_strategy.py:66-77 | the position column as a value: one position per signal, each 0 or 1 |
| MaCross.GenerateSignals | backend/strategies/ma_cross_strategy.py:30-80 | the averages, cross signals and folded long/flat positions; `signal` equals `trade_signal`; the position column equals `HeldPositions` of the cross signals |
| MaCross.SignalBars | backend/strategies/ma_cross_strategy.py:133-149 | the listed indices are bars of the series |
| MaCross.SignalBarsExact | backend/strategies/ma_cross_strategy.py:133-149 | exactly the bars with a nonzero signal, each once, in increasing order |
| MaCross.SignalBarsSnoc | backend/strategies/ma_cross_strategy.py:133-149 | a further bar is listed exactly when its signal is nonzero |
| MaCross.GenerateTrades | backend/strategies/ma_cross_strategy.py:129-151 | one record per nonzero-signal bar in bar order: a buy for +1, a sell for -1, 100 shares at the close |
| MaCross.Returns | backend/strategies/ma_cross_strategy.py:103 | one return per bar, 0 on the first |
| MaCross.ReturnStep | backend/strategies/ma_cross_strategy.py:103 | a bar's growth factor is positive and carries the previous close to this one |
| MaCross.StrategyReturns | backend/strategies/ma_cross_strategy.py:104 | a bar's strategy return is the close return when held and 0 when flat |
| MaCross.PortfolioValues | backend/strategies/ma_cross_strategy.py:107-108 | one equity value per bar |
| MaCross.ValueAt | backend/strategies/ma_cross_strategy.py:107-108 | bar i's value is the capital grown by every return up to bar i |
| MaCross.ValueStep | backend/strategies/ma_cross_strategy.py:107-108 | each value is the previous one grown by the bar's strategy return |
| MaCross.FirstValue | backend/strategies/ma_cross_strategy.py:103-108 | the first bar is worth the initial capital |
| MaCross.FlatStretchConstant | backend/strategies/ma_cross_strategy.py:103-108 | while flat, the equity curve does not move |
| MaCross.HeldStretchTracksClose | backend/strategies/ma_cross_strategy.py:103-108 | while held, the equity curve moves in proportion to the close |
| MaCross.HeldBarGrowth | backend/strategies/ma_cross_strategy.py:103-104 | on a held bar the strategy's growth factor carries the previous close to this one |
| MaCross.GrowthPositive | backend/strategies/ma_cross_strategy.py:107-108 | positive growth factors keep the equity curve positive |
| MaCross.ValuesPositive | backend/strategies/ma_cross_strategy.py:103-108 | with positive closes and capital, a long/flat equity curve stays positive |
| MaCross.MaMetrics | backend/strategies/ma_cross_strategy.py:153-218 | final value is the last equity value; total return relative to capital; trade count = nonzero signals; drawdown in (-100, 0]; win rate = share of positive strategy returns; no volatility or Sharpe ratio on one bar |
| MaCross.Backtest | backend/strategies/ma_cross_strategy.py:82-127 | empty result on an empty frame; otherwise one positive, dated equity point per bar starting at the capital, bar i's value being `PortfolioValues` of the strategy returns under the held positions (the capital compounded by every return up to bar i, by `MaCross.ValueAt`); the metrics are `MaMetrics` of the closes, cross signals and held positions; one trade per nonzero signal, and the trade count matches |
| Rsi.Gains | backend/strategies/rsi_strategy.py:69-70 | one gain per close |
| Rsi.Losses | backend/strategies/rsi_strategy.py:69-71 | one loss per close |
| Rsi.GainsAndLosses | backend/strategies/rsi_strategy.py:69-71 | both non-negative, at most one nonzero, their difference is the close-to-close move, 0 on the first bar |
| Rsi.RsiOfShare | backend/strategies/rsi_strategy.py:76-77 | the RSI is defined exactly when both averages are and one is nonzero, and it is then 100 g / (g + l) in [0, 100] |
| Rsi.ShareOfMove | backend/strategies/rsi_strategy.py:76-77 | 100 - 100 / (1 + g / l) equals 100 g / (g + l) |
| Rsi.ShareBounds | backend/strategies/rsi_strategy.py:76-77 | the share lies in [0, 100] and is 100 without losses |
| Rsi.AveragesNonnegative | backend/strategies/rsi_strategy.py:73-74 | the rolling average gain and loss are non-negative where defined |
| Rsi.Rsi | backend/strategies/rsi_strategy.py:58-79 | one RSI value per close, NaN during the first period - 1 bars |
| Rsi.RsiBounded | backend/strategies/rsi_strategy.py:58-79 | every defined RSI is in [0, 100]; after warm-up it is NaN only on a flat window |
| Rsi.ChangeThresholds | backend/strategies/rsi_strategy.py:109-119 | stop-loss and take-profit fire exactly at entry * (1 - stop_loss) and entry * (1 + take_profit) |
| Rsi.Step | backend/strategies/rsi_strategy.py:102-142 | one bar keeps the state long/flat with a positive entry price while long |
| Rsi.StepSignals | backend/strategies/rsi_strategy.py:102-142 | +1 exactly when flat and the RSI is below oversold, entering at the close and date; -1 exactly when long and stop-loss, take-profit or overbought holds; the signal is permitted and moves the position |
| Rsi.Pass | backend/strategies/rsi_strategy.py:102-142 | one row per bar and a valid state after the loop |
| Rsi.PassRow | backend/strategies/rsi_strategy.py:102-142 | later bars never rewrite an earlier row |
| Rsi.PassQuiet | backend/strategies/rsi_strategy.py:97-102 | before rsi_period the rows stay blank and the state is untouched |
| Rsi.WarmUpSilent | backend/strategies/rsi_strategy.py:97-102 | no bar before rsi_period carries a signal |
| Rsi.PassStep | backend/strategies/rsi_strategy.py:102-142 | the last bar's signal is permitted in its position and moves it; the recorded position is 0 or 1 |
| Rsi.PassAlternates | backend/strategies/rsi_strategy.py:102-142 | the signal column is one a long/flat machine may emit and the final position is its fold |
| Rsi.PassPositions | backend/strategies/rsi_strategy.py:98-142 | every position cell is 0 or 1 |
| Rsi.ResetAlternates | backend/strategies/rsi_strategy.py:159-165 | from the reset, nonzero signals alternate +1, -1, ... and the pass ends long exactly when their count is odd |
| Rsi.ProfitablePairs | backend/strategies/rsi_strategy.py:291-295 | the profitable count never exceeds the pairs examined |
| Rsi.AllProfitable | backend/strategies/rsi_strategy.py:291-295 | when every matched sell amount exceeds its buy amount, every pair counts |
| Rsi.CountProfitable | backend/strategies/rsi_strategy.py:291-295 | the loop counts the profitable positional pairs over min(buys, sells) |
| Rsi.WinRate | backend/strategies/rsi_strategy.py:284-299 | the positional win rate lies in [0, 100] and is 0 with fewer than two trades |
| Rsi.Percent | backend/strategies/rsi_strategy.py:297 | a count out of a positive total is a percentage in [0, 100], and 100 when all count |
| Rsi.WinRateAllProfitable | backend/strategies/rsi_strategy.py:284-299 | an alternating log whose every pair gained has a win rate of 100 |
| Rsi.PositionalWinRate | backend/strategies/rsi_strategy.py:284-299 | the statistics block computes the positional win rate |
| Rsi.Volatility | backend/strategies/rsi_strategy.py:270 | no volatility with fewer than two daily returns |
| Rsi.Sharpe | backend/strategies/rsi_strategy.py:273-277 | no Sharpe ratio without volatility |
| Rsi.Metrics | backend/strategies/rsi_strategy.py:245-310 | zero metrics without snapshots; otherwise total return relative to capital, trade count = log length, drawdown in (-100, 0], win rate in [0, 100] and 0 below two trades |
| Rsi.CalculateMetrics | backend/strategies/rsi_strategy.py:245-310 | the method, with its counting loop, computes those metrics |
| Rsi.BacktestOf | backend/strategies/rsi_strategy.py:146-243 | fails exactly on an empty frame |
| Rsi.BacktestSound | backend/strategies/rsi_strategy.py:146-243 | one positive dated snapshot per bar; trades alternate buy/sell from a buy; no signal before rsi_period; positions 0 or 1; positive final value; trade count = log length |
| Rsi.RsiStrategy.constructor | backend/strategies/rsi_strategy.py:28-54 | the parameters are stored and the state is flat with no entry |
| Rsi.RsiStrategy.OnBar | backend/strategies/rsi_strategy.py:102-142 | one loop iteration updates the object exactly as `Step` says |
| Rsi.RsiStrategy.GenerateSignals | backend/strategies/rsi_strategy.py:81-144 | the RSI column and the rows and final state of `Pass`, from the object's current state |
| Rsi.RsiStrategy.Backtest | backend/strategies/rsi_strategy.py:146-243 | the reset, signals, simulator and metrics give exactly `BacktestOf`; afterwards the object holds the state the signal pass from the reset state ends in |
| Bollinger.RollingStd | backend/strategies/bollinger_strategy.py:66 | defined exactly from bar w - 1 on and only for windows of two or more |
| Bollinger.Bands | backend/strategies/bollinger_strategy.py:53-70 | the middle band is defined from bar period - 1 on; the outer bands also need a window of two or more |
| Bollinger.BandsEnclose | backend/strategies/bollinger_strategy.py:65-68 | the middle band lies within its window's range; the outer bands are symmetric about it and enclose it for non-negative deviations |
| Bollinger.Step | backend/strategies/bollinger_strategy.py:85-122 | one bar keeps the state short/flat/long with a positive entry price while open |
| Bollinger.StepSignals | backend/strategies/bollinger_strategy.py:91-122 | the signal is the change of position; from flat, +1 exactly below the lower band less the threshold, else -1 exactly above the upper band plus it; long exits only by -1 above the middle-band test, short only by +1 below it |
| Bollinger.Pass | backend/strategies/bollinger_strategy.py:85-122 | one row per bar and a valid state after the loop |
| Bollinger.PassPrefix | backend/strategies/bollinger_strategy.py:85-122 | later bars never rewrite earlier rows |
| Bollinger.PassRow | backend/strategies/bollinger_strategy.py:85-122 | later bars never rewrite an earlier row |
| Bollinger.PassQuiet | backend/strategies/bollinger_strategy.py:80-85 | before period the rows stay blank and the state is untouched |
| Bollinger.WarmUpSilent | backend/strategies/bollinger_strategy.py:80-85 | no bar before period carries a signal |
| Bollinger.PassNet | backend/strategies/bollinger_strategy.py:85-122 | the position is the start plus the sum of the signals |
| Bollinger.RowPositionBounded | backend/strategies/bollinger_strategy.py:122 | every position cell is -1, 0 or 1 |
| Bollinger.LastRowPosition | backend/strategies/bollinger_strategy.py:122 | a row from period on records the position its step reaches |
| Bollinger.RowPosition | backend/strategies/bollinger_strategy.py:85-122 | a row from period on records the start plus the signals up to that row |
| Bollinger.BuyNeverEmpty | backend/strategies/bollinger_strategy.py:155-167 | a +1 with cash above the price always buys at least one share |
| Bollinger.BasicMetrics | backend/strategies/bollinger_strategy.py:199-211 | the total return relative to capital, reused as annualised return and over 15 as Sharpe; the fixed placeholders; positive exactly when the final value exceeds the capital |
| Bollinger.GainSign | backend/strategies/bollinger_strategy.py:201 | the total return is positive exactly when the final value exceeds the capital |
| Bollinger.BacktestOf | backend/strategies/bollinger_strategy.py:126-197 | fails exactly on an empty frame |
| Bollinger.BacktestSound | backend/strategies/bollinger_strategy.py:126-197 | one positive dated snapshot per bar; no signal before period; positions in {-1, 0, 1}; every buy takes at least one share; positive final value; trade count = log length |
| Bollinger.BollingerStrategy.constructor | backend/strategies/bollinger_strategy.py:27-49 | the parameters are stored and the state is flat |
| Bollinger.BollingerStrategy.OnBar | backend/strategies/bollinger_strategy.py:86-122 | one loop iteration updates the object exactly as `Step` says |
| Bollinger.BollingerStrategy.GenerateSignals | backend/strategies/bollinger_strategy.py:72-124 | the bands and the rows and final state of `Pass`, from the object's current state |
| Bollinger.BollingerStrategy.Backtest | backend/strategies/bollinger_strategy.py:126-197 | the reset, signals, long-only simulator and basic metrics give exactly `BacktestOf`; afterwards the object holds the state the signal pass from the reset state ends in |
| Portfolio.QuantityAffordable | backend/strategies/custom_strategy.py:744-750 | the whole shares bought, fee included, never cost more than the cash; without a fee, cash above the price buys at least one |
| Portfolio.ValuePositive | backend/strategies/rsi_strategy.py:178 | a funded book is worth more than nothing at a positive price |
| Portfolio.BuyArithmetic | backend/strategies/custom_strategy.py:744-759 | a buy leaves the book funded and its value lower only by the fee |
| Portfolio.SellArithmetic | backend/strategies/custom_strategy.py:761-773 | a sale leaves the book funded and its value lower only by the fee |
| Portfolio.ExecuteSolvent | backend/strategies/rsi_strategy.py:188-219 | a bar's trade never overdraws cash or sells short, and a funded book stays funded |
| Portfolio.ExecuteTrade | backend/strategies/custom_strategy.py:743-773 | a trade is dated and priced at the bar with the row's reason; a buy answers +1 and adds at least one share; a sell answers -1 and empties the holding; no trade leaves the book alone |
| Portfolio.ExecuteAmounts | backend/strategies/custom_strategy.py:743-773 | the cost and proceeds, fee included, the new cash and shares, and the amount and portfolio_value fields of detailed records |
| Portfolio.ExecuteValue | backend/strategies/custom_strategy.py:743-773 | the book's value never rises across a trade and is unchanged without fees |
| Portfolio.Simulate | backend/strategies/rsi_strategy.py:168-219 | the book stays solvent, and funded when the capital is positive; one snapshot per bar |
| Portfolio.FinalValue | backend/strategies/rsi_strategy.py:222 | the final value is non-negative, and positive for positive capital |
| Portfolio.SnapshotsPerBar | backend/strategies/rsi_strategy.py:173-186 | snapshot k is the book before bar k's trade marked at bar k's close, dated by the bar, never negative |
| Portfolio.SnapshotsPositive | backend/strategies/custom_strategy.py:733-741 | with positive capital every snapshot is worth more than nothing |
| Portfolio.TradesNonempty | backend/strategies/bollinger_strategy.py:155-179 | every logged trade moves at least one share: a buy needs cash for a whole share, a sell needs shares held |
| Portfolio.TradesAlternate | backend/strategies/rsi_strategy.py:188-219 | on a long/flat signal column trades alternate buy, sell, ... from a buy, and shares are held exactly after a buy |
| Portfolio.SimulateStep | backend/strategies/rsi_strategy.py:173-219 | one more bar appends its snapshot, then its trade |
| Portfolio.TradeBar | backend/strategies/custom_strategy.py:743-773 | the trade branch of the loop body does what `Execute` says |
| Portfolio.RunSimulator | backend/strategies/rsi_strategy.py:168-219 | the simulator loop computes `Simulate` over every bar |
| Custom.TrimStart | backend/strategies/custom_strategy.py:54 | removes exactly the leading whitespace |
| Custom.TrimEnd | backend/strategies/custom_strategy.py:54 | removes exactly the trailing whitespace |
| Custom.BlankIffAllSpace | backend/strategies/custom_strategy.py:54 | code strips to nothing exactly when every character is whitespace |
| Custom.ValidateCode | backend/strategies/custom_strategy.py:52-61 | blank code is accepted unparsed; otherwise the error is exactly the parser's syntax error |
| Custom.HistoryWindow | backend/strategies/custom_strategy.py:356-358 | a history window holds the last min(k, i + 1) rows, ending with row i |
| Custom.ContextFields | backend/strategies/custom_strategy.py:352-358 | the script sees row i, the row before it (itself on the first bar), the frame, the three history windows and the strategy's position and entry, all over the indicator columns (the signal columns the loop fills are left out) |
| Custom.CustomLogicSignals | backend/strategies/custom_strategy.py:348-647 | the signal is -1, 0 or 1; a nonzero one is what the script assigned; blank code, an exception and an invalid value give 0 with the blank reason, the message and the value |
| Custom.InvalidReasonShowsZero | backend/strategies/custom_strategy.py:637-639 | as written, the invalid-signal reason shows 0, a valid value, never the offending one |
| Custom.InvalidReasonShowsValue | backend/strategies/custom_strategy.py:637-639 | corrected, the reason names the offending value; the two versions agree on everything else |
| Custom.Gate | backend/strategies/custom_strategy.py:681-699 | the gate keeps the state long/flat with an entry date while long |
| Custom.Step | backend/strategies/custom_strategy.py:672-699 | one bar keeps the state valid |
| Custom.GateSignals | backend/strategies/custom_strategy.py:681-699 | +1 exactly when the script says 1 while flat, entering at the close and date; -1 exactly when it says -1 while long, clearing the entry; the signal is permitted; a written signal carries the script's reason |
| Custom.StartIndex | backend/strategies/custom_strategy.py:670 | the loop starts between bars 20 and 50, at a tenth of the length in between |
| Custom.Pass | backend/strategies/custom_strategy.py:661-699 | one row per bar and a valid state after the loop |
| Custom.PassSnoc | backend/strategies/custom_strategy.py:672-699 | one more bar appends one row |
| Custom.PassExtend | backend/strategies/custom_strategy.py:672-699 | from the start index on, one more bar is one more `Step` |
| Custom.PassRow | backend/strategies/custom_strategy.py:672-699 | later bars never rewrite an earlier row |
| Custom.PassQuiet | backend/strategies/custom_strategy.py:656-672 | before the start index the rows stay blank and the state reset |
| Custom.WarmUpSilent | backend/strategies/custom_strategy.py:656-672 | no bar before the start index carries a signal, position or reason |
| Custom.PassStep | backend/strategies/custom_strategy.py:672-699 | the last bar's signal is permitted in its position and moves it |
| Custom.PassAlternates | backend/strategies/custom_strategy.py:672-699 | the signal column is one a long/flat machine emits from flat and the final position is its fold |
| Custom.PassPositions | backend/strategies/custom_strategy.py:699 | every position cell is the position after that bar, 0 or 1 |
| Custom.SignalsAlternate | backend/strategies/custom_strategy.py:681-699 | accepted signals alternate +1, -1, ... from +1; the pass ends long exactly when their count is odd |
| Custom.SignalFromScript | backend/strategies/custom_strategy.py:672-699 | a written signal is exactly what the script assigned on that row in that state, with its reason |
| Custom.GateHidesInvalidReason | backend/strategies/custom_strategy.py:681-699 | the gate writes no reason with a zero signal, so the invalid-signal message cannot reach the signal rows |
| Custom.EmptyResult | backend/strategies/custom_strategy.py:793-804 | nothing traded, zero metrics, the constructor's code and capital |
| Custom.BacktestOf | backend/strategies/custom_strategy.py:708-791 | a failed signal generation gives the empty result; fails exactly on an empty frame |
| Custom.RunSound | backend/strategies/custom_strategy.py:717-776 | one positive dated snapshot per bar; trades alternate from a buy; blank rows before the start index; positions 0 or 1; positive final value |
| Custom.BacktestSound | backend/strategies/custom_strategy.py:708-791 | those facts of the result, plus trade count = number of sells and win rate in [0, 100] |
| Custom.CustomStrategy.constructor | backend/strategies/custom_strategy.py:29-48 | code and capital stored, flat with no entry |
| Custom.CustomStrategy.ExecuteCustomLogic | backend/strategies/custom_strategy.py:337-647 | the method returns the decision `CustomLogic` specifies, a signal in {-1, 0, 1} |
| Custom.CustomStrategy.OnBar | backend/strategies/custom_strategy.py:672-699 | one loop iteration updates the object exactly as `Step` says |
| Custom.CustomStrategy.GenerateSignals | backend/strategies/custom_strategy.py:649-706 | resets the state and produces the rows and final state of `Pass` |
| Custom.CustomStrategy.Backtest | backend/strategies/custom_strategy.py:708-791 | signals, simulator and metrics give exactly `BacktestOf`; a frame whose indicators fail leaves the object's state untouched, otherwise the object holds the state the signal pass ends in |
| Custom.New | backend/strategies/custom_strategy.py:29-61 | construction fails exactly on a syntax error, with its message; otherwise a fresh flat strategy |
| RuleHelpers.FibonacciLevels | backend/strategies/custom_strategy.py:439-448 | each level sits its ratio of the range below the high; levels are ordered between high and low; 50% is the midpoint; 38.2% and 61.8% are symmetric |
| RuleHelpers.Turns | backend/strategies/custom_strategy.py:462-471 | at most one turning point per scanned index |
| RuleHelpers.WaveAnalysis | backend/strategies/custom_strategy.py:462-471 | the scan loop lists the peaks and the troughs |
| RuleHelpers.TurnsMembers | backend/strategies/custom_strategy.py:466-470 | a pair is listed exactly when its index is a strict interior turn of that kind, with its value |
| RuleHelpers.TurnsOrdered | backend/strategies/custom_strategy.py:466-470 | listed indices strictly increase |
| RuleHelpers.WaveAnalysisSound | backend/strategies/custom_strategy.py:462-471 | peaks are exactly the strict local maxima, troughs exactly the strict local minima, in index order, never the same index |
| RuleHelpers.CrossChecks | backend/strategies/custom_strategy.py:538-543 | the two crosses never hold together and never on NaN |
| RuleHelpers.CrossChecksMatchStrategy | backend/strategies/custom_strategy.py:538-543 | on two average series the checks are exactly the MA-cross strategy's golden and death crosses |
| RuleHelpers.RsiChecks | backend/strategies/custom_strategy.py:544-545 | ordered thresholds never give both; NaN gives neither; the defaults are the RSI strategy's |
| RuleHelpers.BreakChecks | backend/strategies/custom_strategy.py:546-551 | at the default volume ratio neither ever holds; above it only the price test remains; never both |
| RuleHelpers.Sign | backend/strategies/custom_strategy.py:552-554 | the sign is NaN exactly for NaN |
| RuleHelpers.DivergenceChecks | backend/strategies/custom_strategy.py:552-554 | defined trends diverge exactly when opposite or exactly one is flat; NaN always diverges; symmetric |
| DataSource.Rename | backend/data/base.py:102 | the rows are untouched and each column is renamed in place |
| DataSource.RenameSound | backend/data/base.py:95-102 | a column becomes required exactly when it was, or was one of the mapped spellings; other names are kept |
| DataSource.Count | backend/data/base.py:105-106 | a name is counted zero times exactly when it is absent |
| DataSource.FirstMissing | backend/data/base.py:104-107 | none exactly when every required name is present; otherwise a required name that is absent |
| DataSource.FirstMissingFirst | backend/data/base.py:104-107 | the reported column is the first absent one in required order |
| DataSource.FirstDuplicate | backend/data/base.py:110-111 | none exactly when each required name occurs at most once; otherwise one that occurs twice |
| DataSource.IndexOf | backend/data/base.py:110-111 | the first position of a present column |
| DataSource.CoerceCell | backend/data/base.py:111 | no text survives; numbers are kept; NaN stays NaN |
| DataSource.CoerceColumn | backend/data/base.py:111 | the column names and the row count are kept |
| DataSource.Coerced | backend/data/base.py:110-111 | the column names and the row count are kept |
| DataSource.CoerceIdempotent | backend/data/base.py:111 | coercing twice is coercing once |
| DataSource.CoerceNext | backend/data/base.py:110-111 | coercing the next required column extends the coerced prefix |
| DataSource.DropNa | backend/data/base.py:114 | never more rows than before |
| DataSource.DropNaMembers | backend/data/base.py:114 | a row survives exactly when it has no NaN |
| DataSource.DropNaOrder | backend/data/base.py:114 | dropping distributes over concatenation, so survivors keep their order |
| DataSource.Project | backend/data/base.py:125 | one bar per row |
| DataSource.ProjectFields | backend/data/base.py:125 | each bar is its row's index label and its five required numbers |
| DataSource.CoercedNumeric | backend/data/base.py:110-114 | after coercion and dropna every required cell is a number |
| DataSource.FormatOf | backend/data/base.py:81-125 | a successful result never has more bars than raw rows |
| DataSource.FormatData | backend/data/base.py:81-125 | the method's loops compute `FormatOf` |
| DataSource.FormatErrors | backend/data/base.py:104-111 | a missing column is reported exactly when it is the first absent one; success exactly when every required column occurs once |
| DataSource.FormatRows | backend/data/base.py:110-125 | on success the bars are the complete coerced rows in order, each carrying its label and required numbers |
| DataSource.ValidateSymbol | backend/data/base.py:69-79 | valid exactly when the symbol is in the source's symbol list |

## Left out

- Floating point: reals are exact. The routines `**`, `std` and `sqrt` come from a `FloatLib` parameter, and the final `round(…, 2)` is not modelled. NaN is `None` only where an indicator warm-up produces it. The `np.isfinite` guards of the MA-cross metrics are left out.
- Positive closes are assumed (`PositiveCloses`), as are a positive initial capital and windows and periods of at least 1. The source divides by each of these without a guard.
- Rsi.ValidState: an exit keeps the entry price, as in the source. The model requires a positive entry price while long, so the IEEE division by a zero entry price never arises.
- `create_indicators` (custom_strategy.py:63-335) is an input. `BacktestOf` takes the indicator frame, or the error building it raised, as a parameter.
- The user script and the `exec` sandbox are a function parameter. So are the indicator factories (`custom_ma` … `support_resistance`) and `volume_profile`, which the script may call (custom_strategy.py:361-437, 450-460).
- The per-bar `except` of `generate_signals` (custom_strategy.py:701-703) is not modelled. `execute_custom_logic` already turns every script error into a decision, so the rest of the loop body cannot raise for string reasons and scripts that do not mutate `data`. A script that deletes a column (the `close` read at line 677 then raises) or returns a reason pandas cannot store in one cell (raising at line 683 or 692 after the signal cell is written) is outside the model.
- Custom.ContextOf: the script is taken not to write into `data`, `current`, `prev` or the `history_*` slices. In the source these are the very frame the loop fills (custom_strategy.py:352-358, 480), so a script could write nonzero cells into the `signal` column that the gate never accepted; `Custom.SignalsAlternate` and `Custom.BacktestSound` hold only for scripts that do not.
- Custom.ContextFields: the rows it exposes are the indicator frame alone. In the source they also carry the `signal`, `position` and `reason` columns (custom_strategy.py:657-659), filled for the bars already processed (683-699) and still 0, 0 and '' from the current bar on; the script's view of those columns is not modelled.
- RuleHelpers.WaveAnalysis: the unused `period` argument is dropped.
- Fibonacci ratios are exact decimals.
- Dates are opaque strings compared lexicographically. `strftime` and `str(date)` formatting are left out.
- Reason texts keep the numbers they show; the rendering is not modelled.
- `print` logging is not modelled.
- Not part of this model, as they are outside the core: the API layer, the database, the cache and the Tushare source.
- `format_data`'s re-indexing by a `datetime` or `timestamp` column (base.py:116-123) is not modelled. The index label of each row is kept as the bar's date.
- DataSource.FormatOf: a required name that occurs twice after renaming raises in `pd.to_numeric`. The model reports this as `DuplicateColumn`, not a `TypeError`.
- Bollinger.BacktestOf: its snapshots use the shared `Snapshot` record, which also carries `capital` and `shares`; the source's Bollinger snapshot records hold only the date, the portfolio value and the price (backend/strategies/bollinger_strategy.py:149-153), so those two fields are extra in the model.
- Rsi.BacktestOf: the per-snapshot `rsi` value (backend/strategies/rsi_strategy.py:185) is not a field of `Snapshot`; the same series is returned as the separate `Outcome.rsi` column, one entry per bar.
- MaCross.Backtest: the returned frame and the equity curve's NaN fallback are not modelled. The fallback never triggers on positive closes.

## Findings

| source | as written | input that shows it | evidently intended | confidence | as-written member | corrected member |
|---|---|---|---|---|---|---|
| backend/strategies/custom_strategy.py:637-639 | `signal` is reset to 0 before the invalid-signal reason is formatted, so the reason always reads "invalid signal value: 0" | a script that assigns `signal = 2` | the reason names the offending value, 2 | not executed | Custom.InvalidReasonShowsZero (about Custom.CustomLogicAsWritten) | Custom.InvalidReasonShowsValue (about Custom.CustomLogic, which the strategy uses) |
