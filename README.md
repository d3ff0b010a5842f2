# MWT-2018 Case 3 — trade statistics, autoregressive Bitcoin backtest, factor-name generator

This project models the three pieces of sequential logic in `Case_3` of the MWT-2018 repository and proves properties of them in Dafny.

- **`TradeAnalysis`** (`numeric.dfy`, `trade_analysis.dfy`) covers the trade-statistics class: the running cumulative P&L, the win/loss/trade counts, the win rate and the average win and loss, the risk-reward ratio and the two breakeven ratios, the dollar and percent drawdown lists, the maximum drawdown, MAR and the underwater graph.
  - numpy's `nan` sentinel is the `Stat.NaN` value.
  - Python's `ZeroDivisionError` and the failure of `get_series` on an unknown selector are `Result.Err` values.
  - The `"P&L"`/`"Returns"` selector is the `SeriesType` datatype.
  - The accumulator loops are methods, proved equal to specification functions.
- **`Backtest`** (`backtest.dfy`) covers `backtest_autoregressive_strat` in `Bitcoin-Backtest.py`:
  - the lag frame, built by shift and then `dropna`;
  - the sorted year × month windows and the pandas date-label slicing into training and test rows;
  - edge, direction and signal;
  - the forward-filled position column;
  - quantity, row P&L and the daily `groupby` sum;
  - the concatenation of the monthly daily-P&L series, with `pd.concat` of no series (which raises) as a `Result.Err`.

  The two library calls (`LinearRegression().fit` and `Series.quantile`) are function fields of `Strategy`. Prediction is the linear formula over lag columns 1..L.
- **`CsvItems`** (`csv_items.dfy`) covers the factor-name generator `build_init`, `build_ops` and `build_fun`. The caller's list is a `SignalList` object whose `items` field each method extends. Each method's result is stated as a function of the old list, and lemmas give the exact counts, order and shape.

## Date slicing and the drawdown basis

- **Training slice.** `df[:start_date]` (`Case_3/Bitcoin-Backtest.py:51`) is a pandas label slice on a date string. Such a slice includes its end label at day resolution. The training rows therefore include every row of the test month's first day. `Backtest.Training` and `Backtest.BoundaryDayShared` state this.
- **Test slice.** `df[start_date:end_date]` (`Case_3/Bitcoin-Backtest.py:53`) includes both ends at day resolution, so it also holds the rows of the next month's first day. Consecutive test months therefore both contain that day's rows (`Backtest.TestSliceIsClosedRange`, `Backtest.BoundaryDayShared`).
- **Drawdown basis.** The running list behind the drawdown and the underwater graph is always built from the P&L series, even in Returns mode (`Case_3/TradeAnalysis.py:142`, `169`). The models use `a.pnlList` there.

## Model

| member | source | states |
|---|---|---|
| TradeAnalysis.ParseSeriesType | Case_3/TradeAnalysis.py:16-21 | "P&L" selects the P&L series and "Returns" the returns series, each if and only if the name is that string; any other name is an error naming the selector |
| TradeAnalysis.Series | Case_3/TradeAnalysis.py:16-21 | the stored list a resolved selector names; it has no contract of its own, and `GetSeries` states that the lookup by name returns it |
| TradeAnalysis.GetSeries | Case_3/TradeAnalysis.py:16-21 | the lookup succeeds exactly for the two known selectors and returns the matching stored list |
| TradeAnalysis.RunningSums | Case_3/TradeAnalysis.py:23-30 | the running list has the series' length and element i is the sum of the first i+1 entries |
| TradeAnalysis.CalcRunningPnlList | Case_3/TradeAnalysis.py:23-30 | the accumulator loop yields the running sums; the list has the series' length and its last element is the series total |
| TradeAnalysis.CalcNumWins | Case_3/TradeAnalysis.py:80-86 | the counting loop returns the number of strictly positive entries |
| TradeAnalysis.CalcNumLosses | Case_3/TradeAnalysis.py:88-94 | the counting loop returns the number of strictly negative entries |
| TradeAnalysis.WinsLossesZerosPartition | Case_3/TradeAnalysis.py:80-100 | wins, losses and zero entries partition the series: their counts add up to its length, so zeros count as neither |
| TradeAnalysis.Zeros | Case_3/TradeAnalysis.py:80-100 | the zero entries, which count as neither wins nor losses: at most the series' entries, each equal to 0 |
| TradeAnalysis.NumTrades | Case_3/TradeAnalysis.py:96-100 | trades = wins + losses = length minus the zero entries, and it is 0 exactly when every entry is 0 |
| TradeAnalysis.Positives | Case_3/TradeAnalysis.py:110 | the list comprehension keeps at most the series' entries, each strictly positive |
| TradeAnalysis.Negatives | Case_3/TradeAnalysis.py:116 | the list comprehension keeps at most the series' entries, each strictly negative |
| TradeAnalysis.NoTradesIffAllFlat | Case_3/TradeAnalysis.py:96-106 | there are no wins and no losses if and only if every entry is zero (the case in which the win rate divides by zero) |
| TradeAnalysis.WinRate | Case_3/TradeAnalysis.py:102-106 | division by zero exactly when there are no trades; otherwise a value in [0,1] equal to the win count divided by the trade count, and which is 1 exactly when there are no losses |
| TradeAnalysis.WinFraction | Case_3/TradeAnalysis.py:105 | for a positive trade count, wins / (wins + losses) lies in [0,1], is 1 exactly when there are no losses, and times the trade count gives the win count |
| TradeAnalysis.AverageWin | Case_3/TradeAnalysis.py:108-112 | NaN exactly when there is no positive entry; otherwise a positive number whose product with the win count is the sum of the wins |
| TradeAnalysis.AverageLoss | Case_3/TradeAnalysis.py:114-120 | NaN exactly when there is no negative entry; otherwise a negative number whose product with the loss count is the sum of the losses |
| TradeAnalysis.SumOfPositives | Case_3/TradeAnalysis.py:108-112 | a non-empty list of positive entries has a positive sum |
| TradeAnalysis.SumOfNegatives | Case_3/TradeAnalysis.py:114-120 | a non-empty list of negative entries has a negative sum |
| TradeAnalysis.MeanSign | Case_3/TradeAnalysis.py:108-120 | the mean of a non-empty list is positive (negative) exactly when its sum is |
| TradeAnalysis.RiskReward | Case_3/TradeAnalysis.py:122-127 | defined exactly when there are both wins and losses; then positive, and times the average win it gives minus the average loss |
| TradeAnalysis.LossToWinRatio | Case_3/TradeAnalysis.py:126 | for a negative average loss and a positive average win, abs(loss / win) is positive and times the win gives minus the loss |
| TradeAnalysis.BreakevenWinRateOf | Case_3/TradeAnalysis.py:129-132 | for a risk-reward rr ≥ 0 the breakeven win rate p lies in [0,1), is positive when rr is, and satisfies p·(rr+1) = rr |
| TradeAnalysis.BreakevenRiskRewardOf | Case_3/TradeAnalysis.py:134-139 | for a win rate w in [0,1) the breakeven risk-reward b is non-negative and satisfies b·(1−w) = w |
| TradeAnalysis.BreakevenFormulasInverse | Case_3/TradeAnalysis.py:129-139 | the two breakeven formulas are inverse: the breakeven win rate of the breakeven risk-reward of w is w |
| TradeAnalysis.BreakevenWinRate | Case_3/TradeAnalysis.py:129-132 | defined exactly when the risk-reward ratio is, and then strictly between 0 and 1 |
| TradeAnalysis.BreakevenWinRateZeroesExpectancy | Case_3/TradeAnalysis.py:122-132 | at the breakeven win rate the expected P&L per trade, p·average win + (1−p)·average loss, is zero |
| TradeAnalysis.ExpectancyAtBreakeven | Case_3/TradeAnalysis.py:122-132 | for any positive win and risk-reward rr with rr·win = −loss, the breakeven win rate p gives p·win + (1−p)·loss = 0 |
| TradeAnalysis.BreakevenRiskReward | Case_3/TradeAnalysis.py:134-139 | division by zero exactly when there are no trades; NaN exactly when the win rate is 1 (trades but no losses); otherwise a non-negative ratio whose breakeven win rate is the actual win rate |
| TradeAnalysis.Peak | Case_3/TradeAnalysis.py:146 | the running peak at index i is at least the running value at i |
| TradeAnalysis.PeakIsPrefixMax | Case_3/TradeAnalysis.py:146 | the running peak used at index i is the maximum of the running list up to i |
| TradeAnalysis.DrawdownAt | Case_3/TradeAnalysis.py:143-146 | each drawdown value is ≤ 0 and, after index 0, at most the current distance below the running peak |
| TradeAnalysis.DrawdownAtNonIncreasing | Case_3/TradeAnalysis.py:143-146 | each drawdown value is at most every earlier one and at most 0 |
| TradeAnalysis.Drawdowns | Case_3/TradeAnalysis.py:141-148 | the drawdown list has length max(1, n), starts at 0, is non-increasing and every element is ≤ 0 |
| TradeAnalysis.Underwater | Case_3/TradeAnalysis.py:170-173 | the underwater graph has one value per running entry |
| TradeAnalysis.UnderwaterAt | Case_3/TradeAnalysis.py:173 | each underwater value is ≤ 0, and is 0 exactly where the cumulative value equals its running peak |
| TradeAnalysis.DrawdownIsWorstUnderwater | Case_3/TradeAnalysis.py:141-179 | drawdown[i] is the minimum of underwater[0..i] |
| TradeAnalysis.MaxDrawdownZeroIffAlwaysAtPeak | Case_3/TradeAnalysis.py:141-157 | the final drawdown is 0 exactly when the cumulative value is at its running peak at every index |
| TradeAnalysis.MinZeroIffAllZero | Case_3/TradeAnalysis.py:141-157 | the smallest of non-positive values is 0 exactly when every value is 0 |
| TradeAnalysis.PercentDrawdownAt | Case_3/TradeAnalysis.py:149-151 | each percent drawdown value is ≤ 0 and, after index 0, at most the dollar drawdown over the account size plus the peak |
| TradeAnalysis.PercentDrawdownAtNonIncreasing | Case_3/TradeAnalysis.py:149-151 | each percent drawdown value is at most every earlier one and at most 0 |
| TradeAnalysis.PercentDrawdowns | Case_3/TradeAnalysis.py:144-152 | the percent drawdown list has length max(1, n), starts at 0, is non-increasing and every element is ≤ 0 |
| TradeAnalysis.PercentUnderwaterAt | Case_3/TradeAnalysis.py:176-178 | each percent underwater value is ≤ 0 and is 0 at a running peak; when the account size plus the peak is positive it is 0 only at a running peak, and when that sum is negative it is always 0 |
| TradeAnalysis.QuotientSign | Case_3/TradeAnalysis.py:177 | a non-positive gap over a positive equity is ≤ 0 and negative exactly when the gap is; over a negative equity it is ≥ 0 |
| TradeAnalysis.PercentUnderwaterZeroBelowPeak | Case_3/TradeAnalysis.py:176-178 | with running [1, 0] and account size −5, index 1 is below its peak yet its percent underwater value is 0 |
| TradeAnalysis.PercentUnderwater | Case_3/TradeAnalysis.py:176-179 | the percent underwater graph has one value per running entry, each ≤ 0 and 0 at every running peak |
| TradeAnalysis.DrawdownList | Case_3/TradeAnalysis.py:141-152 | what `calc_drawdown_list` returns, from the P&L running list in both modes: length max(1, n), starting at 0, non-increasing, every element ≤ 0 |
| TradeAnalysis.CalcDrawdownList | Case_3/TradeAnalysis.py:141-152 | the loops return the dollar drawdown list (P&L mode) or the percent one (Returns mode), both over the P&L running list; the result starts at 0, has length max(1, n) and is non-increasing |
| TradeAnalysis.CalcDrawdowns | Case_3/TradeAnalysis.py:143-146 | the first loop returns the dollar drawdown list of the running list |
| TradeAnalysis.CalcPercentDrawdowns | Case_3/TradeAnalysis.py:144-152 | given the dollar drawdown list, the second loop returns the percent drawdown list |
| TradeAnalysis.UnderwaterGraph | Case_3/TradeAnalysis.py:168-179 | what `calc_underwater_graph` returns, from the P&L running list in both modes: one value per P&L entry, each ≤ 0 |
| TradeAnalysis.CalcUnderwaterGraph | Case_3/TradeAnalysis.py:168-179 | the loops return the dollar or percent underwater graph over the P&L running list, one value per entry, each ≤ 0 |
| TradeAnalysis.CalcUnderwater | Case_3/TradeAnalysis.py:170-173 | the first loop returns the dollar underwater graph of the running list |
| TradeAnalysis.CalcPercentUnderwater | Case_3/TradeAnalysis.py:171-178 | given the dollar underwater graph, the second loop returns the percent underwater graph |
| TradeAnalysis.MaxDrawdown | Case_3/TradeAnalysis.py:154-157 | the maximum drawdown is the last element of the drawdown list, the smallest of its elements, and ≤ 0 |
| TradeAnalysis.Mar | Case_3/TradeAnalysis.py:159-166 | NaN exactly when the maximum drawdown is 0 or the series is empty (its mean is then NaN); otherwise the value is the mean annualised over the absolute maximum drawdown, and its sign is that of the series total |
| TradeAnalysis.MarValue | Case_3/TradeAnalysis.py:159-166 | a numeric MAR times the absolute maximum drawdown is 252 times the mean of the series |
| TradeAnalysis.Annualised | Case_3/TradeAnalysis.py:165 | mean / size · 252 for a positive size: it has the mean's sign in both directions, and times the size it is 252 times the mean |
| Backtest.NextMonthStart | Case_3/Bitcoin-Backtest.py:49-50 | the date a month after the first of a month is the first of the next month, strictly later, with a valid month number |
| Backtest.Shift | Case_3/Bitcoin-Backtest.py:41 | shifting a column by i leaves the first i rows missing and row t holding the value of row t−i |
| Backtest.LagFrame | Case_3/Bitcoin-Backtest.py:38-42 | dropping the rows with a missing lag leaves max(0, n − L) rows |
| Backtest.LagFrameValid | Case_3/Bitcoin-Backtest.py:38-42 | from chronological ticks and L ≥ 1 the lag frame is chronological and every row has at least the first lag |
| Backtest.LagFrameShiftsConsistently | Case_3/Bitcoin-Backtest.py:40-42 | in consecutive frame rows, lag 1 of the later row is the earlier row's price and lag i+1 of the later row is lag i of the earlier one |
| Backtest.BuildLagFrame | Case_3/Bitcoin-Backtest.py:38-42 | the shift loop and the dropna pass build the lag frame: row k holds price k+L in column 0 and price k+L−i in column i |
| Backtest.ShiftedColumns | Case_3/Bitcoin-Backtest.py:39-41 | the loop builds columns 0..L, column c being the price column shifted down by c rows |
| Backtest.DropMissing | Case_3/Bitcoin-Backtest.py:42 | dropping every row with a missing column value from the shifted columns gives the lag frame |
| Backtest.LagsFromColumns | Case_3/Bitcoin-Backtest.py:41-42 | at a row t ≥ L the shifted columns hold the price and the lags of frame row t − L |
| Backtest.AtMost | Case_3/Bitcoin-Backtest.py:51 | the cut of a label slice ending at a date: every row before it is dated on or before that day, and no row after it is |
| Backtest.Before | Case_3/Bitcoin-Backtest.py:53 | the cut of a label slice starting at a date: every row before it is dated strictly earlier, and no row after it is |
| Backtest.Training | Case_3/Bitcoin-Backtest.py:51 | every training row is dated on or before the month's first day |
| Backtest.Test | Case_3/Bitcoin-Backtest.py:53 | every test row is dated from the month's first day up to and including the next month's first day |
| Backtest.TestValid | Case_3/Bitcoin-Backtest.py:53 | the test slice of a valid frame is itself chronological with a first lag on every row |
| Backtest.TestSliceIsClosedRange | Case_3/Bitcoin-Backtest.py:48-53 | a row is in the test slice if and only if its date lies in the closed range from the month's first day to the next month's first day |
| Backtest.BoundaryDayShared | Case_3/Bitcoin-Backtest.py:48-53 | a row dated on the next month's first day is tested in both months and already belongs to the next month's training rows |
| Backtest.Edge | Case_3/Bitcoin-Backtest.py:64 | the edge is non-negative and is plus or minus the predicted move from lag 1 |
| Backtest.Direction | Case_3/Bitcoin-Backtest.py:66 | the direction is +1 exactly when the prediction is at least lag 1, otherwise −1, and direction times predicted move is the edge |
| Backtest.Signal | Case_3/Bitcoin-Backtest.py:65-68 | a row has a signal exactly when its excess edge is positive, and the signal is the row's direction |
| Backtest.Signals | Case_3/Bitcoin-Backtest.py:65-68 | one signal slot per test row, each present signal being +1 or −1 |
| Backtest.Predict | Case_3/Bitcoin-Backtest.py:63 | the linear prediction, the intercept plus the coefficients times lags 1..L; it has no contract of its own and enters every property through `Edge` and `Direction` |
| Backtest.ForwardFillColumn | Case_3/Bitcoin-Backtest.py:70 | the in-place forward fill leaves the column equal to the forward fill of its old contents |
| Backtest.FillMissingColumn | Case_3/Bitcoin-Backtest.py:72 | the in-place fill replaces every missing slot by the value and leaves the others as they were |
| Backtest.ForwardFill | Case_3/Bitcoin-Backtest.py:70 | forward filling keeps the column's length |
| Backtest.FillMissing | Case_3/Bitcoin-Backtest.py:72 | filling keeps the column's length and leaves no slot missing |
| Backtest.FilledAt | Case_3/Bitcoin-Backtest.py:70 | the forward-filled slot at row t; it has no contract of its own, and `FilledAtLastValue` states its meaning |
| Backtest.FilledAtLastValue | Case_3/Bitcoin-Backtest.py:70 | the forward fill at row t is missing exactly when no slot up to t holds a value, and otherwise is the value of the last such slot |
| Backtest.PositionAt | Case_3/Bitcoin-Backtest.py:67-72 | a row with a signal holds that signal, and a row with no signal at or before it holds 0 |
| Backtest.Positions | Case_3/Bitcoin-Backtest.py:67-72 | one position per test row |
| Backtest.FilledColumnIsPositions | Case_3/Bitcoin-Backtest.py:67-72 | forward filling the signal column and then filling with 0 gives the position list |
| Backtest.PositionRecurrence | Case_3/Bitcoin-Backtest.py:68-72 | the position at a row is its signal if it has one, otherwise 0 on the first row and the previous position on any other |
| Backtest.PositionChangesOnlyAtSignals | Case_3/Bitcoin-Backtest.py:68-70 | a row whose position differs from the previous row's carries a signal |
| Backtest.PositionInRange | Case_3/Bitcoin-Backtest.py:67-72 | the position is always −1, 0 or 1 |
| Backtest.PositionZeroBeforeFirstSignal | Case_3/Bitcoin-Backtest.py:67-72 | the position is 0 on every row before the month's first signal |
| Backtest.Quantities | Case_3/Bitcoin-Backtest.py:73 | one quantity per row, missing at the month's first row |
| Backtest.QuantityInRange | Case_3/Bitcoin-Backtest.py:73 | after the first row the quantity is defined and is at most 2 |
| Backtest.QuantityStep | Case_3/Bitcoin-Backtest.py:73 | the quantity of row k is at most 2, and 0 unless k > 0 and row k has a signal |
| Backtest.QuantityTotal | Case_3/Bitcoin-Backtest.py:79 | the quantity sum, skipping the missing first row, is 0 exactly when every present quantity is 0 |
| Backtest.QuantityTotalBound | Case_3/Bitcoin-Backtest.py:73-79 | the quantity total, which skips the missing first row, is at most twice the number of signals after the first row |
| Backtest.RowPnl | Case_3/Bitcoin-Backtest.py:74 | a flat row earns 0; a long row earns price minus lag 1 and a short row the opposite |
| Backtest.RowEntries | Case_3/Bitcoin-Backtest.py:74 | one dated P&L entry per test row |
| Backtest.RowEntriesChronological | Case_3/Bitcoin-Backtest.py:74-76 | the dated P&L entries of chronological rows are chronological |
| Backtest.TotalConcat | Case_3/Bitcoin-Backtest.py:87 | the total of a concatenation is the sum of the totals |
| Backtest.GroupDaily | Case_3/Bitcoin-Backtest.py:76 | grouping never adds entries and keeps the last entry's date last; `GroupDailyDates` ties its days to the rows' days |
| Backtest.GroupDailyTotal | Case_3/Bitcoin-Backtest.py:76 | grouping by day preserves the total P&L |
| Backtest.GroupDailyIncreasing | Case_3/Bitcoin-Backtest.py:76 | on chronological rows the grouped days are strictly increasing (sorted, one entry per date) |
| Backtest.GroupDailySumsEachDay | Case_3/Bitcoin-Backtest.py:76 | each grouped entry is the sum of the row P&L dated that day |
| Backtest.SumOnAbsent | Case_3/Bitcoin-Backtest.py:76 | a day on which no row is dated sums to 0 |
| Backtest.GroupDailyKeepsDate | Case_3/Bitcoin-Backtest.py:76 | a day has a grouped entry if and only if some row is dated that day |
| Backtest.GroupDailyDates | Case_3/Bitcoin-Backtest.py:76 | the grouped days are exactly the rows' days, in both directions |
| Backtest.GroupDailyIsDailySums | Case_3/Bitcoin-Backtest.py:76 | on chronological rows, grouping gives the per-day summary: strictly increasing days, exactly the rows' days, each day's sum, and the same total |
| Backtest.ReplaceLastIncreasing | Case_3/Bitcoin-Backtest.py:76 | merging a row into the last day's entry keeps the days strictly increasing |
| Backtest.AppendIncreasing | Case_3/Bitcoin-Backtest.py:76 | appending a later day keeps the days strictly increasing |
| Backtest.WindowReport | Case_3/Bitcoin-Backtest.py:51-82 | a month appends a report exactly when its training and test slices are both non-empty; the report has one row per test row, dated as that row, and its daily series is the rows' per-day summary: strictly increasing days, exactly the rows' days, each day's P&L sum, and the rows' total |
| Backtest.RunWindow | Case_3/Bitcoin-Backtest.py:51-82 | one month's fit, signal, in-place position fill, quantity, P&L and grouping produce the month's report |
| Backtest.Offset | Case_3/Bitcoin-Backtest.py:57-59 | the training quantile of the edges, a library call through `Strategy`; it has no contract of its own |
| Backtest.Insert | Case_3/Bitcoin-Backtest.py:46-47 | inserting into a strictly increasing list keeps it strictly increasing and adds exactly the new value |
| Backtest.SortedDistinct | Case_3/Bitcoin-Backtest.py:46-47 | `sorted(... .drop_duplicates())` is strictly increasing and holds exactly the input's values |
| Backtest.Years | Case_3/Bitcoin-Backtest.py:46 | the years are strictly increasing and are exactly the years of the frame's rows |
| Backtest.Months | Case_3/Bitcoin-Backtest.py:47 | the months are strictly increasing and are exactly the months of the frame's rows, whatever the year |
| Backtest.YearWindows | Case_3/Bitcoin-Backtest.py:47-48 | a year gets one window per month |
| Backtest.Windows | Case_3/Bitcoin-Backtest.py:46-48 | the nested loops visit |years|·|months| windows, each the first day of a visited year and month |
| Backtest.WindowsYearsBelow | Case_3/Bitcoin-Backtest.py:46-48 | windows of years below a bound are all dated in years below it |
| Backtest.WindowsSnoc | Case_3/Bitcoin-Backtest.py:46-48 | visiting one more year appends that year's windows |
| Backtest.NextWindow | Case_3/Bitcoin-Backtest.py:47-48 | visiting one more month appends that month's first day |
| Backtest.WindowsChronological | Case_3/Bitcoin-Backtest.py:46-48 | with sorted distinct years and months, the visited windows are in strictly increasing date order |
| Backtest.Reports | Case_3/Bitcoin-Backtest.py:46-82 | at most one report per window, each with daily total equal to its rows' total |
| Backtest.ReportsDailySums | Case_3/Bitcoin-Backtest.py:46-82 | every report's daily series is the per-day summary of its rows |
| Backtest.ReportsSnoc | Case_3/Bitcoin-Backtest.py:82 | visiting one more window appends that window's report, if any |
| Backtest.ConcatTotal | Case_3/Bitcoin-Backtest.py:82-87 | the concatenated daily series has the same total as all the processed row P&L |
| Backtest.Concat | Case_3/Bitcoin-Backtest.py:87 | `pd.concat` of the monthly daily series, in order; it has no contract of its own, and `ConcatTotal` and `ConcatDays` state its total and its days |
| Backtest.AllRows | Case_3/Bitcoin-Backtest.py:74-82 | every processed test row, month after month; it has no contract of its own and is the reference for `ConcatTotal` and `ConcatDays` |
| Backtest.HasDateConcat | Case_3/Bitcoin-Backtest.py:87 | a day appears in a concatenation exactly when it appears in one of the parts |
| Backtest.ConcatDays | Case_3/Bitcoin-Backtest.py:82-87 | when every month's series summarises its rows, the concatenated series holds exactly the days of all processed rows |
| Backtest.ConcatCoversRows | Case_3/Bitcoin-Backtest.py:82-87 | the concatenated series has the total and exactly the days of all processed rows |
| Backtest.RunYear | Case_3/Bitcoin-Backtest.py:47-82 | the month loop extends the reports by exactly those of the year's windows, in month order |
| Backtest.RunYears | Case_3/Bitcoin-Backtest.py:46-82 | the year loop produces the reports of every year × month window in loop order |
| Backtest.BacktestReports | Case_3/Bitcoin-Backtest.py:38-82 | at most one report per year × month window, each with a daily series that summarises its rows |
| Backtest.BacktestAutoregressiveStrat | Case_3/Bitcoin-Backtest.py:28-87 | the backtest returns the reports of all year × month windows in order; `pd.concat` fails exactly when there is no report, and otherwise the daily P&L is their concatenation, with the total and exactly the days of all processed rows |
| Backtest.ShortHistoryNoReports | Case_3/Bitcoin-Backtest.py:38-87 | a price history no longer than the look-back leaves no window and no report, so the backtest fails at `pd.concat` |
| CsvItems.SignalList.constructor | Case_3/csv_items.py:74 | a new signal list holds the given names |
| CsvItems.Delayed | Case_3/csv_items.py:20-21 | a delayed name is the factor followed by the six characters `_{t-d}` |
| CsvItems.DelayedRoundTrip | Case_3/csv_items.py:20-21 | a delayed name parses back to its factor and delay |
| CsvItems.DelayedUpTo | Case_3/csv_items.py:15-22 | a factor's delayed names are `F_{t-1}` … `F_{t-d}` in increasing delay order (delay 0 yields nothing) |
| CsvItems.FactorNames | Case_3/csv_items.py:11-23 | "1" is added bare; every other factor gets exactly four delayed names |
| CsvItems.TickerNamesUpTo | Case_3/csv_items.py:24-30 | each ticker gets four delayed names |
| CsvItems.FactorNamesUpTo | Case_3/csv_items.py:11-23 | the factor phase's names, factor by factor; it has no contract of its own, and `FactorNamesLength`, `FactorBlockAt` and `BaseNamesShape` state its length and layout |
| CsvItems.FactorBlockAt | Case_3/csv_items.py:11-23 | the name at position 4f + d − 1 of the factor block is factor f delayed by d |
| CsvItems.TickerBlockAt | Case_3/csv_items.py:24-30 | the name at position 4t + d − 1 of the ticker block is ticker t delayed by d |
| CsvItems.BaseNamesLayout | Case_3/csv_items.py:4-30 | the 57 base names: positions 0..39 are the ten factors' delays, position 40 is "1", positions 41..56 are the four tickers' delays |
| CsvItems.BaseNames | Case_3/csv_items.py:11-30 | the factor and ticker phases add 57 names |
| CsvItems.FactorNamesCount | Case_3/csv_items.py:4-23 | the factor phase adds 41 names |
| CsvItems.FactorNamesLength | Case_3/csv_items.py:11-23 | for factors whose last entry alone is "1", the factor phase adds four names per other factor and one for "1" |
| CsvItems.OnlyLastFactorIsOne | Case_3/csv_items.py:4 | of the eleven factors only the last is "1" |
| CsvItems.BaseNamesShape | Case_3/csv_items.py:11-30 | for any such factors and any tickers: each other factor's delays in order, then "1", then each ticker's delays |
| CsvItems.Wrap | Case_3/csv_items.py:39 | the wrapped name is the function's name, "(", the name and ")" |
| CsvItems.Transforms | Case_3/csv_items.py:37-40 | every transform of every name, name by name; it has no contract of its own, and `TransformsLength` and `TransformsAt` state its length and layout |
| CsvItems.TransformsLength | Case_3/csv_items.py:37-40 | wrapping k names with m functions gives m·k names |
| CsvItems.TransformsAt | Case_3/csv_items.py:37-40 | the name at position i·m + j of the transform block is function j applied to name i |
| CsvItems.TransformsAtOffset | Case_3/csv_items.py:37-40 | transform j of name i comes right after the transforms of the names before i |
| CsvItems.InitLength | Case_3/csv_items.py:8-43 | after `build_init` a list of n names holds 5·(n+57) names |
| CsvItems.InitAdded | Case_3/csv_items.py:8-43 | what `build_init` appends; it has no contract of its own, and `InitLength`, `InitChangerAt` and `BuildInit` state it |
| CsvItems.InitChangerAt | Case_3/csv_items.py:36-43 | `SQRT`, `LOG`, `SQR` and `INV` of each name present before the changer phase appear at its fixed positions, and the phase never transforms its own output |
| CsvItems.ChangerAt | Case_3/csv_items.py:36-43 | for any list and base names, changer j of name i lands at position (list + base length) + 4i + j after the changer phase |
| CsvItems.BuildInit | Case_3/csv_items.py:8-43 | the old names are kept and followed by the base names and then the four changers of every name present before the changer phase |
| CsvItems.AppendFactorNames | Case_3/csv_items.py:11-23 | the factor loop appends each factor's names in order |
| CsvItems.AppendTickerNames | Case_3/csv_items.py:24-30 | the ticker loop appends each ticker's four delayed names in order |
| CsvItems.AppendDelayed | Case_3/csv_items.py:15-22 | the delay loop appends delays 1..4 of one factor |
| CsvItems.CollectTransforms | Case_3/csv_items.py:36-40 | the temporary list holds each name wrapped by each function, name by name |
| CsvItems.AppendAll | Case_3/csv_items.py:41-42 | the copy loop appends the temporary list in order |
| CsvItems.BuildFun | Case_3/csv_items.py:61-70 | the old names are kept and followed by `STDDEV` and `ARMA` of each, name by name |
| CsvItems.FunShape | Case_3/csv_items.py:61-70 | the list triples in length and the old names stay in place |
| CsvItems.PairOpsSpelledOut | Case_3/csv_items.py:52-55 | an ordered pair gets `(a+b)`, `(a-b)`, `(a/b)`, `(a*b)`, `(a%b)` in that order, or only the `-`, `/` and `%` ones when the first position is the later one |
| CsvItems.OpName | Case_3/csv_items.py:54 | the operator name is two characters longer than its operands and operator together |
| CsvItems.OpNameParts | Case_3/csv_items.py:54 | an operator name reads back as "(", the first operand, the operator, the second operand and ")" |
| CsvItems.OpNameInjective | Case_3/csv_items.py:54 | for operands of the same lengths, two operator names coincide only when operands and operator do |
| CsvItems.PairOps | Case_3/csv_items.py:51-55 | the names for one pair of positions: none for equal strings, otherwise the operations in order; it has no contract of its own, and `PairOpsSpelledOut` and `RowOpsCount` state it |
| CsvItems.RowOpsUpTo | Case_3/csv_items.py:50-55 | one position's names paired with each position in turn; it has no contract of its own, and `RowOpsCount` states its length |
| CsvItems.RowOpsCount | Case_3/csv_items.py:50-55 | on distinct names, row e gets 3 names per earlier position and 5 per later one |
| CsvItems.OpsCount | Case_3/csv_items.py:49-55 | on distinct names, the first e rows give the sum over rows r < e of 5(n−1) − 2r names |
| CsvItems.RowsTotalClosedForm | Case_3/csv_items.py:49-55 | that sum equals e·(5n−5) − e·(e−1) |
| CsvItems.OpNamesCount | Case_3/csv_items.py:46-58 | on n distinct names, `build_ops` appends exactly 4·n·(n−1) names |
| CsvItems.OpNames | Case_3/csv_items.py:46-58 | what `build_ops` appends; it has no contract of its own, and `OpNamesCount` and `BuildOps` state it |
| CsvItems.BuildOps | Case_3/csv_items.py:46-58 | the old names are kept and followed by the operator names of every ordered pair of positions holding unequal names |
| CsvItems.CollectRowOps | Case_3/csv_items.py:50-55 | the inner loop collects one row's operator names |
| CsvItems.CollectPairOps | Case_3/csv_items.py:52-55 | the operator loop collects one pair's names in operator order |
| Numeric.Mean | Case_3/TradeAnalysis.py:111 | `np.mean` is NaN exactly on the empty list and otherwise times the length gives the sum |
| Numeric.SumConcat | Case_3/TradeAnalysis.py:28 | the sum of a concatenation is the sum of the sums |
| Numeric.MaxOf | Case_3/TradeAnalysis.py:146 | Python's `max` over a non-empty list is one of its elements and at least every element |
| Numeric.MinOf | Case_3/TradeAnalysis.py:146 | the smallest element of a non-empty list is one of its elements and at most every element |

## Left out

- CSV loading, datetime conversion, index setting and column deletion (`Case_3/Bitcoin-Backtest.py:19-23`) are file I/O and pandas plumbing. The model starts from a chronological list of dated prices.
- Time of day is not modelled. Every slice and grouping in the backtest works at day resolution, so rows carry only their date.
- `dropna` of a missing price is not modelled; prices are real numbers, so only the shift-created gaps are dropped.
- `LinearRegression().fit`, `r2_score` and `Series.quantile` (`Case_3/Bitcoin-Backtest.py:55-59, 80`) are library calls. Fit and quantile are function fields of `Strategy`, so every property holds for any fit and any quantile. `predict` is the linear formula over lag columns 1..L. Coefficients beyond L are ignored.
- The R² values, the monthly Sharpe and the printed headers (`Case_3/Bitcoin-Backtest.py:61, 78-80, 84-85`) are only printed. The monthly quantity total that line 79 prints is kept in `MonthReport.quantity`.
- `fillna(0)` after `pd.concat` (`Case_3/Bitcoin-Backtest.py:87`) is a no-op here, because no daily sum is NaN. The summary and the cumulative plot of the final series (`Case_3/Bitcoin-Backtest.py:89-91`) are left out with the rendering below.
- Sharpe, trade Sharpe, downside deviation, Sortino and p-value (`Case_3/TradeAnalysis.py:37-78`) need square roots, `np.std` and the normal CDF. They are floating-point numerics.
- `print_summary_list` and `get_stats` (`Case_3/TradeAnalysis.py:186-370`) render floats to strings.
- Plotting, the `print` calls in `csv_items.py`, its `__main__` block, `get_ipython` and the unused `multiprocessing` import are left out as output-only or unused code.
- Floats are modelled as exact reals: rounding, `inf` and overflow are not modelled.
- TradeAnalysis.PercentDrawdowns: requires every running peak plus the account size to be non-zero. When that sum is zero, the division by `float(...)` raises `ZeroDivisionError` if the running values are Python numbers, and gives numpy's `inf`/`nan` if they are numpy floats. Neither outcome is modelled. The same holds for PercentDrawdownAt, PercentUnderwaterAt, PercentUnderwater, CalcDrawdownList, CalcUnderwaterGraph, MaxDrawdown and Mar in Returns mode.
- TradeAnalysis.CalcDrawdownList: the statistics take the selector as a `SeriesType`. The unknown-selector failure is modelled once, at `ParseSeriesType`/`GetSeries`, not repeated in every statistic. In Python, `calc_drawdown_list` and `calc_underwater_graph` would return `None` for an unknown selector, and the others would raise.
- A `returns_list` of `None` (as passed at `Case_3/Bitcoin-Backtest.py:89`) is not modelled; both series are lists.
- Backtest.BacktestAutoregressiveStrat: requires chronological ticks, because pandas label slicing is modelled on a monotonic index. It also requires `look_back ≥ 1`. With `look_back = 0` there is no lag column, so the first non-empty training slice fails: the regression fit on zero feature columns (`Case_3/Bitcoin-Backtest.py:55`) raises, and column 1 is read at line 57. That failure is not modelled.
