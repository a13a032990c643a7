# A verified model of the AI stock-prediction toolkit's decision core

This project models, in Dafny, the deterministic core of a Python stock-analysis and backtesting
toolkit (glossner/AI-Agent-Stock-Prediction) and proves properties of it. The core has six parts.

- **Indicators.** The exponential moving averages behind MACD, computed two ways: as a fresh frame
  (`macd_indicator.py`) and written into the caller's frame (`macd.py`). Also the rolling-mean RSI,
  Bollinger bands, Fibonacci retracement levels and the per-day VWAP.
- **Divergence detection.** Two scans that list the rows where price and indicator move apart.
- **Trend and signal agents.**
  - A three-vote trend classifier with its strength, duration and volume trend.
  - A forecaster wrapper that labels forecasts, scores their confidence, builds the LSTM training
    windows and sets a price target.
  - A five-level signal table with risk-tier stop-loss and take-profit levels.
  - A keyword trend rule over two indicator agents' answers.
- **Text parsers over language-model output.** The dividend-growth regex, the sentiment and
  earnings-call keyword classifiers, the correlation-value extraction, and the scenario-input
  parser and validator.
- **Portfolio data.** Assets are grouped by asset class into totals, and the weights are checked
  to sum to 1 within 0.01.
- **Backtest strategies.** Each strategy's `next` rule is modelled, including the buy-and-hold
  baselines.

Conventions:

- A Python float that may be NaN is `Num = Option<real>`, with None for NaN. Every comparison with
  NaN is false, as in Python.
- A pandas column is a `seq`, and a frame is a map from column names to columns plus an index.
- A dictionary is a list of pairs in insertion order.
- A Python exception is modelled as the `Err` case of a `Result`.
- The backtrader engine is reduced to what a strategy's `next` sees (module `Broker`).
  - Orders fill at once, on the bar that places them.
  - `self.position` is the signed number of shares held.
  - `buy()` and `sell()` without a size use the default stake of one share.
  - The cash and the close price are inputs of each bar.
  - Each strategy has a rule function that gives the order for one bar. Its class's `Next` method
    is proved to place that order and to move the position by it.
  - Whole-run properties are proved over `Broker.Run` and `Broker.Positions`: the orders and the
    positions of a run.
- `Broker.BuyAndHold` stands for every buy-and-hold baseline. These are written out identically in
  `backtest_correlated_stocks.py`, `backtest_divergence.py`, `backtest_dividend_forecast_updated.py`
  (`NonCrewAIStrategy`), `backtest_predict_sectors.py` and `backtest_sma.py`.
- In two places, the code as written does not do what its surrounding code evidently intends.
  The model states the behaviour as written and also models the intended version (see Findings).
  - `generate_signal` builds a full signal record from the trend agents, but at run time it
    always returns its HOLD fallback.
  - `predict_price_target` moves the target when the two forecasters agree, but at run time it
    always answers the last price.

Library results are parameters:

- the pandas_ta indicators;
- the SMA crossover sign;
- the ARIMA fit and forecast;
- the LSTM network;
- the answers of the crewAI crews and language models;
- the square root;
- the clock;
- the earnings dates that the earnings-call backtest fetches from the earnings API with `requests.get` (`backtesting_earning_calls.py:45-64`), which are the `earningsCallDates` of its strategy;
- the SEC filings it fetches with yahooquery (`backtesting_earning_calls.py:36-43`), which reach the strategy only through the crew's answer, the `analysis` of each bar.

## Model

| member | source | states |
|---|---|---|
| Ema.Alpha | src/Indicators/macd_indicator.py:32 | the smoothing factor 2 / (span + 1) of a span >= 1 lies in (0, 1] |
| Ema.Ewm | src/Indicators/macd_indicator.py:32 | `ewm(adjust=False).mean()` has one value per input and starts at the first input |
| Ema.EwmSpan | src/Indicators/macd_indicator.py:32 | a span below 1 raises ValueError; otherwise the average with factor 2 / (span + 1) |
| Ema.Minus | src/Indicators/macd_indicator.py:38 | the element-wise difference of two aligned series |
| Ema.EwmPrefix | src/Indicators/macd_indicator.py:32 | the average at row t depends only on the first t + 1 values |
| Ema.EwmStep | src/Indicators/macd_indicator.py:32 | each average is alpha times the new value plus (1 - alpha) times the previous average |
| Ema.EwmConstant | src/Indicators/macd_indicator.py:32 | the average of a constant series is that constant |
| Ema.EwmBounds | src/Indicators/macd_indicator.py:32 | the average stays within the range of the values |
| Ema.EwmMinus | src/Indicators/macd_indicator.py:38-41 | the average of a difference is the difference of the averages |
| MacdIndicator.MacdLine | src/Indicators/macd_indicator.py:32-38 | the MACD line has one value per close |
| MacdIndicator.ComputeLines | src/Indicators/macd_indicator.py:31-49 | MACD is fast EMA minus slow EMA, the signal is the EMA of MACD, and the histogram is MACD minus signal, row by row |
| MacdIndicator.Calculate | src/Indicators/macd_indicator.py:17-58 | a frame without Close raises ValueError; a period below 1 raises the EMA's ValueError; otherwise the three lines, indexed like the input |
| MacdIndicator.CalculateRows | src/Indicators/macd_indicator.py:52-56 | the result has one row per input row |
| MacdIndicator.ConstantPricesGiveZero | src/Indicators/macd_indicator.py:31-44 | a flat price series gives MACD, signal and histogram all zero |
| MacdIndicator.EqualPeriodsGiveZero | src/Indicators/macd_indicator.py:31-44 | equal fast and slow periods make every line zero |
| MacdIndicator.MacdWithinPriceRange | src/Indicators/macd_indicator.py:32-38 | the MACD line never moves further from zero than the spread of the prices |
| MacdIndicator.LinesArePrefixClosed | src/Indicators/macd_indicator.py:31-44 | values at row t depend only on prices up to row t |
| MacdColumns.WithMacd | src/Indicators/macd.py:17-20 | a completed calculation adds exactly the columns EMA12, EMA26, MACD and Signal_Line and keeps every other column |
| MacdColumns.MacdCalculator.constructor | src/Indicators/macd.py:4-8 | the calculator stores the frame and the windows (defaults 12, 26, 9) |
| MacdColumns.MacdCalculator.CalculateMacd | src/Indicators/macd.py:10-21 | the caller's frame gains the four columns in order; a missing Close raises KeyError before any write; a window below 1 raises ValueError after the earlier columns are written |
| MacdColumns.AgreesWithIndicator | src/Indicators/macd.py:17-20 | the written MACD and Signal_Line columns equal the MACD and signal lines of `macd_indicator.py` |
| MacdColumns.CalculateTwiceIsOnce | src/Indicators/macd.py:17-20 | calculating twice leaves the frame as calculating once |
| MacdStrategy.MacdRule | src/Backtesting/backtest_macd.py:56-64 | buy one share iff MACD > signal and flat; sell one iff MACD < signal and holding; equal values give no order |
| MacdStrategy.MacdNext | src/Backtesting/backtest_macd.py:100-115 | every bar reads the last row of the series; an empty series raises IndexError |
| MacdStrategy.FlatRunNeverSells | src/Backtesting/backtest_macd.py:49-64 | starting flat, a run never sells, because the compared values never change |
| MacdStrategy.Quiet | src/Backtesting/backtest_macd.py:101-115 | holding with MACD above the signal, or flat without it, no order is ever placed again |
| MacdStrategy.AtMostOneOrder | src/Backtesting/backtest_macd.py:101-115 | a run from flat places at most one order, on its first bar, and only with MACD above the signal |
| MacdStrategy.MacdStrategy.constructor | src/Backtesting/backtest_macd.py:89-98 | the MACD frame is computed once and the strategy starts flat |
| MacdStrategy.MacdStrategy.Next | src/Backtesting/backtest_macd.py:100-115 | the bar's order is `MacdNext` of the stored series at the old position, and the position moves by the filled size |
| RsiIndicator.Gains | src/Indicators/rsi_divergence.py:28-31 | the gain is the rise from the previous close, 0 for a fall and for the first row (whose NaN difference fails `> 0`) |
| RsiIndicator.Losses | src/Indicators/rsi_divergence.py:28-32 | the loss is the fall from the previous close, 0 for a rise and for the first row |
| RsiIndicator.WindowStart | src/Indicators/rsi_divergence.py:35-36 | the `min_periods=1` window ending at row t starts at or before t and spans fewer than `period` rows before it |
| RsiIndicator.RsiSeries | src/Indicators/rsi_divergence.py:35-43 | one RSI value per close |
| RsiIndicator.Calculate | src/Indicators/rsi_divergence.py:13-48 | a frame without Close raises ValueError; a period below 1 is refused by `rolling`; otherwise the RSI series, indexed like the input |
| RsiIndicator.RsiOfCases | src/Indicators/rsi_divergence.py:39-40 | with numpy division the RSI is NaN iff both means are 0, 100 iff only the loss is 0, 0 iff only the gain is 0, within [0, 100] when defined, and 100g/(g + l) for a positive loss |
| RsiIndicator.ClosedForm | src/Indicators/rsi_divergence.py:39-40 | for a positive loss, 100 - 100 / (1 + g / l) equals 100g / (g + l) |
| RsiIndicator.TrailingMeanZero | src/Indicators/rsi_divergence.py:35-36 | a trailing mean of gains (or losses) is non-negative, and zero iff every value in the window is |
| RsiIndicator.RsiInRange | src/Indicators/rsi_divergence.py:28-40 | every defined RSI value lies in [0, 100], and the first row is always NaN |
| RsiIndicator.RsiExtremes | src/Indicators/rsi_divergence.py:28-40 | the RSI at row t is NaN iff the price did not move within the window, and 100 iff it moved and never fell |
| RsiIndicator.RsiIsLocal | src/Indicators/rsi_divergence.py:28-40 | the RSI at row t depends only on the closes of rows t - period through t |
| RsiIndicator.MovesAgree | src/Indicators/rsi_divergence.py:28-32 | closes that agree on a stretch of rows give the same gains and losses on it |
| BollingerBands.RollingMean | src/Indicators/backtest_bollinger.py:23 | the rolling mean has one row per close and is defined (not NaN) exactly from the first full window of `period` rows on |
| BollingerBands.SampleVariance | src/Indicators/backtest_bollinger.py:24 | the sample variance of a window of two or more closes is never negative |
| BollingerBands.RollingStd | src/Indicators/backtest_bollinger.py:24 | the rolling sample standard deviation has one row per close and is defined exactly where a full window of at least two rows exists (pandas' n−1 divisor) |
| BollingerBands.Offset | src/Indicators/backtest_bollinger.py:26-27 | the shifted band has one row per moving-average row |
| BollingerBands.CalculateBands | src/Indicators/backtest_bollinger.py:17-35 | a frame without a Close column raises KeyError; otherwise the bands are the rolling mean plus and minus `num_std` rolling standard deviations, and only a negative period is refused |
| BollingerBands.BandsWarmUp | src/Indicators/backtest_bollinger.py:23-27 | both bands are defined at row t exactly when 2 <= period <= t + 1 |
| BollingerBands.BandsBracketAverage | src/Indicators/backtest_bollinger.py:23-27 | with a non-negative multiplier, lower band <= moving average <= upper band, and the two bands are symmetric about the average |
| BollingerBands.AverageWithinWindow | src/Indicators/backtest_bollinger.py:23 | the moving average of a full window lies between the window's lowest and highest close |
| BollingerBands.FlatWindowCollapses | src/Indicators/backtest_bollinger.py:23-27 | over a window of equal closes both bands and the average equal that close |
| BollingerStrategy.BandRule | src/Backtesting/backtest_bollinger.py:55-63 | buy one share iff close < lower band and flat; otherwise sell one iff close > upper band and holding; otherwise no order; a NaN band compares false |
| BollingerStrategy.BollingerNext | src/Backtesting/backtest_bollinger.py:99-114 | every bar compares against the last row of the band series (constant thresholds); an empty series raises IndexError |
| BollingerStrategy.AtMostOneShare | src/Backtesting/backtest_bollinger.py:56-63 | starting flat, the position before every bar is 0 or 1, so it never buys while holding or sells while flat |
| BollingerStrategy.NaNLowerBandNeverTrades | src/Backtesting/backtest_bollinger.py:101-109 | a flat strategy whose last lower band is NaN never places an order on any bar |
| BollingerStrategy.ShortHistoryNeverTrades | src/Backtesting/backtest_bollinger.py:96-109 | a frame shorter than the band period leaves the last row without bands, so a run from flat never trades |
| BollingerStrategy.BollingerStrategy.constructor | src/Backtesting/backtest_bollinger.py:88-97 | the bands are computed once at construction and the strategy starts flat |
| BollingerStrategy.BollingerStrategy.Next | src/Backtesting/backtest_bollinger.py:99-114 | the bar's order is `BollingerNext` of the stored bands and old position, and the new position is the old one after the order fills |
| Fibonacci.SeriesMax | src/Indicators/fibonacci.py:8 | `max()` of a non-empty series is one of its values and no value exceeds it; an empty series gives NaN |
| Fibonacci.SeriesMin | src/Indicators/fibonacci.py:9 | `min()` of a non-empty series is one of its values and no value is below it; an empty series gives NaN |
| Fibonacci.CalculateLevels | src/Indicators/fibonacci.py:7-30 | a missing High or Low column raises KeyError (High first); otherwise level 0% is the highest High and level 100% the lowest Low |
| Fibonacci.ToMap | src/Indicators/fibonacci.py:21-28 | the dictionary has exactly the six level keys, each holding its own computed level |
| Fibonacci.LevelsDescend | src/Indicators/fibonacci.py:8-19 | whenever the highest High is at least the lowest Low, 0% is that High and 100% that Low, the levels are defined and descend from 0% to 100% within that range, and 50% is halfway |
| Fibonacci.RowBoundsGiveRange | src/Indicators/fibonacci.py:8-9 | a non-empty frame whose every High is at least its row's Low has a highest High at least its lowest Low |
| Fibonacci.EmptyFrameHasNoLevels | src/Indicators/fibonacci.py:8-19 | a frame without rows has every level NaN |
| FibonacciStrategy.FibRule | src/Backtesting/backtest_fibonacci.py:92-102 | buy one share iff close <= the 61.8% level and flat; otherwise sell one iff close >= the 38.2% level and holding; NaN levels never trigger |
| FibonacciStrategy.AtMostOneShare | src/Backtesting/backtest_fibonacci.py:49-57 | starting flat, the position before every bar is 0 or 1 |
| FibonacciStrategy.SellsAboveBuys | src/Backtesting/backtest_fibonacci.py:89-102 | with levels computed once from a frame whose highest High is at least its lowest Low, every sale of a run is at a close at least as high as every purchase |
| FibonacciStrategy.CompanyParam | src/Backtesting/backtest_fibonacci.py:139-144 | `company` reaches the strategy exactly when it is given and truthy (not empty) |
| FibonacciStrategy.FibonacciStrategy.constructor | src/Backtesting/backtest_fibonacci.py:81-90 | the levels are computed once at construction and the strategy starts flat |
| FibonacciStrategy.FibonacciStrategy.Next | src/Backtesting/backtest_fibonacci.py:92-102 | the bar's order is `FibRule` of the stored levels at the old position, and the position moves by the filled size |
| DetectDivergence.ScanFindsDivergences | src/Indicators/detect_divergence.py:25-50 | unless it raises, the loop collects exactly the rows i >= 1 where price and indicator move apart, in increasing order; it raises IndexError exactly when a row whose price condition holds lacks an indicator or index entry |
| DetectDivergence.ScanFaults | src/Indicators/detect_divergence.py:30-32 | the loop raises IndexError exactly when some row it reaches reads a missing entry |
| DetectDivergence.ScanFinds | src/Indicators/detect_divergence.py:30-32 | a completed loop holds exactly the divergent rows, increasing, all within the price index |
| DetectDivergence.ScanErrorPersists | src/Indicators/detect_divergence.py:30-32 | once the loop has raised, later rows do not change the outcome |
| DetectDivergence.KindsAreDisjoint | src/Indicators/detect_divergence.py:31-49 | no row is both a bullish and a bearish divergence |
| DetectDivergence.LabelsAt | src/Indicators/detect_divergence.py:32 | the signals are the price index's labels of the found rows, in order |
| DetectDivergence.DivergenceDetector.constructor | src/Indicators/detect_divergence.py:5-16 | the detector stores the price data, the indicator data and the indicator name |
| DetectDivergence.DivergenceDetector.Detect | src/Indicators/detect_divergence.py:18-52 | the loop returns the labels of the divergent rows, KeyError for a missing column, or the IndexError of the scan |
| DetectDivergence.DivergenceDetector.DetectBullishDivergence | src/Indicators/detect_divergence.py:18-34 | bullish signals are the rows where the close falls and the indicator rises |
| DetectDivergence.DivergenceDetector.DetectBearishDivergence | src/Indicators/detect_divergence.py:37-52 | bearish signals are the rows where the close rises and the indicator falls |
| DetectDivergence.ExampleSeries | src/Backtesting/test_divergence_analysis.py:12-18 | on the test series the bullish rows are [5] and the bearish rows [4, 6], so both lists are non-empty |
| DivergenceStrategy.IndicatorFor | src/Backtesting/backtest_divergence.py:44-49 | 'MACD' and 'RSI' select their indicator; any other name raises ValueError |
| DivergenceStrategy.GetList | src/Backtesting/backtest_divergence.py:76-77 | `content.get(key, [])`: the first entry with that key, or [] when there is none |
| DivergenceStrategy.StripAll | src/Backtesting/backtest_divergence.py:76-77 | every date is stripped, and the list keeps its length and order |
| DivergenceStrategy.ParseDivergenceSignals | src/Backtesting/backtest_divergence.py:67-79 | without tasks output or content both lists are empty; otherwise they are the stripped 'Bullish Divergences' and 'Bearish Divergences' lists |
| DivergenceStrategy.PaddedDateListed | src/Backtesting/backtest_divergence.py:76-85 | a bullish date listed with surrounding whitespace still matches `str(date)` of that bar |
| DivergenceStrategy.StripPadded | src/Backtesting/backtest_divergence.py:76 | `strip()` removes whitespace padding around a text that starts and ends with non-space characters |
| DivergenceStrategy.ReversalRule | src/Backtesting/backtest_divergence.py:81-97 | buy `(0.9 * cash) // price` iff the bar's date string is bullish and flat; otherwise sell the whole position iff it is bearish and holding |
| DivergenceStrategy.OrdersFollowDates | src/Backtesting/backtest_divergence.py:85-97 | over a run, every buy is on a bullish date while flat and every sell is of the whole position on a bearish date while holding |
| DivergenceStrategy.ReversalTradingSystem.constructor | src/Backtesting/backtest_divergence.py:53-56 | the strategy stores the parsed signal dates and starts flat |
| DivergenceStrategy.ReversalTradingSystem.Create | src/Backtesting/backtest_divergence.py:43-56 | an unknown indicator name raises ValueError; otherwise the crew output for that indicator is parsed |
| DivergenceStrategy.ReversalTradingSystem.Next | src/Backtesting/backtest_divergence.py:81-97 | the bar's order is `ReversalRule` at the old position, and the position moves by the filled size |
| TrendPrediction.TrendLabel | src/Agents/Analysis/trend_prediction_agent.py:52 | Uptrend exactly when the first forecast price exceeds the last close; Downtrend otherwise, ties included |
| TrendPrediction.Confidence | src/Agents/Analysis/trend_prediction_agent.py:53 | defined whenever the last close is not zero; at a zero close it is NaN exactly when the forecast is zero too |
| TrendPrediction.ConfidenceInUnitInterval | src/Agents/Analysis/trend_prediction_agent.py:53 | for a positive last close the confidence lies in [0, 1]: it is the relative move when that is at most 1, and 1 otherwise |
| TrendPrediction.Outcome | src/Agents/Analysis/trend_prediction_agent.py:44-58 | the answer is Failed exactly when the index is not a non-empty DatetimeIndex, the Close column is missing or empty, or the forecast is missing or not of the requested positive length; otherwise label and confidence compare the first forecast value with the last close |
| TrendPrediction.ArimaForecast | src/Agents/Analysis/trend_prediction_agent.py:45 | without a fitted model there is no forecast |
| TrendPrediction.LabelAgreesWithMove | src/Agents/Analysis/trend_prediction_agent.py:52-53 | for a positive last close an Uptrend has a positive confidence, and a zero confidence is a Downtrend on a forecast equal to the last close |
| TrendPrediction.FitScaler | src/Agents/Analysis/trend_prediction_agent.py:16 | fitting a MinMaxScaler with range (0, 1) records the series minimum and a positive scale |
| TrendPrediction.ScaleRoundTrip | src/Agents/Analysis/trend_prediction_agent.py:65-76 | unscaling undoes scaling, and the other way round |
| TrendPrediction.FittedValuesInUnitInterval | src/Agents/Analysis/trend_prediction_agent.py:99 | every value of the series the scaler was fitted on scales into [0, 1] |
| TrendPrediction.ScaleWithinRange | src/Agents/Analysis/trend_prediction_agent.py:99 | a value between the fitted minimum and maximum scales into [0, 1], also for a flat series |
| TrendPrediction.Transform | src/Agents/Analysis/trend_prediction_agent.py:65 | the transform scales each value, keeping the length |
| TrendPrediction.Untransform | src/Agents/Analysis/trend_prediction_agent.py:76 | the inverse transform unscales each value, keeping the length |
| TrendPrediction.Windows | src/Agents/Analysis/trend_prediction_agent.py:101-104 | training builds max(0, n − 60) input windows |
| TrendPrediction.Targets | src/Agents/Analysis/trend_prediction_agent.py:101-104 | one target per window |
| TrendPrediction.TrainingWindows | src/Agents/Analysis/trend_prediction_agent.py:101-104 | the loop collects exactly the windows and targets |
| TrendPrediction.WindowThenTarget | src/Agents/Analysis/trend_prediction_agent.py:101-104 | each window holds 60 consecutive scaled values and its target is the value right after them |
| TrendPrediction.Roll | src/Agents/Analysis/trend_prediction_agent.py:68-74 | the rolling forecast has one value per step |
| TrendPrediction.RollWindowAt | src/Agents/Analysis/trend_prediction_agent.py:68-74 | step k predicts from the 60 most recent values, earlier predictions included |
| TrendPrediction.RollForecast | src/Agents/Analysis/trend_prediction_agent.py:68-74 | the loop that shifts the batch and appends each prediction yields the rolling forecast |
| TrendPrediction.TrainedScaler | src/Agents/Analysis/trend_prediction_agent.py:99 | training keeps the old scaler when there are no closes (sklearn's reset on an empty fit is not modelled, as nothing can read the scaler before its next refit) and otherwise fits one with a positive scale |
| TrendPrediction.TrainedNet | src/Agents/Analysis/trend_prediction_agent.py:98-116 | a network is stored exactly when there are more than 60 closes |
| TrendPrediction.LstmOutcome | src/Agents/Analysis/trend_prediction_agent.py:60-89 | a successful LSTM prediction needs a trained network, a positive step count and at least 60 closes |
| TrendPrediction.LstmForecastUnscales | src/Agents/Analysis/trend_prediction_agent.py:65-86 | each forecast price is the network's rolling prediction from the last 60 scaled closes, unscaled |
| TrendPrediction.PriceTarget | src/Agents/Analysis/trend_prediction_agent.py:124-135 | the target is 5% above the last price when both models say Uptrend, 5% below when both say Downtrend, and the last price otherwise; the bounds lie 5% either side of the target |
| TrendPrediction.TargetBracketed | src/Agents/Analysis/trend_prediction_agent.py:124-135 | the target lies between its bounds and within 5% of the last price; it rises exactly when both models say Uptrend and falls exactly when both say Downtrend |
| TrendPrediction.PredictPriceTargetAsWritten | src/Agents/Analysis/trend_prediction_agent.py:118-142 | as written, a missing or empty Close column leaves `last_price` unbound; otherwise the target is always the last price |
| TrendPrediction.AsWrittenIgnoresAgreement | src/Agents/Analysis/trend_prediction_agent.py:121-122 | as written, the target differs from the intended one whenever both models agree |
| TrendPrediction.TrendPredictionAgent.constructor | src/Agents/Analysis/trend_prediction_agent.py:14-16 | the agent starts with no ARIMA model, no network, and an unfitted scaler |
| TrendPrediction.TrendPredictionAgent.PredictArima | src/Agents/Analysis/trend_prediction_agent.py:38-58 | a model is fitted only when none is cached; the answer is Outcome of that model's forecast |
| TrendPrediction.TrendPredictionAgent.TrainLstm | src/Agents/Analysis/trend_prediction_agent.py:98-116 | the scaler is refitted on the closes, and a network is stored only when there are samples |
| TrendPrediction.TrendPredictionAgent.PredictLstm | src/Agents/Analysis/trend_prediction_agent.py:60-89 | the network is trained only when none is cached; the answer is the LSTM outcome with the resulting scaler and network |
| TrendPrediction.TrendPredictionAgent.ForecastLstm | src/Agents/Analysis/trend_prediction_agent.py:64-89 | the forecast uses the cached scaler and network and changes nothing |
| TrendPrediction.TrendPredictionAgent.PredictTrend | src/Agents/Analysis/trend_prediction_agent.py:26-36 | 'arima' and 'lstm' dispatch to their predictors; any other model type gives Failed and leaves the agent unchanged |
| TrendPrediction.TrendPredictionAgent.PredictPriceTarget | src/Agents/Analysis/trend_prediction_agent.py:118-142 | with full unpacking: a missing or empty Close column leaves `last_price` unbound; otherwise the target follows the two models' labels |
| TrendDetection.Classify | src/Agents/Analysis/trend_detection_agent.py:63-70 | three votes never classify as Unknown |
| TrendDetection.AnalyzeTrend | src/Agents/Analysis/trend_detection_agent.py:26-73 | the answer is Unknown exactly when the Close column is missing or empty or the indicator library fails; otherwise it is Uptrend exactly when the votes on the last close sum to at least 1, Downtrend exactly when they sum to at most −1, and Sideways exactly when they sum to 0 |
| TrendDetection.Votes | src/Agents/Analysis/trend_detection_agent.py:40-61 | three votes, each −1, 0 or +1 |
| TrendDetection.ClassifyBySum | src/Agents/Analysis/trend_detection_agent.py:63-70 | a mean above 0.3 means a vote sum of at least 1 (Uptrend), below −0.3 at most −1 (Downtrend), and 0 is Sideways |
| TrendDetection.PriceAndMacdOutvoteRsi | src/Agents/Analysis/trend_detection_agent.py:42-70 | a close above both averages with MACD above its signal is an uptrend, whatever the RSI says |
| TrendDetection.TrendStrength | src/Agents/Analysis/trend_detection_agent.py:75-89 | a trend other than up or down has strength 0.5 |
| TrendDetection.StrengthInUnitInterval | src/Agents/Analysis/trend_detection_agent.py:81-84 | for an RSI in [0, 100] the strength lies in [0, 1]; it is NaN exactly when the trend is up or down and the RSI is NaN |
| TrendDetection.TrendDuration | src/Agents/Analysis/trend_detection_agent.py:91-103 | the duration is at most the number of rows, counts exactly the trailing prefixes that share the frame's trend, and is at least 1 on a non-empty aligned frame |
| TrendDetection.TrailingRun | src/Agents/Analysis/trend_detection_agent.py:94-99 | the backward loop with `break` counts the longest trailing run of prefixes that carry the current trend |
| TrendDetection.HeadOfAll | src/Agents/Analysis/trend_detection_agent.py:96 | the prefix of all rows has the trend of the whole frame |
| TrendDetection.VolumeTrend | src/Agents/Analysis/trend_detection_agent.py:105-112 | one value per row; when the Volume column fits the index, row t is +1 exactly when the volume exceeds a defined SMA at t and −1 otherwise, so every row is −1 when pandas_ta yields no SMA at all; a missing Volume column or a misfitting result gives NaN on every row |
| TrendDetection.VolumeTrendValues | src/Agents/Analysis/trend_detection_agent.py:107-112 | every row is +1 or −1 exactly when the volume comparison goes through, and NaN on every row exactly when it fails; without an SMA series every row is −1 |
| TrendAnalysis.SignalText | src/Agents/Analysis/trend_analysis_agent.py:21-22 | the text between the first and second colon, trimmed, exists exactly when the answer contains a colon |
| TrendAnalysis.SignalHasNoColon | src/Agents/Analysis/trend_analysis_agent.py:21-22 | the extracted signal contains no colon and has no surrounding whitespace |
| TrendAnalysis.Combine | src/Agents/Analysis/trend_analysis_agent.py:24-31 | first match: Strong Uptrend on 'Bullish' without 'Overbought', then Strong Downtrend on 'Bearish' without 'Oversold', then Sideways on 'Neutral', else Mixed Signals |
| TrendAnalysis.AnalyzeTrend | src/Agents/Analysis/trend_analysis_agent.py:17-31 | an answer without a colon raises IndexError; otherwise the two signals are combined |
| TrendAnalysis.Respond | src/Agents/Analysis/trend_analysis_agent.py:33-36 | the reply is "Trend Analysis: " followed by the label, and fails exactly when the analysis does |
| TrendAnalysis.RespondLabels | src/Agents/Analysis/trend_analysis_agent.py:24-36 | every reply is the prefix followed by one of the four labels, namely that of the analysis |
| Vwap.Missing | src/Indicators/vwap.py:13-14 | the missing names are exactly the required columns the frame lacks |
| Vwap.TypicalPrice | src/Indicators/vwap.py:30 | row by row (High + Low + Close) / 3 |
| Vwap.Products | src/Indicators/vwap.py:47 | row by row typical price times volume |
| Vwap.VwapColumn | src/Indicators/vwap.py:46-53 | one VWAP per row, the running ratio of that row's date |
| Vwap.DatesOf | src/Indicators/vwap.py:43 | each row's trading date is the calendar date of its timestamp |
| Vwap.Calculate | src/Indicators/vwap.py:4-59 | missing columns raise the ValueError that lists them in required order; a non-DatetimeIndex raises ValueError; a frame without rows raises KeyError for the VWAP column the empty grouped apply never makes; otherwise the frame holds the index, the per-date VWAP and Close |
| Vwap.GroupedVwap | src/Indicators/vwap.py:46-53 | the one-pass accumulation with per-date sums yields the grouped running VWAP |
| Vwap.FirstRowOfDay | src/Indicators/vwap.py:46-50 | the first row of a date with non-zero volume has its typical price as VWAP, so daily data has VWAP = typical price |
| Vwap.OtherDaysIgnored | src/Indicators/vwap.py:53 | rows of other dates add nothing to a date's running sums |
| Vwap.VwapWithinPriceRange | src/Indicators/vwap.py:46-50 | with positive volumes, the VWAP lies between the lowest and highest typical price of that date so far |
| Vwap.WeightedBounds | src/Indicators/vwap.py:47-48 | with positive volumes the running sums keep the weighted bracket |
| SignalGeneration.SignalWords | src/Agents/Analysis/signal_generation_agent.py:114-117 | `"BUY" in signal` holds for STRONG BUY and BUY only, `"SELL" in signal` for STRONG SELL and SELL only |
| SignalGeneration.DetermineSignal | src/Agents/Analysis/signal_generation_agent.py:99-110 | first match wins: STRONG needs agreeing trends, strength > 0.7 and confidence > 0.8; plain BUY/SELL needs agreeing trends and strength > 0.5 without STRONG; everything else is HOLD; NaN compares false |
| SignalGeneration.NoAgreementHolds | src/Agents/Analysis/signal_generation_agent.py:109-110 | sideways, unknown or disagreeing trends always give HOLD |
| SignalGeneration.RiskTiersIncrease | src/Agents/Analysis/signal_generation_agent.py:13-14 | both tables have the tiers low, medium and high, strictly increasing, each take-profit beyond its stop-loss |
| SignalGeneration.StopLoss | src/Agents/Analysis/signal_generation_agent.py:112-119 | the percentage lookup raises KeyError(risk) exactly when the risk tolerance is not a tier of the table |
| SignalGeneration.TakeProfit | src/Agents/Analysis/signal_generation_agent.py:121-128 | the percentage lookup raises KeyError(risk) exactly when the risk tolerance is not a tier of the table |
| SignalGeneration.ProtectiveLevels | src/Agents/Analysis/signal_generation_agent.py:112-128 | for a positive price and percentages, buys have stop < price < take, sells have take < price < stop, HOLD has neither |
| SignalGeneration.Fallback | src/Agents/Analysis/signal_generation_agent.py:78-97 | the exception handler's record: HOLD, no stop-loss or take-profit, both trends and the volume trend Unknown, and the current price as target |
| SignalGeneration.Preconditions | src/Agents/Analysis/signal_generation_agent.py:28-35 | errors outside the `try`: a missing Close column raises the ValueError of line 32, an empty column or index fails at `iloc[-1]`; otherwise the result is the last close and the last index label |
| SignalGeneration.SignalAsWritten | src/Agents/Analysis/signal_generation_agent.py:27-97 | as written, past the column checks the answer is always the HOLD fallback record |
| SignalGeneration.AsWrittenAlwaysHolds | src/Agents/Analysis/signal_generation_agent.py:44 | as written, no frame ever yields a trade signal or a stop-loss |
| SignalGeneration.StrongAgreementBuys | src/Agents/Analysis/signal_generation_agent.py:101-102 | agreeing uptrends with strength 0.9 and confidence 0.9 give STRONG BUY |
| SignalGeneration.SignalGenerationAgent.constructor | src/Agents/Analysis/signal_generation_agent.py:10-14 | the agent starts with risk tolerance 'medium' by default, the two default tables and an untrained prediction agent |
| SignalGeneration.SignalGenerationAgent.GenerateSignalAsWritten | src/Agents/Analysis/signal_generation_agent.py:27-97 | the ARIMA model is fitted and cached by the call at line 44 if none was, the LSTM is untouched, and the result is exactly what SignalAsWritten gives |
| SignalGeneration.SignalGenerationAgent.GenerateSignal | src/Agents/Analysis/signal_generation_agent.py:27-97 | with a three-way unpacking: the column errors escape, an unknown risk tolerance gives the fallback, and otherwise the record holds the decision-table signal of the detected and ARIMA-predicted trends, the stop-loss and take-profit levels, strength, the trend duration that `get_trend_duration` counts (at least 1 on an aligned frame), confidence, the last volume label, and the price target of the corrected `predict_price_target` (trend_prediction_agent.py:121-122 with a step count and three-value unpacking), which follows the ARIMA and LSTM trends; the models are fitted only when missing |
| SignalGeneration.SignalGenerationAgent.Assemble | src/Agents/Analysis/signal_generation_agent.py:54-77 | the LSTM is trained on first use only, the ARIMA model is kept, and the record holds the last volume label and the price target from the two forecasts' trends |
| Sentiment.ParseSentiment | src/Backtesting/backtest_sentiment_analysis.py:55-87 | a missing or empty task list holds; otherwise buying words win, then selling words, then a score above 0.3 buys and one below −0.3 sells; always one of buy, sell, hold |
| Sentiment.ThresholdsHold | src/Backtesting/backtest_sentiment_analysis.py:75-81 | without keywords, a score between −0.3 and 0.3 inclusive holds |
| Sentiment.SentimentRule | src/Backtesting/backtest_sentiment_analysis.py:89-99 | an all-in purchase on 'buy' when flat, a sale of the whole position on 'sell' when holding, nothing otherwise |
| Sentiment.SellFlattens | src/Backtesting/backtest_sentiment_analysis.py:97-98 | a sale always leaves the strategy flat |
| Sentiment.OnlySellSells | src/Backtesting/backtest_sentiment_analysis.py:89-99 | a strategy whose decision is not 'sell' never sells over a whole run |
| Sentiment.SentimentBasedStrategy.constructor | src/Backtesting/backtest_sentiment_analysis.py:41-50 | the decision is the parsed crew output and the strategy starts flat |
| Sentiment.SentimentBasedStrategy.Next | src/Backtesting/backtest_sentiment_analysis.py:89-99 | the order is the rule's for the stored decision and the position moves by it |
| SmaStrategy.SmaRule | src/Backtesting/backtest_sma.py:24-42 | flat: `(cash·allocation) // price` shares on an upward cross; holding: the whole position on a downward cross, because the `elif` belongs to the position test |
| SmaStrategy.OrdersFollowCrossover | src/Backtesting/backtest_sma.py:28-42 | over a run, every buy happens on an upward cross while flat and every sale is of the whole position on a downward cross while holding |
| SmaStrategy.NoCrossNoTrade | src/Backtesting/backtest_sma.py:28-42 | bars without a cross never trade |
| SmaStrategy.SmaCross.constructor | src/Backtesting/backtest_sma.py:13-17 | the parameters default to periods 50 and 200 and allocation 1.0; the strategy starts flat |
| SmaStrategy.SmaCross.Next | src/Backtesting/backtest_sma.py:24-42 | the order is the rule's and the position moves by it |
| ScenarioInput.PercentAt | src/Agents/Scenario_Agents/scenario_input_agent.py:10-13 | `(\d+\.?\d*)%` at a position starts with a digit, runs over digits and at most one point, and ends on the '%' |
| ScenarioInput.AlternativeAt | src/Agents/Scenario_Agents/scenario_input_agent.py:10-13 | an alternative matches only where the literal subject, the verb and " by " occur, and it reports that verb as the action |
| ScenarioInput.MatchAt | src/Agents/Scenario_Agents/scenario_input_agent.py:10-13 | an anchored match's action is one of the pattern's two verbs |
| ScenarioInput.SearchFrom | src/Agents/Scenario_Agents/scenario_input_agent.py:32 | `pattern.search` finds a match iff some position has one, and returns the match at the leftmost such position |
| ScenarioInput.InterpretInput | src/Agents/Scenario_Agents/scenario_input_agent.py:24-38 | the loop over the patterns builds the dictionary of first matches, in pattern order |
| ScenarioInput.InterpretKeysOrdered | src/Agents/Scenario_Agents/scenario_input_agent.py:31-37 | every key of the result is a pattern key, and with distinct pattern keys no key occurs twice |
| ScenarioInput.LookupLast | src/Agents/Scenario_Agents/scenario_input_agent.py:33-37 | the last pattern's match, if any, is stored under its key, and every other key reads as before |
| ScenarioInput.InterpretFindsFirstMatches | src/Agents/Scenario_Agents/scenario_input_agent.py:31-37 | under each pattern's key the result holds exactly that pattern's first match, and nothing where it has none |
| ScenarioInput.InterpretByKey | src/Agents/Scenario_Agents/scenario_input_agent.py:9-14 | for the four built-in patterns, each scenario key maps to its pattern's first match and no key repeats |
| ScenarioInput.ValidateInput | src/Agents/Scenario_Agents/scenario_input_agent.py:55-66 | True with "Valid scenario input." iff every key is a known scenario (so also for no keys); otherwise False, naming the first unknown key |
| ScenarioInput.PatternKeysValid | src/Agents/Scenario_Agents/scenario_input_agent.py:9-14 | whatever the patterns find, the keys pass validation, because the pattern keys are the valid scenarios |
| ScenarioInput.PatternKeyValid | src/Agents/Scenario_Agents/scenario_input_agent.py:9-14 | each pattern key is one of the valid scenarios listed at line 59 |
| ScenarioInput.InterpretValidates | src/Agents/Scenario_Agents/scenario_input_agent.py:24-66 | every `interpret_input` result passes `validate_input` with "Valid scenario input." |
| ScenarioInput.HandleFlexibleScenarios | src/Agents/Scenario_Agents/scenario_input_agent.py:41-52 | the fixed message iff nothing is recognised, otherwise the dictionary unchanged |
| ScenarioInput.InterestRateExample | src/Agents/Scenario_Agents/scenario_input_agent.py:10 | "interest rates rise by 2.5%" reads as action "rise" with value 2.5 |
| PortfolioData.Increment | src/Agents/Scenario_Agents/portfolio_data_agent.py:60-61 | incrementing an entry keeps the dictionary's keys and their order |
| PortfolioData.GetIncrement | src/Agents/Scenario_Agents/portfolio_data_agent.py:60-61 | `+=` on the entry under a class changes that entry by the amounts and no other entry |
| PortfolioData.GetAdd | src/Agents/Scenario_Agents/portfolio_data_agent.py:57-61 | after one asset its class holds the previous totals (zero for a new class) plus the asset's position and weight; other classes are unchanged |
| PortfolioData.AddKeys | src/Agents/Scenario_Agents/portfolio_data_agent.py:58-59 | one asset adds its class as a key exactly when the class is new, and keys stay distinct |
| PortfolioData.MapAssetsByClass | src/Agents/Scenario_Agents/portfolio_data_agent.py:55-61 | the entry under each class is the sum of that class's positions and weights; a name with no asset has no entry |
| PortfolioData.MapAssetsKeys | src/Agents/Scenario_Agents/portfolio_data_agent.py:56-59 | the keys are exactly the distinct asset classes of the input, and the result is empty iff there are no assets |
| PortfolioData.AddTotals | src/Agents/Scenario_Agents/portfolio_data_agent.py:58-61 | one asset adds its position and weight to the dictionary's grand totals |
| PortfolioData.MapAssetsConserves | src/Agents/Scenario_Agents/portfolio_data_agent.py:55-61 | the sum of total_position equals the sum of the positions, and the sum of total_weight the sum of the weights |
| PortfolioData.MappedValidates | src/Agents/Scenario_Agents/portfolio_data_agent.py:55-75 | the mapped data validates iff there were assets and their weights add up to 1 within 0.01 |
| PortfolioData.MapAssetsWeightClose | src/Agents/Scenario_Agents/portfolio_data_agent.py:70-71 | the grouped weights are within 0.01 of 1 iff the assets' weights are |
| PortfolioData.MapAssetsEmpty | src/Agents/Scenario_Agents/portfolio_data_agent.py:55-61 | the grouping is empty iff there are no assets |
| PortfolioData.SampleGroups | src/Agents/Scenario_Agents/portfolio_data_agent.py:31-37 | the built-in sample groups into Equity, Fixed Income and Commodities, in that order, each with its one asset |
| PortfolioData.SampleWeight | src/Agents/Scenario_Agents/portfolio_data_agent.py:33-35 | the sample's weights 0.5, 0.25 and 0.25 add up to exactly 1 |
| PortfolioData.SampleValidates | src/Agents/Scenario_Agents/portfolio_data_agent.py:31-37 | the mapped sample validates |
| PortfolioData.PortfolioDataAgent.constructor | src/Agents/Scenario_Agents/portfolio_data_agent.py:7-9 | the encrypted, decrypted and mapped data all start as None |
| PortfolioData.PortfolioDataAgent.RetrievePortfolioData | src/Agents/Scenario_Agents/portfolio_data_agent.py:30-40 | the sample portfolio is stored (encryption abstracted) and nothing else changes |
| PortfolioData.PortfolioDataAgent.DecryptPortfolioData | src/Agents/Scenario_Agents/portfolio_data_agent.py:42-49 | without encrypted data nothing changes; otherwise the decrypted portfolio is the stored one |
| PortfolioData.PortfolioDataAgent.MapPortfolioData | src/Agents/Scenario_Agents/portfolio_data_agent.py:51-64 | without decrypted data it returns None and leaves the mapping unchanged; otherwise it returns and stores the grouping by asset class |
| PortfolioData.PortfolioDataAgent.ValidateMappedData | src/Agents/Scenario_Agents/portfolio_data_agent.py:66-75 | False for None or an empty mapping; otherwise True iff the summed total weights are within 0.01 of 1 |
| PortfolioData.PortfolioDataAgent.Setup | src/Agents/Scenario_Agents/portfolio_data_agent.py:21-26 | the setup chain stores the grouped sample, and it validates |
| DividendForecast.RateAt | src/Backtesting/backtest_dividend_forecast_updated.py:96 | `(\d+(\.\d+)?)%` at a position captures a non-negative decimal and ends on the '%' |
| DividendForecast.GrowthAt | src/Backtesting/backtest_dividend_forecast_updated.py:96 | a case-insensitive "Year N: X% increase" match at a position captures a non-negative X and ends after it |
| DividendForecast.FindAll | src/Backtesting/backtest_dividend_forecast_updated.py:96-99 | `re.findall` takes non-overlapping matches left to right, and every captured rate is non-negative |
| DividendForecast.MeanRate | src/Backtesting/backtest_dividend_forecast_updated.py:97-105 | no match gives 0.0; otherwise the result times 100 is the mean of the matched percentages; it is never negative |
| DividendForecast.ParseDividendGrowth | src/Backtesting/backtest_dividend_forecast_updated.py:91-105 | `parse_dividend_growth` is >= 0, is 0.0 without a match, and is the mean of the matched X over 100 otherwise |
| DividendForecast.RemoveCharsIdempotent | src/Backtesting/backtest_dividend_forecast_updated.py:93 | removing the markdown characters twice is removing them once |
| DividendForecast.MarkdownIgnored | src/Backtesting/backtest_dividend_forecast_updated.py:93 | removing '*' and '_' from the forecast beforehand never changes the parsed rate |
| DividendForecast.CrewRule | src/Backtesting/backtest_dividend_forecast_updated.py:107-113 | an order is placed iff the rate exceeds 0.05 while flat, and it buys `cash // price`; a zero price raises ZeroDivisionError |
| DividendForecast.CrewNeverSells | src/Backtesting/backtest_dividend_forecast_updated.py:107-113 | the CrewAI strategy never sells, and with a rate <= 0.05 it never trades |
| DividendForecast.CrewAIStrategy.constructor | src/Backtesting/backtest_dividend_forecast_updated.py:89 | the forecast is parsed once at construction and the strategy starts flat |
| DividendForecast.CrewAIStrategy.Next | src/Backtesting/backtest_dividend_forecast_updated.py:107-113 | the bar's order is `CrewRule` at the old position, and the position moves by the filled size |
| EarningCalls.Recommendation | src/Backtesting/backtesting_earning_calls.py:88-101 | 'buy' iff the lower-cased concatenation contains "buy", "strong growth" or "positive outlook"; else 'sell' iff it contains "sell", "decline" or "negative outlook"; else 'hold' |
| EarningCalls.InitialHold | src/Backtesting/backtesting_earning_calls.py:34 | the initial empty crew output recommends 'hold' |
| EarningCalls.ValueOffset | src/Backtesting/backtesting_earning_calls.py:90-92 | every value appears, in order, inside the concatenated analysis text |
| EarningCalls.KeywordInValue | src/Backtesting/backtesting_earning_calls.py:90-94 | a keyword in any single value is a keyword of the whole analysis text |
| EarningCalls.BuyInAnyValue | src/Backtesting/backtesting_earning_calls.py:96-97 | any value mentioning "buy" makes the recommendation 'buy', whatever the other values say |
| EarningCalls.EarningsRule | src/Backtesting/backtesting_earning_calls.py:114-121 | buy one share iff 'buy' and flat; sell one iff 'sell' and holding; otherwise no order |
| EarningCalls.AtMostOneShare | src/Backtesting/backtesting_earning_calls.py:114-121 | starting flat, the position before every bar is 0 or 1 |
| EarningCalls.CrewAIEarningsCallsStrategy.constructor | src/Backtesting/backtesting_earning_calls.py:31-34 | the strategy stores the earnings-call dates, an empty crew output, and starts flat |
| EarningCalls.CrewAIEarningsCallsStrategy.GetRecommendation | src/Backtesting/backtesting_earning_calls.py:88-101 | the accumulating loop returns `Recommendation` of the stored output |
| EarningCalls.CrewAIEarningsCallsStrategy.Next | src/Backtesting/backtesting_earning_calls.py:103-121 | the output is replaced only on an earnings-call date with data to analyse; the order is `EarningsRule` of its recommendation, and the position moves by one share |
| Broker.SizeFor | src/Backtesting/backtest_correlated_stocks.py:63 | `(cash * allocation) // price` raises ZeroDivisionError exactly when the price is zero |
| Broker.SizeAffordable | src/Backtesting/backtest_correlated_stocks.py:63 | at a positive price the size is the largest whole number of shares the allotted cash pays for, and it is non-negative when the cash is |
| Broker.BuyFor | src/Backtesting/backtest_correlated_stocks.py:61-64 | a buy of `(cash * allocation) // price` shares, or the ZeroDivisionError at a zero price |
| Broker.HoldRule | src/Backtesting/backtest_correlated_stocks.py:90-96 | the buy-and-hold baseline buys `(cash * allocation) // price` whenever flat and does nothing when holding |
| Broker.HoldNeverSells | src/Backtesting/backtest_correlated_stocks.py:90-97 | over any run the buy-and-hold baseline never issues a sell |
| Broker.HoldingStaysPut | src/Backtesting/backtest_correlated_stocks.py:92 | once holding, the baseline places no order on any later bar |
| Broker.BuyAndHold.constructor | src/Backtesting/backtest_correlated_stocks.py:83-88 | the baseline starts flat with the given allocation (default 1.0) |
| Broker.BuyAndHold.Next | src/Backtesting/backtest_correlated_stocks.py:90-97 | the bar's order is `HoldRule` at the old position, and the position moves by the filled size |
| CorrelatedStocks.CorrelationAt | src/Backtesting/backtest_correlated_stocks.py:39 | a match anchored at i starts with "correlation between " and captures a non-empty run of digits and points |
| CorrelatedStocks.Search | src/Backtesting/backtest_correlated_stocks.py:39 | `re.search` returns the leftmost match's group, a non-empty `[\d.]+` run; no match means no start position matches |
| CorrelatedStocks.CheckInitialCorrelation | src/Backtesting/backtest_correlated_stocks.py:29-46 | no match gives False; a match gives True iff the stripped value parses and is >= the threshold; an unparseable group raises ValueError |
| CorrelatedStocks.StripNumeral | src/Backtesting/backtest_correlated_stocks.py:41 | `strip()` leaves a run of digits and points unchanged |
| CorrelatedStocks.CorrelationNonNegative | src/Backtesting/backtest_correlated_stocks.py:39-41 | a captured value that converts is never negative, so a reported negative correlation can never meet the threshold |
| CorrelatedStocks.ThresholdMonotone | src/Backtesting/backtest_correlated_stocks.py:43 | a text that meets a threshold meets every lower threshold |
| CorrelatedStocks.CorrelatedRule | src/Backtesting/backtest_correlated_stocks.py:48-78 | flat: buy `(cash * allocation) // price` iff the correlation was met and the decision contains "buy" case-insensitively; holding: sell the whole position iff it contains "sell" |
| CorrelatedStocks.UncorrelatedNeverTrades | src/Backtesting/backtest_correlated_stocks.py:51-53 | without the correlation, a run from flat places no order on any bar |
| CorrelatedStocks.CorrelatedStocksStrategy.constructor | src/Backtesting/backtest_correlated_stocks.py:16-27 | the strategy stores threshold, allocation and the correlation flag and starts flat |
| CorrelatedStocks.CorrelatedStocksStrategy.Create | src/Backtesting/backtest_correlated_stocks.py:16-27 | construction fails exactly when the correlation check raises, and otherwise stores its result |
| CorrelatedStocks.CorrelatedStocksStrategy.Next | src/Backtesting/backtest_correlated_stocks.py:48-78 | the bar's order is `CorrelatedRule` at the old position, and the position moves by the filled size |
| Dates.MomentDaysBetween | src/Backtesting/backtest_timing_trading_system.py:34 | `(b - a).days` is the whole number of days in the time between, rounded toward minus infinity |
| Dates.OrdinalMonotone | src/Backtesting/backtesting_timing_trading_system.py:19 | later calendar dates have larger ordinals, so date differences follow calendar order |
| Dates.YearLength | src/Backtesting/backtesting_timing_trading_system.py:19 | every valid date lies among its own year's ordinals |
| Dates.IsoFormat | src/Backtesting/backtest_divergence.py:85 | `str(date)` is ten characters with '-' at positions 4 and 7 |
| Dates.ParseYmd | src/Backtesting/backtesting_timing_trading_system.py:14 | `strptime(s, '%Y-%m-%d')` yields only valid calendar dates, and fails (ValueError) otherwise |
| Dates.ParseIsoFormat | src/Backtesting/backtesting_timing_trading_system.py:14 | parsing a formatted date gives the same date back |
| Dates.ParseExampleShortMonth | src/Backtesting/backtesting_timing_trading_system.py:14 | `%m` accepts the unpadded month of "2024-2-29" |
| Dates.ParseExampleNotADate | src/Backtesting/backtesting_timing_trading_system.py:14 | "2023-02-29" is refused because 2023 is not a leap year |
| Dates.ParseExampleTrailing | src/Backtesting/backtesting_timing_trading_system.py:14 | "2024-10-311" is refused: text is left over |
| TimingWindow.EarningsMoment | src/Backtesting/backtesting_timing_trading_system.py:14 | a string earnings date is parsed as `%Y-%m-%d` at midnight, a failed parse is ValueError, and any other value is used as given |
| TimingWindow.ParsedEarningsDate | src/Backtesting/backtesting_timing_trading_system.py:14 | a date written in ISO form is read back as that day's midnight |
| TimingWindow.TimingRule | src/Backtesting/backtesting_timing_trading_system.py:19-31 | buy `(cash * allocation) // price` iff in the window and flat; sell the whole position iff out of the window and holding; otherwise no order |
| TimingWindow.WindowStaysOpen | src/Backtesting/backtesting_timing_trading_system.py:19 | `(earnings - date).days <= 5` also holds for every later date, including dates after earnings |
| TimingWindow.NeverSells | src/Backtesting/backtesting_timing_trading_system.py:19-31 | on bars in calendar order, starting flat (or inside the window), the strategy never sells |
| TimingWindow.TimingTradingStrategy.constructor | src/Backtesting/backtesting_timing_trading_system.py:12-15 | the strategy stores the earnings datetime, starts outside the window and flat |
| TimingWindow.TimingTradingStrategy.Create | src/Backtesting/backtesting_timing_trading_system.py:10-15 | construction fails exactly when a string earnings date does not parse |
| TimingWindow.TimingTradingStrategy.Next | src/Backtesting/backtesting_timing_trading_system.py:17-31 | the window flag is recomputed from the bar's date, the order is `TimingRule`, and the position moves by the filled size |
| TimingSystem.FetchEarningsDate | src/Backtesting/backtest_timing_trading_system.py:28-30 | the earnings date is always 2024-10-31 at midnight |
| TimingSystem.AnalyzeSentiment | src/Backtesting/backtest_timing_trading_system.py:32-37 | "buy" iff a date is given and `(date - now).days <= 5`, else "sell" |
| TimingSystem.BuysWithinSixDays | src/Backtesting/backtest_timing_trading_system.py:34 | the answer is "buy" iff the earnings time is less than six whole days after now |
| TimingSystem.TimingSystemRule | src/Backtesting/backtest_timing_trading_system.py:39-55 | holding never trades; flat buys `cash // close` on "buy" and otherwise does nothing, because the sell branch needs a position inside the flat branch |
| TimingSystem.NeverSells | src/Backtesting/backtest_timing_trading_system.py:41-55 | the strategy never sells, from any position |
| TimingSystem.TimingTradingSystemStrategy.constructor | src/Backtesting/backtest_timing_trading_system.py:22-26 | the strategy starts flat with no decision |
| TimingSystem.TimingTradingSystemStrategy.Next | src/Backtesting/backtest_timing_trading_system.py:39-55 | the decision is recomputed only on flat bars; the order is `TimingSystemRule` and the position moves by the filled size |
| PredictSectors.ParseSectors | src/Backtesting/backtest_predict_sectors.py:54-56 | whatever the crew says, the prediction is ["Technology", "Healthcare"] |
| PredictSectors.SectorRule | src/Backtesting/backtest_predict_sectors.py:58-64 | buy `(0.5 * cash) // price` iff the predicted sector set differs from the configured set and flat; otherwise no order |
| PredictSectors.DefaultBuysWhenFlat | src/Backtesting/backtest_predict_sectors.py:36-64 | with the default three sectors the sets differ, so the first flat bar buys |
| PredictSectors.NeverSells | src/Backtesting/backtest_predict_sectors.py:58-66 | the strategy never sells |
| PredictSectors.SameSectorsNeverTrade | src/Backtesting/backtest_predict_sectors.py:59 | configured sectors equal to the predicted set, in any order or with repeats, never trade |
| PredictSectors.CrewAISectorRotationStrategy.constructor | src/Backtesting/backtest_predict_sectors.py:40-52 | the prediction is parsed once at construction, the sectors default to three, and the strategy starts flat |
| PredictSectors.CrewAISectorRotationStrategy.Next | src/Backtesting/backtest_predict_sectors.py:58-66 | the bar's order is `SectorRule` at the old position, and the position moves by the filled size |

## Left out

- `src/Indicators/bollinger.py`, which the Bollinger backtest imports, is not part of this model. The strategy is modelled on the band values of the last row, as its `next` reads them; the band computation modelled is the one in `src/Indicators/backtest_bollinger.py`.
- Python's floating point is exact rational arithmetic here. Rounding errors, infinities from non-zero divisions and overflow are not modelled; NaN is.
- Python's 2-decimal `round` in `calculate_stop_loss` and `calculate_take_profit` is not modelled.
- SignalGeneration.StopLoss: the level is the unrounded price·(1 ∓ s). Rounding to cents can move it; the orderings of ProtectiveLevels are stated before rounding.
- SignalGeneration.TakeProfit: the level is the unrounded price·(1 ± t), for the same reason.
- The square root of the Bollinger deviation is a parameter; the lemmas about the bands need only that it is a square root.
- The pandas_ta indicators (SMA, EMA, MACD and RSI in the trend detection agent, and the 20-row volume SMA) are parameters, because their smoothing lives in the library.
- The SMA crossover of `SmaCross` is an input of each bar (`bt.indicators.CrossOver`), for the same reason.
- ARIMA fitting and forecasting and LSTM training and prediction are parameters (foreign numerical libraries). The MinMaxScaler, the training windows, the rolling forecast loop and the model caching are modelled.
- The ARIMA training's daily resampling (`resample('D').last().ffill()`) happens inside the fitting parameter.
- The answers of the crewAI crews and language models are parameters: the sentiment, correlation, decision, earnings, sector and dividend crews, the indicator agents of the trend analysis agent, and the analysis crews whose answers the CrewAI Bollinger, MACD and Fibonacci strategies never read.
- How the dividend strategy picks its text (a task's `content`, or `str()` of the task or of the whole output, `backtest_dividend_forecast_updated.py:74-85`) is left to that parameter, because `str()` of a crew object is library-defined.
- The text scanners work on ASCII. Python's `\d`, `\s`, `\w`, `lower()` and `re.IGNORECASE` also accept other Unicode characters, which the model does not.
- `float()` is modelled on optionally signed decimal numerals with surrounding whitespace, such as `12`, `-0.5`, `.5` and `3.`. Exponents, `inf`, `nan` and underscores, which Python also accepts, are not.
- Printing and logging are left out; they do not affect any result.
- Fernet encryption and the `eval` that reads the decrypted portfolio back (`portfolio_data_agent.py:30-49`) are left out, as foreign cryptography and dynamic evaluation. The ciphertext is represented by the assets it decrypts to.
- The backtrader broker is reduced to immediate fills, with no commission, cash bookkeeping or partial fills.
- `self.order` and `notify_order` have no effect under immediate fills and are left out.
- Analyzers, metrics and plots of the `run_*` functions are left out, as library code over floats.
- Order sizes from `(cash * allocation) // price` are Python floats; they are modelled as the integers they always equal.
- The current time of the timing system (`datetime.now()`) is a parameter of each bar.
- `BaseAgent` construction is left out: it accepts only `model`, so the agent classes cannot be built as written. Their methods are modelled on plain classes and functions.
- `isinstance(data, pd.DataFrame)` checks are left out: every input is a frame by its type.
- The VWAP indicator's removal of duplicate columns and its numeric coercion of Volume and Typical Price (`vwap.py:21-36`) are left out, because a frame's columns are a map of real columns here.
- TrendPrediction.Outcome: the forecast is read by position, its first value standing for the day after the data's last row. Line 47 re-indexes the ARIMA forecast by date label, so a model cached from an earlier frame, or stamps not at midnight, would give a later step's value or NaN at `iloc[0]`; that label offset is not modelled.
- Vwap.Calculate keeps the rows in their input order, each with its own VWAP. pandas' grouped apply (`vwap.py:53`) does the same when no timestamp repeats. When it does repeat after another date's rows, pandas puts each later occurrence of the timestamp next to its first occurrence. For example, stamps [d1 10:00, d2 09:00, d1 10:00] come back as rows [0, 2, 1]. That reordering is not modelled; the per-row values are the same either way.
- The agents' `respond` and `construct_message` prompt builders are left out, as prompt text for a language model. This covers the signal, trend prediction and trend detection agents. The trend analysis agent's `respond` is modelled.
- The scenario agent's collaboration with the simulation agent is left out, as a call to another language-model agent.
- The order of a crew output's entries in the earnings-call strategy is taken as given, as a list of (key, text) pairs.
- The earnings-call backtest's `requests.get` fetch of the earnings API (`backtesting_earning_calls.py:45-64`) is left out as network I/O. Its dates are the constructor's `earningsCallDates`. The `earnings_data` it also keeps feeds only the crew (lines 66-78), whose answer is the `analysis` parameter of `Next`.
- The same backtest's yahooquery fetch of SEC filings (`backtesting_earning_calls.py:36-43`) is left out as network I/O. It feeds only the crew, whose answer is the `analysis` parameter of `Next`.
- Concurrency: there is none in the core.

## Findings

| source | as written | input that shows it | evidently intended | confidence | as-written member | corrected member |
|---|---|---|---|---|---|---|
| src/Agents/Analysis/signal_generation_agent.py:44 | `predict_trend` returns three values, which are unpacked into two names; the ValueError this raises is caught, so `generate_signal` always answers the HOLD fallback record | any frame with a non-empty Close column, e.g. rising closes with agreeing uptrends | unpack all three values and build the signal from the decision table | not executed | SignalGeneration.AsWrittenAlwaysHolds | SignalGeneration.SignalGenerationAgent.GenerateSignal |
| src/Agents/Analysis/trend_prediction_agent.py:121-122 | `_predict_arima(data)` and `_predict_lstm(data)` omit the required `forecast_steps`; the TypeError this raises is caught, so the target is always the last price | any frame with a non-empty, positive Close column on which both models forecast an uptrend | call with a step count, unpack three values, and move the target 5% when both models agree | not executed | TrendPrediction.AsWrittenIgnoresAgreement | TrendPrediction.TrendPredictionAgent.PredictPriceTarget |
