# crypto-trader indicator and signal layer, in Dafny

This project models the indicator and signal layer of the crypto-trader bot.

Each technical indicator turns aligned price or volume series into a few numbers: RSI, MACD, Bollinger Bands, the stochastic oscillator, On-Balance Volume, VWAP, Fibonacci retracements, double top/bottom, Elliott waves, head and shoulders, the Ichimoku cloud, the triangle pattern, ADX, order-book analysis, and Google Trends sentiment. A decider then maps the latest values to a signal. The signal is `buy`, `sell` or `hold`; head and shoulders can also answer UNKNOWN (module `Signals`).

Three pieces of glue are modelled as well:

- the name-to-strategy factory;
- the application's enabled-indicator loop and its `process_indicators` loop, which catches what an indicator's calculation or decision raises but not a failing lookup of its `name` attribute;
- the strftime format builder behind `get_timestamp`.

Prices are `real`, so floating-point rounding drops out. Every exception the Python code can raise on a path the model covers becomes a `Fail(...)` value of `Results.Result`:

- an index `[-1]` on an empty sequence;
- `max`/`argmax` of an empty slice;
- a missing dictionary key;
- an unknown strategy name or precision;
- a keyword argument a constructor does not take, a required one left out, or a `name` keyword clashing with the factory's own parameter;
- a missing `name` attribute;
- an unbound local variable;
- element-wise arithmetic on series of different lengths that numpy cannot broadcast.

The keyword arguments each class accepts (`StrategyFactory.Keywords`) are read off the constructors: adx.py line 13, boll_bands.py line 13, head_n_shoulders.py lines 14-16, ichimoku.py lines 13-14, macd.py line 16, stoc_osc.py line 13, supertrend.py line 13, reddit.py line 14 and twitter.py line 14. The others (dtb.py, ewt.py, fib_ret.py, oba.py, obv.py, rsi.py, triangle.py, vwap.py, google_trends.py) take only `is_test` and `timestamp`.

numpy's silent division by zero is handled in two ways:

- RSI keeps numpy's outcome explicitly: inf gives an RSI of 100, and 0/0 gives `NaN`, which compares false.
- Stochastic and VWAP report `Fail(DegenerateDivision)`, and so does Bollinger on an empty window.

The form follows the source:

- The code that changes things step by step is imperative Dafny, each method proved against a specification function:
  - RSI's array fill and Wilder loop;
  - the RSI decider's append loop;
  - OBV's in-place column updates on a `Frame` class;
  - the Elliott-wave append loop;
  - the head-and-shoulders scan;
  - the timestamp loop;
  - the `Trader` class's indicator list and results loop.
- The rest is functions and lemmas.

## Model

| member | source | states |
|---|---|---|
| Signals.Text | utils/contants.py:7-9 | buy, sell and hold are stored as the strings "buy", "sell" and "hold" |
| Signals.TextInjective | utils/contants.py:7-9 | distinct signals have distinct texts |
| Signals.Mirror | utils/contants.py:7-9 | buy and sell trade places; hold stays hold |
| Series.Trailing | indicators/bollinger_bands/boll_bands.py:33 | Python's `s[-k:]`: always a suffix; for k > 0 the last k elements, or all of them when k is larger than the series; all of them for k = 0; for k < 0 the series without its first \|k\| elements, or nothing when \|k\| exceeds its length |
| Series.TrailingIgnoresPrefix | indicators/bollinger_bands/boll_bands.py:33 | for 1 ≤ k ≤ the length, elements before the window do not change it |
| Series.SumPermutation | indicators/order_book_analysis/oba.py:28-30 | reordering the terms leaves a sum unchanged |
| Series.MeanBetween | indicators/stochastic_oscillator/stoc_osc.py:38 | the mean of a non-empty series lies between its minimum and maximum |
| Series.MeanWithin | sentiment_analysis/google_trends/google_trends.py:42 | the mean lies within any bounds of all the elements |
| Series.MeanOfConstant | sentiment_analysis/google_trends/google_trends.py:42 | a constant series has that constant as its mean |
| Series.Max | indicators/fibonacci_retracements/fib_ret.py:41 | `max` of a non-empty series: an element that is at least every element |
| Series.Min | indicators/fibonacci_retracements/fib_ret.py:43 | `min` of a non-empty series: an element that is at most every element |
| Series.VarianceNonNegative | indicators/bollinger_bands/boll_bands.py:35 | the population variance that `np.std` squares is never negative |
| Series.VarianceOfConstant | indicators/bollinger_bands/boll_bands.py:35 | a constant series has mean c and variance zero |
| Rsi.Classify | indicators/relative_strength_index/rsi.py:66-74 | buy iff the value is below 30, sell iff above 70, hold otherwise or for NaN (thresholds from utils/contants.py:39-40) |
| Rsi.DecideSignals | indicators/relative_strength_index/rsi.py:61-78 | an empty input fails at `signals[-1]`; otherwise one signal per RSI value, in order, each the classification of its value |
| Rsi.Deltas | indicators/relative_strength_index/rsi.py:32 | `np.diff`: one change fewer than prices, each the next price minus the current one |
| Rsi.Seed | indicators/relative_strength_index/rsi.py:33 | `deltas[:period+1]`: a prefix of the changes, of length period+1 or all of them |
| Rsi.SeedAverages | indicators/relative_strength_index/rsi.py:33-35 | the seed's summed gains and losses divided by the period are both non-negative |
| Rsi.UpMove | indicators/relative_strength_index/rsi.py:42-47 | upval is non-negative and positive exactly for a rise |
| Rsi.DownMove | indicators/relative_strength_index/rsi.py:42-47 | downval is non-negative, positive exactly for a fall, and upval − downval is the change |
| Rsi.Smooth | indicators/relative_strength_index/rsi.py:49-50 | Wilder's step keeps averages non-negative, makes a positive move give a positive average, and keeps 0 at 0 |
| Rsi.AveragesAt | indicators/relative_strength_index/rsi.py:33-50 | the averages in effect at each position are never negative |
| Rsi.AveragesStep | indicators/relative_strength_index/rsi.py:41-50 | from position `period` on, each position's averages are one Wilder step of the previous position's with that position's change |
| Rsi.RsiOf | indicators/relative_strength_index/rsi.py:36-53 | with down > 0 the RSI lies in [0, 100), and up = 0 gives 0; down = 0 gives 100 when up > 0 and NaN when up = 0 |
| Rsi.RsiFormula | indicators/relative_strength_index/rsi.py:52-53 | `100 − 100/(1 + up/down)` lies in [0, 100) for up ≥ 0 and down > 0 |
| Rsi.RsiSeries | indicators/relative_strength_index/rsi.py:37 | the series has exactly one entry per price |
| Rsi.RsiSeriesAt | indicators/relative_strength_index/rsi.py:38-53 | entry k is the RSI of the averages in effect at position k |
| Rsi.CalculateRsi | indicators/relative_strength_index/rsi.py:26-59 | the filled array has one entry per price and equals the specification series |
| Rsi.FillSeed | indicators/relative_strength_index/rsi.py:38 | `rsi[:period] = seed RSI`: the first `period` cells hold the seed value, the others are unchanged |
| Rsi.FillSmoothed | indicators/relative_strength_index/rsi.py:40-53 | the loop turns a seeded array into the whole specification series |
| Rsi.SeedPrefixConstant | indicators/relative_strength_index/rsi.py:33-38 | the first `period` positions all hold the same seed RSI |
| Rsi.RsiBounded | indicators/relative_strength_index/rsi.py:52-53 | every non-NaN entry lies in [0, 100], and below 100 whenever the loss average is positive |
| Rsi.FallingPricesAveragesAt | indicators/relative_strength_index/rsi.py:33-50 | with strictly falling prices the gain average stays 0 and the loss average positive |
| Rsi.FallingPricesBuy | indicators/relative_strength_index/rsi.py:26-74 | strictly falling prices give RSI 0 everywhere, and so buy at every position |
| Macd.Decide | indicators/macd/macd.py:53-66 | lines of different lengths fail and fewer than two rows fail; buy iff macd crosses above signal at the last row, sell iff it crosses below, hold otherwise |
| Macd.EqualLastRowHolds | indicators/macd/macd.py:62-63 | equal values at the last row always hold |
| Macd.OnlyLastTwoRowsMatter | indicators/macd/macd.py:56-57 | earlier rows never change the signal |
| Macd.SwapMirrors | indicators/macd/macd.py:58-61 | exchanging the macd and signal lines exchanges buy and sell |
| Bollinger.Window | indicators/bollinger_bands/boll_bands.py:33 | the window is the last `window_size` prices; a negative `window_size` drops that many prices from the front instead |
| Bollinger.CalculateBands | indicators/bollinger_bands/boll_bands.py:24-48 | fewer prices than `window_size` raise ValueError and an empty window is a degenerate division; it succeeds exactly when neither happens, which for a non-negative window means `window_size` ≤ the length and some prices; the middle band is the window mean and upper/lower lie `num_std·std` above/below it |
| Bollinger.BandsOrdered | indicators/bollinger_bands/boll_bands.py:37-41 | with num_std ≥ 0, lower ≤ middle ≤ upper |
| Bollinger.BandsSymmetric | indicators/bollinger_bands/boll_bands.py:37-41 | upper − middle equals middle − lower |
| Bollinger.OnlyWindowMatters | indicators/bollinger_bands/boll_bands.py:33-41 | prices before the window change neither the window nor the bands |
| Bollinger.NegativeWindowDropsPrefix | indicators/bollinger_bands/boll_bands.py:24-41 | `window_size = -2` over ten prices gives the bands of the last eight, as `window_size = 8` over them does |
| Bollinger.ConstantWindowCollapses | indicators/bollinger_bands/boll_bands.py:35-41 | a constant window has std 0, so all three bands equal the constant |
| Bollinger.Decide | indicators/bollinger_bands/boll_bands.py:50-65 | no closes fail at `[-1]`; buy iff the last close is below lower, sell iff above upper (and not below lower), hold otherwise |
| Bollinger.OnBandHolds | indicators/bollinger_bands/boll_bands.py:54-62 | a last close exactly on a band holds |
| Bollinger.ConstantPricesHold | indicators/bollinger_bands/boll_bands.py:24-62 | constant prices yield hold |
| Stochastic.NewOscillator | indicators/stochastic_oscillator/stoc_osc.py:21-24 | the periods are kept as given, negative ones included, and the percent threshold is stored as a fraction |
| Stochastic.DefaultSettings | indicators/stochastic_oscillator/stoc_osc.py:24 | the defaults 14, 3 and 20 percent give a threshold of 0.2 |
| Stochastic.Calculate | indicators/stochastic_oscillator/stoc_osc.py:26-47 | an empty trailing window of highs or lows fails (for a non-negative `k_period`, exactly empty highs or lows); otherwise hh = ll, no closes, or a negative `d_period` that drops every K (the mean of an empty slice) fail as a degenerate division, and nothing else fails; otherwise K has one entry per close, placed between the trailing ll and hh, and D is the mean of the last d K values |
| Stochastic.NegativeKPeriodDropsPrefix | indicators/stochastic_oscillator/stoc_osc.py:35-38 | a `k_period` of −2 over ten highs and lows takes hh and ll from the last eight, exactly as `k_period` 8 over those eight |
| Stochastic.PercentKs | indicators/stochastic_oscillator/stoc_osc.py:37 | one %K per close, each `100·(close − ll)/(hh − ll)` |
| Stochastic.PercentKBounded | indicators/stochastic_oscillator/stoc_osc.py:37 | a close within [ll, hh] gives %K in [0, 100], with 0 at ll and 100 at hh |
| Stochastic.DBetweenAveragedK | indicators/stochastic_oscillator/stoc_osc.py:38 | D lies between the smallest and largest of the K values it averages |
| Stochastic.ReadingInRange | indicators/stochastic_oscillator/stoc_osc.py:35-38 | closes inside the recent range give every K, and D, a value in [0, 100] |
| Stochastic.Decide | indicators/stochastic_oscillator/stoc_osc.py:49-61 | empty K fails; buy iff K > D and K > 1 − threshold, sell iff K < D and K < 1 − threshold, hold otherwise |
| Stochastic.KEqualsDHolds | indicators/stochastic_oscillator/stoc_osc.py:53-58 | K equal to D always holds |
| Obv.Zeros | indicators/on_balance_volume/obv.py:25 | the reset column: one zero per row |
| Obv.ObvSeries | indicators/on_balance_volume/obv.py:25-28 | one running total per row |
| Obv.ObvSteps | indicators/on_balance_volume/obv.py:25-28 | the first total is 0; each later total adds the volume on a rise, subtracts it on a fall, and is unchanged otherwise |
| Obv.ConstantClosesZero | indicators/on_balance_volume/obv.py:25-28 | constant closes give an all-zero OBV |
| Obv.NonDecreasing | indicators/on_balance_volume/obv.py:26-28 | with non-negative volumes and closes that never fall, OBV never decreases |
| Obv.MarkRises | indicators/on_balance_volume/obv.py:26 | the first masked assignment puts the volume into exactly the rows whose close rose |
| Obv.MarkFalls | indicators/on_balance_volume/obv.py:27 | the second masked assignment puts the negated volume into exactly the rows whose close fell |
| Obv.Accumulate | indicators/on_balance_volume/obv.py:28 | the in-place cumulative sum turns each signed volume into the running total |
| Obv.RunningTotals | indicators/on_balance_volume/obv.py:25-28 | the three column steps together compute the OBV series |
| Obv.Frame.constructor | indicators/on_balance_volume/obv.py:21 | a frame holds the given equal-length columns |
| Obv.Frame.CalculateObv | indicators/on_balance_volume/obv.py:21-34 | a missing volume column, then a missing close column, fail after the reset; otherwise the `obv` column becomes the OBV series and every other column is unchanged |
| Obv.Decide | indicators/on_balance_volume/obv.py:36-46 | fewer than two values fail; buy iff last > previous, sell iff less, hold iff equal |
| Obv.ConstantClosesHold | indicators/on_balance_volume/obv.py:25-43 | constant closes hold |
| Vwap.Broadcast | indicators/volume_weighted_average_price/vwap.py:28 | numpy broadcasting: equal lengths pair up, a one-element operand is repeated against the other, any other pair of lengths fails |
| Vwap.CalculateVwap | indicators/volume_weighted_average_price/vwap.py:21-37 | fails on lengths that do not broadcast, then on a zero total volume; succeeds otherwise; for equal lengths VWAP × total volume = Σ close·volume |
| Vwap.SingleCloseIsVwap | indicators/volume_weighted_average_price/vwap.py:26-30 | one close broadcast against any volumes with a non-zero total is the VWAP |
| Vwap.TotalValueOfConstantVolume | indicators/volume_weighted_average_price/vwap.py:28 | a constant volume v gives a traded value of v times the summed closes |
| Vwap.SingleVolumeSumsCloses | indicators/volume_weighted_average_price/vwap.py:26-30 | one volume v ≠ 0 against several closes yields the sum of the closes, not their mean |
| Vwap.TotalValueBounds | indicators/volume_weighted_average_price/vwap.py:28 | non-negative weights keep the traded value between total·lo and total·hi |
| Vwap.VwapWithin | indicators/volume_weighted_average_price/vwap.py:26-30 | with non-negative volumes and a positive total the VWAP lies within any bounds of the closes |
| Vwap.VwapBetween | indicators/volume_weighted_average_price/vwap.py:26-30 | the VWAP lies between the lowest and the highest close |
| Vwap.VwapOfConstant | indicators/volume_weighted_average_price/vwap.py:26-30 | if every close is p, the VWAP is p |
| Vwap.ScaleSums | indicators/volume_weighted_average_price/vwap.py:26-28 | scaling the volumes by c scales both sums by c |
| Vwap.ScaleInvariant | indicators/volume_weighted_average_price/vwap.py:26-30 | scaling every volume by c > 0 leaves the VWAP unchanged |
| Vwap.Decide | indicators/volume_weighted_average_price/vwap.py:39-49 | buy iff current price > VWAP, sell iff less, hold iff equal |
| Fibonacci.CalculateLevels | indicators/fibonacci_retracements/fib_ret.py:29-54 | empty prices fail; otherwise one level per ratio, in order, each `min + r·(max − min)` |
| Fibonacci.LevelEnds | indicators/fibonacci_retracements/fib_ret.py:47 | ratio 0 gives the minimum and ratio 1 the maximum |
| Fibonacci.DefaultLevelsSpanRange | indicators/fibonacci_retracements/fib_ret.py:13 | the seven default ratios give seven levels, the first the minimum and the last the maximum |
| Fibonacci.ChooseRatios | indicators/fibonacci_retracements/fib_ret.py:24-27 | the configured ratios when any are given, DEFAULT_FIB_LEVELS otherwise, never empty |
| Fibonacci.UnconfiguredLevelsSpanRange | indicators/fibonacci_retracements/fib_ret.py:13-27 | without configured levels the strategy computes the seven default levels, from the minimum to the maximum price |
| Fibonacci.LevelWithinRange | indicators/fibonacci_retracements/fib_ret.py:47 | a ratio in [0, 1] gives a level between the minimum and the maximum |
| Fibonacci.LevelsMonotone | indicators/fibonacci_retracements/fib_ret.py:47 | a larger ratio never gives a lower level |
| Fibonacci.Decide | indicators/fibonacci_retracements/fib_ret.py:74-92 | no closes fail first, then missing keys in lookup order; buy iff last ≤ the 38.2 level, sell iff not buy and last ≥ the 61.8 level, hold otherwise |
| Fibonacci.MiddleLevelIgnored | indicators/fibonacci_retracements/fib_ret.py:80 | the 50.0 level is read but never changes the signal |
| DoubleTopBottom.ArgMax | indicators/double_top_bottom/dtb.py:28 | `np.argmax`: the first position of the largest element |
| DoubleTopBottom.ArgMin | indicators/double_top_bottom/dtb.py:52 | `np.argmin`: the first position of the smallest element |
| DoubleTopBottom.FirstPeak | indicators/double_top_bottom/dtb.py:28 | the first peak lies in the first half |
| DoubleTopBottom.SecondPeak | indicators/double_top_bottom/dtb.py:30 | the second peak lies at or after the first |
| DoubleTopBottom.CheckDoubleTop | indicators/double_top_bottom/dtb.py:23-45 | fewer than two closes, or an empty slice around the peaks, fail; otherwise the second peak iff the stretch between the peaks dips below both outer stretches, else −1 |
| DoubleTopBottom.FirstValley | indicators/double_top_bottom/dtb.py:52 | the first valley lies in the first half |
| DoubleTopBottom.SecondValley | indicators/double_top_bottom/dtb.py:54 | the second valley lies at or after the first |
| DoubleTopBottom.CheckDoubleBottom | indicators/double_top_bottom/dtb.py:47-68 | the mirror image: the second valley iff the stretch between the valleys rises above both outer stretches, else −1 |
| DoubleTopBottom.TopShape | indicators/double_top_bottom/dtb.py:28-34 | whenever `check_double_top` does not raise, 0 < first peak < second peak and the second peak is strictly higher than the first, so two equally high peaks always raise |
| DoubleTopBottom.TopHasValley | indicators/double_top_bottom/dtb.py:33-37 | a found double top has a close strictly between the peaks below every close outside them |
| DoubleTopBottom.ValleyBetween | indicators/double_top_bottom/dtb.py:33-34 | a stretch whose minimum is below the minima outside it contains such a valley |
| DoubleTopBottom.ValleysMirrorPeaks | indicators/double_top_bottom/dtb.py:28-54 | the valleys of the closes are the peaks of their negation |
| DoubleTopBottom.BottomMirrorsTop | indicators/double_top_bottom/dtb.py:23-68 | the double bottom of the closes is the double top of their negation |
| DoubleTopBottom.Decide | indicators/double_top_bottom/dtb.py:80-90 | buy iff a double bottom was found (even with a top), sell iff only a top, hold iff neither |
| ElliottWave.Direction | indicators/elliott_wave_theory/ewt.py:30-36 | 1 iff the price rose, −1 iff it fell, 0 iff unchanged |
| ElliottWave.Waves | indicators/elliott_wave_theory/ewt.py:29-36 | one wave per consecutive pair of closes, each the direction of that move |
| ElliottWave.Pattern | indicators/elliott_wave_theory/ewt.py:40-44 | 1 iff the last two waves are up then down, −1 iff down then up; any other ending leaves the pattern unbound and fails |
| ElliottWave.IdentifyWavePatterns | indicators/elliott_wave_theory/ewt.py:23-50 | 1 iff the last three closes rise then fall, −1 iff they fall then rise, a failure otherwise |
| ElliottWave.Last | indicators/elliott_wave_theory/ewt.py:69 | `x[-1]` fails exactly on an empty sequence |
| ElliottWave.Decide | indicators/elliott_wave_theory/ewt.py:67-77 | buy iff pattern 1, last RSI < 30 and last close above both averages; sell iff pattern −1, last RSI > 70 and last close below both; hold otherwise; any other pattern holds |
| ElliottWave.OnlyLastValuesMatter | indicators/elliott_wave_theory/ewt.py:69-74 | only the last close, RSI value and averages reach the decision |
| HeadAndShoulders.LeftReach | indicators/head_and_shoulders/head_n_shoulders.py:28 | a centred window of size w reaches `left` positions back and `w − 1 − left` forward |
| HeadAndShoulders.Extrema | indicators/head_and_shoulders/head_n_shoulders.py:28-31 | the candidate positions, all below the bound |
| HeadAndShoulders.ExtremaShape | indicators/head_and_shoulders/head_n_shoulders.py:28-31 | candidates are exactly the positions equal to their full rolling window's max (min), in increasing order |
| HeadAndShoulders.DefaultWindowCandidates | indicators/head_and_shoulders/head_n_shoulders.py:17-28 | with window 5, a maximum candidate has two neighbours on each side, none higher; edge positions never qualify |
| HeadAndShoulders.Selected | indicators/head_and_shoulders/head_n_shoulders.py:33-36 | the kept candidate indices lie in the scanned range |
| HeadAndShoulders.SelectedShape | indicators/head_and_shoulders/head_n_shoulders.py:33-36 | candidate i is kept iff it is the extreme of candidates i−w .. i+w−1, in increasing order |
| HeadAndShoulders.Positions | indicators/head_and_shoulders/head_n_shoulders.py:36 | one reported position per kept index |
| HeadAndShoulders.ScanStep | indicators/head_and_shoulders/head_n_shoulders.py:34-36 | one loop step appends the candidate's position exactly when it qualifies |
| HeadAndShoulders.Stop | indicators/head_and_shoulders/head_n_shoulders.py:33 | where `range(w, len − w)` ends, including the empty range |
| HeadAndShoulders.CheckWindow | indicators/head_and_shoulders/head_n_shoulders.py:34-35 | the window test keeps a candidate exactly when it is the extreme of the w candidates on each side of it |
| HeadAndShoulders.WindowExtreme | indicators/head_and_shoulders/head_n_shoulders.py:34-35 | the window test holds iff the candidate is at least (at most) every other in its window |
| HeadAndShoulders.Scan | indicators/head_and_shoulders/head_n_shoulders.py:32-37 | the loop reports the positions of the qualifying candidates |
| HeadAndShoulders.FindHeadAndShoulders | indicators/head_and_shoulders/head_n_shoulders.py:27-37 | the finder returns the specified pattern over the maxima |
| HeadAndShoulders.FindInvertedHeadAndShoulders | indicators/head_and_shoulders/head_n_shoulders.py:39-49 | the finder returns the specified pattern over the minima |
| HeadAndShoulders.PatternShape | indicators/head_and_shoulders/head_n_shoulders.py:33-48 | reported positions strictly increase and each one is a candidate |
| HeadAndShoulders.FewCandidatesReportNothing | indicators/head_and_shoulders/head_n_shoulders.py:33 | fewer than 2w + 1 candidates report nothing |
| HeadAndShoulders.Largest | indicators/head_and_shoulders/head_n_shoulders.py:72 | `max` of a non-empty list |
| HeadAndShoulders.Smallest | indicators/head_and_shoulders/head_n_shoulders.py:74 | `min` of a non-empty list |
| HeadAndShoulders.Decide | indicators/head_and_shoulders/head_n_shoulders.py:65-80 | UNKNOWN iff either list is empty; buy iff the last top is the largest; sell iff not and the last bottom is the smallest; hold otherwise |
| HeadAndShoulders.LastOfIncreasingIsLargest | indicators/head_and_shoulders/head_n_shoulders.py:72 | in a strictly increasing list the last element is the largest |
| HeadAndShoulders.DecideOnlyBuysOrUnknown | indicators/head_and_shoulders/head_n_shoulders.py:65-77 | on what the finders return the decider answers only UNKNOWN or buy; sell and hold are unreachable |
| Ichimoku.SpanA | indicators/ichimoku_cloud/ichimoku.py:43 | span A is the element-wise mean of the two lines |
| Ichimoku.SpanABetween | indicators/ichimoku_cloud/ichimoku.py:43 | each span-A value lies between the two values it averages |
| Ichimoku.SpanAOfEqualLines | indicators/ichimoku_cloud/ichimoku.py:43 | equal lines give a span A equal to them |
| Ichimoku.Decide | indicators/ichimoku_cloud/ichimoku.py:55-65 | an empty span A fails; an empty span B fails only when the price is off span A's last value, since `and` short-circuits; otherwise buy iff the price is above both last spans, sell iff below both, hold otherwise |
| Ichimoku.PriceOnSpanAHolds | indicators/ichimoku_cloud/ichimoku.py:57-62 | a price equal to span A's last value holds without reading span B, even an empty one |
| Ichimoku.OnlyLastValuesMatter | indicators/ichimoku_cloud/ichimoku.py:57-59 | only the last element of each span matters |
| Ichimoku.InsideCloudHolds | indicators/ichimoku_cloud/ichimoku.py:61-62 | a price between the spans or on either holds |
| Ichimoku.SpansCommute | indicators/ichimoku_cloud/ichimoku.py:57-60 | with both spans non-empty the two play symmetric roles |
| Triangle.Decide | indicators/triangle/triangle.py:35-45 | an empty pattern fails; buy iff the last score is 100, sell iff −100, hold otherwise |
| Triangle.OnlyLastValueMatters | indicators/triangle/triangle.py:37 | only the last score matters |
| Triangle.NegatedScoresMirror | indicators/triangle/triangle.py:37-40 | negating every score exchanges buy and sell |
| Adx.Decide | indicators/average_directional_index/adx.py:37-51 | a last value ≤ 25 holds; above 25 with the previous below 25 buys; previous ≥ 25 and below the last holds; otherwise sells; a missing value fails |
| Adx.BuyOnlyOnCrossing | indicators/average_directional_index/adx.py:40-42 | a buy means the index just crossed 25 from below |
| Adx.SellOnlyWhenStrongAndFalling | indicators/average_directional_index/adx.py:45-46 | a sell means the index is above 25 and not above the previous value |
| Adx.OnlyLastTwoMatter | indicators/average_directional_index/adx.py:39-48 | earlier values never change the signal |
| OrderBook.Quantities | indicators/order_book_analysis/oba.py:28-30 | the quantity field of each level, in order |
| OrderBook.Book | indicators/order_book_analysis/oba.py:26-27 | a book holds its bids and asks under those keys |
| OrderBook.Decide | indicators/order_book_analysis/oba.py:22-46 | a missing `bids` key, then a missing `asks` key, fail; buy iff the bid quantity sum exceeds the ask sum, sell iff less, hold iff equal |
| OrderBook.PricesIgnored | indicators/order_book_analysis/oba.py:28-30 | price fields never affect the signal |
| OrderBook.ReorderingIgnored | indicators/order_book_analysis/oba.py:28-30 | reordering the levels of either side leaves the signal unchanged |
| OrderBook.PermutedQuantities | indicators/order_book_analysis/oba.py:28-30 | reordered levels have reordered quantities |
| OrderBook.EmptyBookHolds | indicators/order_book_analysis/oba.py:33-38 | an empty book holds |
| OrderBook.SwapMirrors | indicators/order_book_analysis/oba.py:33-38 | exchanging bids and asks exchanges buy and sell |
| GoogleTrends.Decide | sentiment_analysis/google_trends/google_trends.py:38-52 | an absent topic column or an empty series fails; buy iff the last value exceeds the mean, sell iff below, hold iff equal |
| GoogleTrends.ConstantHolds | sentiment_analysis/google_trends/google_trends.py:41-49 | a constant series holds |
| GoogleTrends.SingleReadingHolds | sentiment_analysis/google_trends/google_trends.py:41-44 | a one-element series holds |
| GoogleTrends.NewHighBuys | sentiment_analysis/google_trends/google_trends.py:41-46 | a last value above every earlier one buys |
| GoogleTrends.NewLowSells | sentiment_analysis/google_trends/google_trends.py:41-48 | a last value below every earlier one sells |
| StrategyFactory.Keywords | scripts/strategy_factory.py:26-60 | the keyword arguments each class's constructor takes always include `is_test` and `timestamp` and never `name` |
| StrategyFactory.Required | sentiment_analysis/reddit/reddit.py:14 | only Reddit (and Twitter, twitter.py line 14) has an argument without a default, `args`, which it also takes |
| StrategyFactory.Bind | scripts/strategy_factory.py:26-60 | `Cls(**params)` binds the arguments unchanged exactly when every keyword is taken and every required argument is given; an untaken keyword raises before a missing argument |
| StrategyFactory.Initialize | indicators/fibonacci_retracements/fib_ret.py:24-25 | the constructor body raises NameError on the global `args` exactly for FibonacciRetracements, and keeps any other bound strategy unchanged |
| StrategyFactory.Construct | scripts/strategy_factory.py:26-60 | `Cls(**params)` succeeds exactly when the arguments bind and the class is not FibonacciRetracements, with the arguments unchanged; a binding error comes first, else a bound Fibonacci raises NameError |
| StrategyFactory.CreateStrategy | scripts/strategy_factory.py:24-62 | a `name` keyword raises at the call; a result has the class whose name was given, is never FibonacciRetracements, with arguments it takes; an unknown-strategy failure means no class has that name |
| StrategyFactory.LaterNames | scripts/strategy_factory.py:43-62 | the second half of the chain has the same guarantee |
| StrategyFactory.LastNames | scripts/strategy_factory.py:51-62 | so has its end, from Triangle on, including the unknown-name error |
| StrategyFactory.NoKindNamed | scripts/strategy_factory.py:61-62 | any name outside the eighteen selects no class |
| StrategyFactory.NotInChain | scripts/strategy_factory.py:25-60 | a name no class has fails every comparison of the chain |
| StrategyFactory.NamesInjective | scripts/strategy_factory.py:25-60 | distinct classes have distinct names |
| StrategyFactory.NameSelectsItsKind | scripts/strategy_factory.py:25-60 | each class's own name constructs exactly that class from the arguments |
| StrategyFactory.LaterNameSelectsItsKind | scripts/strategy_factory.py:43-60 | the same for the classes from OBV on |
| StrategyFactory.LastNameSelectsItsKind | scripts/strategy_factory.py:51-60 | the same for the classes from Triangle on |
| StrategyFactory.UnknownNameRejected | scripts/strategy_factory.py:61-62 | a name no class has raises the unknown-strategy error |
| StrategyFactory.DefaultsBuild | scripts/strategy_factory.py:25-60 | every indicator's arguments bind from no arguments or from `is_test` and `timestamp` alone, and every one but FibonacciRetracements builds; Reddit and Twitter without `args` raise |
| StrategyFactory.FibonacciNeverBuilds | indicators/fibonacci_retracements/fib_ret.py:24-25 | `create_strategy("FibonacciRetracements", ...)` always raises, with NameError on `args` whenever its arguments bind |
| StrategyFactory.RsiRejectsPeriod | scripts/strategy_factory.py:45-46 | `RSI` with a `period` keyword raises, since its constructor takes none |
| StrategyFactory.WindowSizeKeyword | scripts/strategy_factory.py:27-40 | `window_size` builds Bollinger Bands but raises for MACD |
| StrategyFactory.MatchingIsExact | scripts/strategy_factory.py:25-59 | matching is exact and case-sensitive |
| Timestamp.Render | scripts/utils.py:19-37 | a separated piece is the separator followed by its text; an unseparated piece is its text |
| Timestamp.PrecisionIndex | scripts/utils.py:28 | the precision's position in the table, or −1 exactly when it is no key |
| Timestamp.TimestampFormat | scripts/utils.py:19-39 | an unknown precision fails first, then the separator "%"; otherwise the pieces up to the precision, joined in order |
| Timestamp.CoarserIsPrefix | scripts/utils.py:35-39 | for one separator, a coarser precision's format is a prefix of a finer one's |
| Timestamp.HoursIgnoreSeparator | scripts/utils.py:23 | the hours piece is "_%H" whatever the separator |
| Timestamp.FormatsSpelledOut | scripts/utils.py:19-26 | the day and seconds formats written out for any separator |
| Timestamp.SecondsExample | scripts/utils.py:14-15 | ("seconds", "") gives "%Y%m%d_%H%M%S" |
| Timestamp.DashedSecondsExample | scripts/utils.py:16 | ("seconds", "-") gives "%Y-%m-%d_%H-%M-%S" |
| Timestamp.SlashedDayExample | scripts/utils.py:17 | ("day", "/") gives "%Y/%m/%d" |
| TradingApi.ParamsOf | main.py:47 | `get("parameters", {})`: the given parameters, or the empty map |
| TradingApi.Enabled | main.py:45 | the enabled entries, in order |
| TradingApi.LoadBuildsEnabled | main.py:44-49 | a completed load built exactly the enabled entries, in configuration order, each from its name and parameters |
| TradingApi.AbortIsFinal | main.py:44-49 | once building has raised, later entries are never looked at |
| TradingApi.AbortNamesAnEnabledEntry | main.py:44-49 | a load stops only at an enabled entry that the factory refuses, with the factory's error, after every entry before it was built |
| TradingApi.FibonacciEntryAborts | main.py:44-49 | an enabled FibonacciRetracements entry after a completed prefix aborts the load, whatever follows, having built only the prefix |
| TradingApi.DisabledIgnored | main.py:45 | disabled entries are skipped |
| TradingApi.VisitEffect | main.py:164-168 | a visit fails exactly when the name lookup raises; otherwise it touches only its own name's entry: no entry if calculate raises, only calculations if decide raises, only the signal otherwise |
| TradingApi.AbortsIffNameMissing | main.py:163-169 | the loop raises exactly when some indicator has no `name`, with the attribute error |
| TradingApi.RaiseIsFinal | main.py:163-169 | once a prefix of the list has raised, the rest is never visited |
| TradingApi.NamelessIndicatorsAbort | main.py:165-168 | with the classes as written, which define no `name`, any non-empty indicator list makes the loop raise |
| TradingApi.ClassNamedIndicatorsComplete | main.py:163-169 | with each indicator named after its class the loop never raises and keys every entry by a class name |
| TradingApi.EntriesComeFromCalculations | main.py:163-168 | every stored entry belongs to an indicator whose name lookup and calculate returned |
| TradingApi.LastVisitWins | main.py:165-166 | a later indicator with the same name and a returning calculate overwrites the earlier entry |
| TradingApi.Trader.constructor | main.py:43 | the indicator list starts empty |
| TradingApi.Trader.LoadIndicators | main.py:43-49 | the list grows by what the load builds, and the outcome is the load's |
| TradingApi.Trader.ProcessIndicators | main.py:161-169 | the results are those of visiting the indicators in list order; an exception from calculate or decide is caught, one from the name lookup ends the loop |

## Left out

- Exchange and order I/O, the Binance client, data-frame conversion, trade execution and the multiprocessing `run` loop: network, pandas plumbing and concurrency.
- talib and ta outputs are model inputs: MACD and its signal line, ADX, the triangle candlestick scores, the Elliott-wave moving averages, and the Ichimoku tenkan, kijun and span B lines. Their NaN warm-up entries are not modelled, because the inputs are exact reals and every comparison is decided. For example, ADX with a NaN previous value fails both comparisons and sells (adx.py lines 41-46), which the model cannot express.
- Bollinger.CalculateBands: `np.std`'s square root is not computed. The standard deviation is a supplied value whose square is the window's population variance (`Bollinger.IsStd`).
- IEEE floats: prices are exact reals. numpy's inf/NaN is kept only for RSI. A zero denominator elsewhere is `Fail(DegenerateDivision)`.
- Logging, timing and plotting. Several log lines would themselves raise: the `"{}}"` format in rsi.py line 29, the `%` formatting without placeholders in boll_bands.py lines 55-61, `", ".join` over numbers in ewt.py lines 26, 37 and 56, vwap.py lines 23-24, ichimoku.py lines 30-31, macd.py line 31, fib_ret.py lines 39 and 48 and supertrend.py lines 27-29, the same with `",".join` in boll_bands.py line 29, and the undefined `count` in google_trends.py line 34. Logging is treated as a no-op, so those raises are not modelled.
- Rsi.CalculateRsi requires a period of at least 1. With period 0 the Python code divides by zero while seeding.
- Rsi.CalculateRsi stores RSI values exactly. The `np.zeros_like` array takes the prices' dtype, and integer prices would truncate the stored values to integers.
- HeadAndShoulders.Pattern and its finders require a window of at least 1. pandas accepts a rolling window of 0 (it rejects only negative ones), and what the empty-window `max`/`min` then selects is pandas behaviour outside this model. If no candidate survives the loop is skipped and the pattern is empty; if one does, `window.iloc[0]` on the empty slice at head_n_shoulders.py lines 34-35 raises IndexError.
- HeadAndShoulders.Decide takes the two lists directly. The `data.get(...).get("calculations", [])` lookup and its two-way unpacking are not modelled.
- Bollinger.Decide: the decider indexes `[-1]` into bands the calculator returns as numpy scalars, which raises IndexError on every call. The model reads the bands directly and does not promise that raise.
- Stochastic.Decide: the decider indexes `[-1]` into a numpy scalar D, which raises IndexError on every call. The model takes D directly and does not promise that raise.
- Stochastic.Decide compares a percent-scaled K with the fractional `1 − threshold`. This is kept as written.
- Fibonacci.CalculateLevels takes the ratios as a parameter. The constructor reads a global `args` that only the script's `__main__` block defines, so building the class through the factory raises NameError (`StrategyFactory.Initialize`) and no configured levels ever reach it. The model's ratios come from `Fibonacci.ChooseRatios`, the evident intent; parsing a comma-separated levels string is not modelled (`split(',')` would give strings that `level * diff` cannot multiply). The string-keyed level dictionary the decider expects is not modelled either: the decider takes a map from key to level.
- Adx.Decide reads the last two values positionally. pandas label indexing versus numpy `iloc` differences are not modelled.
- OrderBook.Decide takes quantities as reals. The `float(level[1])` string parsing, and malformed levels, are not modelled.
- Ichimoku.SpanA requires lines of equal length. Index alignment of pandas Series is not modelled.
- Vwap.Broadcast models numpy arrays only. pandas Series operands would be aligned by index labels instead of broadcast.
- StrategyFactory.Construct models how Python binds the keyword arguments and, of the constructor bodies, only that FibonacciRetracements' constructor raises NameError (fib_ret.py line 24). The other bodies (logger setup, API clients, reading attributes of Reddit's and Twitter's `args`) and the types of the argument values are not modelled.
- TradingApi: a `parameters` entry that is present but not a dictionary makes `**params` raise; the model's parameters are always a map.
- GoogleTrends: `fetch_google_trends` is a network call and is not modelled.
- Reddit, Twitter, GPT and the supertrend indicator: library and HTTP clients, and the supertrend decider compares whole Series.
- TradingApi: `calculate` and `decide_signal` are parameters of the model. So is the `name` attribute lookup, which may raise: no indicator class defines `name`, so with the classes as written it always raises (`TradingApi.NamelessIndicatorsAbort`).
- TradingApi: the `config["indicators"]`, `["enable"]` and `["name"]` lookups are assumed to succeed.
- TradingApi: the sentiment-analyser loop (main.py lines 51-57) and `process_sentiment_analyzer` (main.py lines 171-179) have the same shape as the indicator loops and are not modelled separately.
- Timestamp.TimestampFormat stops at the format string: the clock and the `strftime` call are left out.

## Findings

| source | as written | input that shows it | evidently intended | confidence | as-written member | corrected member |
|---|---|---|---|---|---|---|
| main.py:165-168 | `process_indicators` keys its results by `indicator.name`, an attribute that no indicator class defines; the handler re-reads it to log the failure, so the AttributeError escapes the loop | any configuration that enables at least one indicator | each indicator's entry keyed by its own name, one indicator's failure leaving the others alone | high, not executed | TradingApi.NamelessIndicatorsAbort | TradingApi.ClassNamedIndicatorsComplete |
| indicators/fibonacci_retracements/fib_ret.py:24-27 | the constructor reads `args.fib_levels`, but `args` is a global assigned only under `__main__`, so a strategy built by the factory raises NameError | a configuration enabling `FibonacciRetracements`, loaded by `main.py` | the configured levels when given, DEFAULT_FIB_LEVELS otherwise | high, not executed | TradingApi.FibonacciEntryAborts | Fibonacci.UnconfiguredLevelsSpanRange |
