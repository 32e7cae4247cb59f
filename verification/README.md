# Bollinger-band signal of FutureTrading, in Dafny

This project models the trading signal of `BollingerBandStrategy`. The strategy takes a frame of
candles that has been enriched with Bollinger bands, RSI and the volume percentage change. It reads
the last row of that frame and checks four conditions:

- **bb_squeeze**: the bands are squeezed. The band width relative to the close is below 0.005.
- **at_lower_band**: the close is at or near the lower band. It is at most 0.1% above it.
- **rsi_oversold**: RSI is strictly below 30.
- **volume_spike**: volume rose by strictly more than 20% from the previous candle.

The strategy counts the conditions that hold. It answers `STRONG LONG` when three or more hold and
`NO TRADE` otherwise. It is long-only, every condition carries the same weight, and it sizes no
position.

The files:

- `wrappers.dfy`: the `Option` and `Result` datatypes.
- `nan_float.dfy`: pandas float cells as `Option<real>`. `None` stands for NaN. NaN propagates through
  arithmetic and makes every ordered comparison false.
- `indicators.dfy`: candles, the frame row, the volume percentage change (`pct_change() * 100`), and
  the assembly of the frame from the candles and the band and RSI columns.
- `bollinger_band.dfy`: the four conditions, the count, the threshold rule, the signal on a frame,
  the returned text, and the path from candles to signal in the order the bot runs it.
- `signal_properties.dfy`: lemmas about the rule. They cover the threshold read as "at most one
  condition fails", monotonicity, NaN bands, exact threshold boundaries, last-row-only reading, and
  the volume column.

The count has a partner definition: the set of names of the conditions that hold
(`BollingerBand.Holding`). `Score` is proved equal to that set's size. The decision is stated in
terms of it.

## Model

| member | source | states |
|---|---|---|
| NanFloat.Sub | strategies/bollinger_band.py:16 | the band difference is NaN exactly when either band is NaN; otherwise it is the difference |
| NanFloat.Scale | strategies/bollinger_band.py:17 | the scaled lower band is NaN exactly when the lower band is NaN, and is otherwise the band times the factor |
| NanFloat.ScaleDivRoundTrip | strategies/bollinger_band.py:16-17 | dividing a scaled cell by the same non-zero factor gives back the cell, NaN included |
| NanFloat.Div | strategies/bollinger_band.py:16 | dividing by the close keeps NaN as NaN; otherwise the quotient times the close gives back the dividend |
| NanFloat.NanComparesFalse | strategies/bollinger_band.py:16-19 | no `<`, `>` or `<=` comparison with NaN holds |
| Indicators.Volumes | strategies/bollinger_band.py:10 | the volume column has one entry per candle, equal to that candle's volume |
| Indicators.RelativeChange | strategies/bollinger_band.py:10 | the percentage change p from prev to cur satisfies p·prev = (cur − prev)·100; it is positive exactly when volume rose and negative exactly when it fell |
| Indicators.PctChange | strategies/bollinger_band.py:10 | the column has the same length as the volumes; row 0 is NaN; every later row is the relative change from the previous volume |
| Indicators.CalculateIndicators | strategies/bollinger_band.py:5-11 | each frame row carries its candle's close and that row's band and RSI values; the volume change is NaN at row 0 and the change from the previous volume after that |
| BollingerBand.Evaluate | strategies/bollinger_band.py:15-20 | squeeze holds exactly when both bands are defined and upper − lower < 0.005·close; at-lower-band exactly when the lower band is defined and close ≤ lower·1.001; RSI oversold exactly when RSI is defined and below 30; volume spike exactly when the change is defined and above 20; a NaN lower band falsifies both band conditions |
| BollingerBand.Score | strategies/bollinger_band.py:21 | the count is at most 4 and equals the number of distinct condition names that hold |
| BollingerBand.HoldingCardinality | strategies/bollinger_band.py:15-21 | there are four conditions, and the holding set has one element per true condition |
| BollingerBand.Decide | strategies/bollinger_band.py:21-22 | the decision is a strong long exactly when at least 3 conditions hold |
| BollingerBand.GenerateSignal | strategies/bollinger_band.py:13-22 | an empty frame is an error (no last row); otherwise the signal is a strong long exactly when at least 3 conditions hold on the last row |
| BollingerBand.Text | strategies/bollinger_band.py:22 | the returned text is always "STRONG LONG" or "NO TRADE", and "STRONG LONG" exactly for the strong-long signal |
| BollingerBand.SignalFromCandles | bot.py:26-27 | running the strategy's calculate_indicators and then its generate_signal (strategies/bollinger_band.py lines 5-22) fails only on no candles; otherwise the signal is the decision on a row built from the last candle, the last band and RSI values and the previous volume |
| SignalProperties.AllButOneIsStrongLong | strategies/bollinger_band.py:21-22 | if every condition but one holds, the signal is a strong long |
| SignalProperties.StrongLongIffAtMostOneFails | strategies/bollinger_band.py:15-22 | strong long holds if and only if some single condition is the only one that may fail |
| SignalProperties.MoreConditionsNeverWeaken | strategies/bollinger_band.py:21-22 | when b has every condition a has, b's holding set contains a's, b's count is at least a's, a strong long for a stays one for b, and no trade for b means no trade for a |
| SignalProperties.SettingOneConditionNeverWeakens | strategies/bollinger_band.py:21-22 | turning any one condition true never changes a strong long into no trade |
| SignalProperties.ClearingOneConditionNeverStrengthens | strategies/bollinger_band.py:21-22 | turning any one condition false never changes no trade into a strong long |
| SignalProperties.UndefinedLowerBandMeansNoTrade | strategies/bollinger_band.py:14-22 | a NaN lower band on the last row gives no trade, whatever RSI and volume say |
| SignalProperties.ThresholdBoundaries | strategies/bollinger_band.py:16-19 | RSI exactly 30 is not oversold; a volume change of exactly 20 is not a spike; a width ratio of exactly 0.005 is not a squeeze; a close exactly at lower·1.001 counts as at the lower band |
| SignalProperties.AtLowerBandWithinTenthOfPercent | strategies/bollinger_band.py:17 | for a positive lower band, the close is at the lower band exactly when it exceeds the band by at most 0.1% of the band |
| SignalProperties.LowerRsiNeverWeakens | strategies/bollinger_band.py:18-22 | lowering RSI never changes a strong long into no trade |
| SignalProperties.LargerVolumeChangeNeverWeakens | strategies/bollinger_band.py:19-22 | raising the volume change never changes a strong long into no trade |
| SignalProperties.OnlyLastRowMatters | strategies/bollinger_band.py:14 | two frames with the same last row give the same signal |
| SignalProperties.AppendedRowDecides | strategies/bollinger_band.py:14-22 | whatever rows come before, the frame's signal is the decision on its last row |
| SignalProperties.PctChangePrefixStable | strategies/bollinger_band.py:10 | the volume change column of a prefix of the volumes is the same prefix of the full column |
| SignalProperties.SpikeIsRiseAboveOnePointTwo | strategies/bollinger_band.py:10-19 | a volume change above 20 means the volume exceeds 1.2 times the previous one, and exactly 20 means exactly 1.2 times |
| SignalProperties.EnrichedVolumeSpike | strategies/bollinger_band.py:10-19 | with one candle the volume condition never holds; with more, it holds exactly when the last volume exceeds 1.2 times the one before |
| SignalProperties.SingleCandleNeedsOtherThree | strategies/bollinger_band.py:10-22 | a single candle gives a strong long only if squeeze, lower band and RSI all hold |

## Left out

- `BaseStrategy.fetch_data` (strategies/base_strategy.py:14-35) is left out. It is an HTTP request to
  the Binance klines endpoint plus building a DataFrame. Candles are a plain input here.
- The base-class `calculate_indicators` and `generate_signal` (strategies/base_strategy.py:37-43) are
  left out. They only raise `NotImplementedError`.
- The `talib.BBANDS` and `talib.RSI` calls (strategies/bollinger_band.py:6-9) are left out. TA-Lib is
  a foreign library. Its band and RSI columns are inputs, and no bounds on them are assumed or proved.
- `bot.py` is left out except for the order of its two strategy calls (bot.py:26-27). The rest is
  the Telegram callback, the strategy lookup and the message formatting, which are user interface
  and I/O.
- Floating-point rounding is not modelled. Prices, volumes and indicator values are exact reals. The
  literals 0.005, 1.001, 30 and 20 are exact rationals rather than their nearest doubles.
- BollingerBand.Evaluate requires a positive close. The squeeze condition divides by the close, and
  the IEEE infinities a zero close would produce are not modelled.
- Indicators.PctChange requires every volume except the last to be positive. The change divides by
  the previous volume. The infinite or NaN results of a zero previous volume are not modelled.
- The close is always a defined number. Only the band, RSI and volume-change cells can be NaN.
- Two runtime issues sit outside the modelled logic and are not modelled. First,
  strategies/bollinger_band.py never imports `talib`. Second, `fetch_data` converts only the close
  column to float, so the volume column it returns is text. The model treats the indicator inputs as
  numbers.
