/**
 * The indicator columns of the Bollinger-band strategy.  Only the volume
 * percentage change has a formula in the strategy itself; the band and RSI
 * columns come from the TA-Lib library and enter the model as given columns.
 */
module Indicators {
  import opened Wrappers
  import opened NanFloat

  /** One OHLCV bar, reduced to the two fields the strategy reads. */
  datatype Candle = Candle(close: real, volume: real)

  /** One row of TA-Lib's BBANDS output: upper, middle and lower band. */
  datatype Bands = Bands(upper: Float, middle: Float, lower: Float)

  /** The last row of the indicator frame is what the signal reads. */
  datatype Row = Row(
    close: real,
    upperBand: Float,
    middleBand: Float,
    lowerBand: Float,
    rsi: Float,
    volumePctChange: Float)

  function Volumes(candles: seq<Candle>): (v: seq<real>)
    ensures |v| == |candles|
    ensures forall i :: 0 <= i < |v| ==> v[i] == candles[i].volume
  {
    seq(|candles|, i requires 0 <= i < |candles| => candles[i].volume)
  }

  /**
   * The percentage change divides each value by its predecessor, so every
   * value that has a successor must be non-zero; traded volume is never
   * negative, so this means positive.
   */
  predicate PctChangeDefined(v: seq<real>) {
    forall i :: 0 <= i < |v| - 1 ==> v[i] > 0.0
  }

  lemma PrefixDefined(v: seq<real>, k: nat)
    requires k <= |v|
    requires PctChangeDefined(v)
    ensures PctChangeDefined(v[..k])
  {
  }

  /** Relative change from v[i-1] to v[i], in per cent, as one value. */
  function RelativeChange(prev: real, cur: real): (p: real)
    requires prev > 0.0
    ensures p * prev == (cur - prev) * 100.0
    ensures p > 0.0 <==> cur > prev
    ensures p < 0.0 <==> cur < prev
  {
    (cur - prev) / prev * 100.0
  }

  /**
   * `volume.pct_change() * 100`: NaN at row 0 (no previous row), and the
   * relative change from the previous row, in per cent, at every other row.
   * Defined row by row, so a new candle appends one value to the column.
   */
  function PctChange(v: seq<real>): (p: seq<Float>)
    requires PctChangeDefined(v)
    ensures |p| == |v|
    ensures |v| > 0 ==> p[0] == None
    ensures forall i :: 1 <= i < |v| ==> p[i] == Some(RelativeChange(v[i - 1], v[i]))
    decreases |v|
  {
    if |v| == 0 then []
    else if |v| == 1 then [None]
    else
      var front := v[..|v| - 1];
      PrefixDefined(v, |v| - 1);
      PctChange(front) + [Some(RelativeChange(v[|v| - 2], v[|v| - 1]))]
  }

  /**
   * `calculate_indicators`: the candles with the band and RSI columns that
   * TA-Lib produced for them, plus the volume percentage change.
   */
  function CalculateIndicators(candles: seq<Candle>, bands: seq<Bands>, rsi: seq<Float>): (frame: seq<Row>)
    requires |bands| == |candles| && |rsi| == |candles|
    requires PctChangeDefined(Volumes(candles))
    ensures |frame| == |candles|
    ensures forall i :: 0 <= i < |frame| ==>
      && frame[i].close == candles[i].close
      && frame[i].upperBand == bands[i].upper
      && frame[i].middleBand == bands[i].middle
      && frame[i].lowerBand == bands[i].lower
      && frame[i].rsi == rsi[i]
    ensures |frame| > 0 ==> frame[0].volumePctChange == None
    ensures forall i :: 1 <= i < |frame| ==>
      frame[i].volumePctChange == Some(RelativeChange(candles[i - 1].volume, candles[i].volume))
  {
    var pct := PctChange(Volumes(candles));
    seq(|candles|, i requires 0 <= i < |candles| =>
      Row(candles[i].close, bands[i].upper, bands[i].middle, bands[i].lower, rsi[i], pct[i]))
  }
}
