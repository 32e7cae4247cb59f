/**
 * `BollingerBandStrategy.generate_signal`: four conditions on the last row
 * of the indicator frame, counted with equal weight; three or more give a
 * strong long signal, anything less gives no trade.  There is no short side.
 */
module BollingerBand {
  import opened Wrappers
  import opened NanFloat
  import opened Indicators

  /** Band width relative to the close below which the bands are squeezed. */
  const SqueezeRatio: real := 0.005
  /** The close may sit up to 0.1% above the lower band and still touch it. */
  const LowerBandTolerance: real := 1.001
  /** RSI strictly below this is oversold. */
  const RsiOversoldLevel: real := 30.0
  /** Volume change, in per cent, strictly above this is a spike. */
  const VolumeSpikePct: real := 20.0
  /** Number of conditions needed for a strong long signal. */
  const StrongLongThreshold: nat := 3

  /** The four conditions, under the names the strategy gives them. */
  datatype ConditionName = BbSqueeze | AtLowerBand | RsiOversold | VolumeSpike

  const AllConditions: set<ConditionName> := {BbSqueeze, AtLowerBand, RsiOversold, VolumeSpike}

  /** Which of the four conditions hold on a row. */
  datatype Conditions = Conditions(
    bbSqueeze: bool,
    atLowerBand: bool,
    rsiOversold: bool,
    volumeSpike: bool)

  datatype Signal = StrongLong | NoTrade

  /** Indexing the last row of an empty frame is an error. */
  datatype FrameError = EmptyFrame

  predicate Holds(c: Conditions, n: ConditionName) {
    match n
    case BbSqueeze => c.bbSqueeze
    case AtLowerBand => c.atLowerBand
    case RsiOversold => c.rsiOversold
    case VolumeSpike => c.volumeSpike
  }

  /** The names of the conditions that hold: an independent view of the count. */
  function Holding(c: Conditions): set<ConditionName> {
    set n | n in AllConditions && Holds(c, n)
  }

  /**
   * The conditions on one row.  Each is a comparison involving NaN-able
   * cells, so a NaN input makes the condition false.
   */
  function Evaluate(row: Row): (c: Conditions)
    requires row.close > 0.0
    ensures c.bbSqueeze <==>
      row.upperBand.Some? && row.lowerBand.Some?
      && row.upperBand.value - row.lowerBand.value < SqueezeRatio * row.close
    ensures c.atLowerBand <==>
      row.lowerBand.Some? && row.close <= row.lowerBand.value * LowerBandTolerance
    ensures c.rsiOversold <==> row.rsi.Some? && row.rsi.value < RsiOversoldLevel
    ensures c.volumeSpike <==> row.volumePctChange.Some? && row.volumePctChange.value > VolumeSpikePct
    ensures row.lowerBand.None? ==> !c.bbSqueeze && !c.atLowerBand
  {
    var width := Sub(row.upperBand, row.lowerBand);
    RatioBelow(if width.Some? then width.value else 0.0, row.close, SqueezeRatio);
    Conditions(
      bbSqueeze := Less(Div(width, row.close), SqueezeRatio),
      atLowerBand := AtMost(row.close, Scale(row.lowerBand, LowerBandTolerance)),
      rsiOversold := Less(row.rsi, RsiOversoldLevel),
      volumeSpike := Greater(row.volumePctChange, VolumeSpikePct))
  }

  /** Dividing by a positive close preserves a strict comparison. */
  lemma RatioBelow(x: real, d: real, k: real)
    requires d > 0.0
    ensures x / d < k <==> x < k * d
  {
    assert x / d * d == x;
    if x / d < k {
      assert x / d * d < k * d;
    } else {
      assert x / d * d >= k * d;
    }
  }

  function Indicator(b: bool): nat {
    if b then 1 else 0
  }

  /** `sum(conditions.values())`: the number of conditions that hold. */
  function Score(c: Conditions): (n: nat)
    ensures n <= |AllConditions|
    ensures n == |Holding(c)|
  {
    HoldingCardinality(c);
    Indicator(c.bbSqueeze) + Indicator(c.atLowerBand)
      + Indicator(c.rsiOversold) + Indicator(c.volumeSpike)
  }

  /** Adding a name that holds to a set that lacks it grows the set by one. */
  function AddIf(s: set<ConditionName>, n: ConditionName, b: bool): (s': set<ConditionName>)
    requires n !in s
    ensures |s'| == |s| + Indicator(b)
  {
    if b then s + {n} else s
  }

  /** The holding names, gathered one condition at a time. */
  function HoldingBuilt(c: Conditions): (s: set<ConditionName>)
    ensures |s| == Indicator(c.bbSqueeze) + Indicator(c.atLowerBand)
      + Indicator(c.rsiOversold) + Indicator(c.volumeSpike)
    ensures BbSqueeze in s <==> c.bbSqueeze
    ensures AtLowerBand in s <==> c.atLowerBand
    ensures RsiOversold in s <==> c.rsiOversold
    ensures VolumeSpike in s <==> c.volumeSpike
  {
    var s1 := AddIf({}, BbSqueeze, c.bbSqueeze);
    var s2 := AddIf(s1, AtLowerBand, c.atLowerBand);
    var s3 := AddIf(s2, RsiOversold, c.rsiOversold);
    AddIf(s3, VolumeSpike, c.volumeSpike)
  }

  lemma AllConditionsSize()
    ensures |AllConditions| == 4
  {
    var all := AddIf(AddIf(AddIf(AddIf({}, BbSqueeze, true), AtLowerBand, true), RsiOversold, true), VolumeSpike, true);
    assert AllConditions == all;
  }

  lemma HoldingIsBuilt(c: Conditions)
    ensures Holding(c) == HoldingBuilt(c)
  {
    var built := HoldingBuilt(c);
    forall n: ConditionName | n in Holding(c) ensures n in built {
      assert Holds(c, n);
    }
    forall n: ConditionName | n in built ensures n in Holding(c) {
      match n
      case BbSqueeze =>
      case AtLowerBand =>
      case RsiOversold =>
      case VolumeSpike =>
    }
  }

  lemma HoldingCardinality(c: Conditions)
    ensures |AllConditions| == 4
    ensures |Holding(c)| == Indicator(c.bbSqueeze) + Indicator(c.atLowerBand)
      + Indicator(c.rsiOversold) + Indicator(c.volumeSpike)
  {
    AllConditionsSize();
    HoldingIsBuilt(c);
  }

  /** The threshold rule on a set of conditions. */
  function Decide(c: Conditions): (s: Signal)
    ensures s == StrongLong <==> |Holding(c)| >= StrongLongThreshold
  {
    if Score(c) >= StrongLongThreshold then StrongLong else NoTrade
  }

  /**
   * `generate_signal`: the decision on the last row of the frame; an empty
   * frame has no last row.
   */
  function GenerateSignal(frame: seq<Row>): (r: Result<Signal, FrameError>)
    requires |frame| > 0 ==> frame[|frame| - 1].close > 0.0
    ensures r.Failure? <==> |frame| == 0
    ensures r.Success? ==>
      (r.value == StrongLong <==> |Holding(Evaluate(frame[|frame| - 1]))| >= StrongLongThreshold)
  {
    if |frame| == 0 then Failure(EmptyFrame)
    else Success(Decide(Evaluate(frame[|frame| - 1])))
  }

  /** The string the strategy returns for a signal. */
  function Text(s: Signal): (t: string)
    ensures t == "STRONG LONG" || t == "NO TRADE"
    ensures t == "STRONG LONG" <==> s == StrongLong
  {
    match s
    case StrongLong => "STRONG LONG"
    case NoTrade => "NO TRADE"
  }

  /**
   * The last row of the frame `calculate_indicators` builds, written from
   * the inputs directly: the last candle's close, the last band and RSI
   * values, and the change from the second-to-last volume.
   */
  function LastEnrichedRow(candles: seq<Candle>, bands: seq<Bands>, rsi: seq<Float>): Row
    requires |candles| > 0 && |bands| == |candles| && |rsi| == |candles|
    requires PctChangeDefined(Volumes(candles))
  {
    var n := |candles|;
    Row(candles[n - 1].close, bands[n - 1].upper, bands[n - 1].middle, bands[n - 1].lower, rsi[n - 1],
        if n == 1 then None else Some(RelativeChange(candles[n - 2].volume, candles[n - 1].volume)))
  }

  /**
   * The strategy's `calculate_indicators` followed by its `generate_signal`,
   * the order in which the bot calls them: the signal reads
   * only the last candle, the last band and RSI values, and the volume of
   * the candle before the last.
   */
  function SignalFromCandles(candles: seq<Candle>, bands: seq<Bands>, rsi: seq<Float>): (r: Result<Signal, FrameError>)
    requires |bands| == |candles| && |rsi| == |candles|
    requires PctChangeDefined(Volumes(candles))
    requires |candles| > 0 ==> candles[|candles| - 1].close > 0.0
    ensures r.Failure? <==> |candles| == 0
    ensures r.Success? ==> r.value == Decide(Evaluate(LastEnrichedRow(candles, bands, rsi)))
  {
    GenerateSignal(CalculateIndicators(candles, bands, rsi))
  }
}
