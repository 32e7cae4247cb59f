/**
 * Properties of the Bollinger-band signal: the threshold rule read as
 * "at most one condition fails", monotonicity in the conditions, the
 * effect of NaN cells, the exact boundaries of each threshold, and the
 * fact that only the last row of the frame is read.
 */
module SignalProperties {
  import opened Wrappers
  import opened NanFloat
  import opened Indicators
  import opened BollingerBand

  /** Every condition other than `n` holds. */
  predicate AllBut(c: Conditions, n: ConditionName) {
    forall m :: m != n ==> Holds(c, m)
  }

  /** All but one holding is enough for a strong long. */
  lemma AllButOneIsStrongLong(c: Conditions, n: ConditionName)
    requires AllBut(c, n)
    ensures Decide(c) == StrongLong
  {
    assert Holds(c, BbSqueeze) || n == BbSqueeze;
    assert Holds(c, AtLowerBand) || n == AtLowerBand;
    assert Holds(c, RsiOversold) || n == RsiOversold;
    assert Holds(c, VolumeSpike) || n == VolumeSpike;
  }

  /** Three of four means at most one condition fails. */
  lemma StrongLongIffAtMostOneFails(c: Conditions)
    ensures Decide(c) == StrongLong <==> exists n :: AllBut(c, n)
  {
    if exists n :: AllBut(c, n) {
      var n :| AllBut(c, n);
      AllButOneIsStrongLong(c, n);
    }
    if Decide(c) == StrongLong {
      AllConditionsSize();
      var n := if !c.bbSqueeze then BbSqueeze
        else if !c.atLowerBand then AtLowerBand
        else if !c.rsiOversold then RsiOversold
        else VolumeSpike;
      assert AllBut(c, n) by {
        forall m | m != n ensures Holds(c, m) {
          match m
          case BbSqueeze =>
          case AtLowerBand =>
          case RsiOversold =>
          case VolumeSpike =>
        }
      }
    }
  }

  /** Every condition that holds in `a` also holds in `b`. */
  predicate Implies(a: Conditions, b: Conditions) {
    forall n :: Holds(a, n) ==> Holds(b, n)
  }

  /** More conditions never lower the count and never withdraw a strong long. */
  lemma MoreConditionsNeverWeaken(a: Conditions, b: Conditions)
    requires Implies(a, b)
    ensures Holding(a) <= Holding(b)
    ensures Score(a) <= Score(b)
    ensures Decide(a) == StrongLong ==> Decide(b) == StrongLong
    ensures Decide(b) == NoTrade ==> Decide(a) == NoTrade
  {
    assert Holds(a, BbSqueeze) ==> Holds(b, BbSqueeze);
    assert Holds(a, AtLowerBand) ==> Holds(b, AtLowerBand);
    assert Holds(a, RsiOversold) ==> Holds(b, RsiOversold);
    assert Holds(a, VolumeSpike) ==> Holds(b, VolumeSpike);
  }

  /** `c` with condition `n` forced to `v`. */
  function With(c: Conditions, n: ConditionName, v: bool): (c': Conditions)
    ensures Holds(c', n) == v
    ensures forall m :: m != n ==> Holds(c', m) == Holds(c, m)
  {
    match n
    case BbSqueeze => c.(bbSqueeze := v)
    case AtLowerBand => c.(atLowerBand := v)
    case RsiOversold => c.(rsiOversold := v)
    case VolumeSpike => c.(volumeSpike := v)
  }

  /** Turning a false condition true never turns a strong long into no trade. */
  lemma SettingOneConditionNeverWeakens(c: Conditions, n: ConditionName)
    ensures Decide(c) == StrongLong ==> Decide(With(c, n, true)) == StrongLong
  {
  }

  /** Turning a true condition false never turns no trade into a strong long. */
  lemma ClearingOneConditionNeverStrengthens(c: Conditions, n: ConditionName)
    ensures Decide(c) == NoTrade ==> Decide(With(c, n, false)) == NoTrade
  {
  }

  /**
   * With the lower band NaN, neither band condition can hold, and two of
   * four is below the threshold whatever RSI and volume say.
   */
  lemma UndefinedLowerBandMeansNoTrade(frame: seq<Row>)
    requires |frame| > 0 && frame[|frame| - 1].close > 0.0
    requires frame[|frame| - 1].lowerBand.None?
    ensures GenerateSignal(frame) == Success(NoTrade)
  {
  }

  /** Each threshold is strict or inclusive exactly as the strategy writes it. */
  lemma ThresholdBoundaries(row: Row)
    requires row.close > 0.0
    ensures row.rsi == Some(RsiOversoldLevel) ==> !Evaluate(row).rsiOversold
    ensures row.volumePctChange == Some(VolumeSpikePct) ==> !Evaluate(row).volumeSpike
    ensures row.upperBand.Some? && row.lowerBand.Some?
      && row.upperBand.value - row.lowerBand.value == SqueezeRatio * row.close
      ==> !Evaluate(row).bbSqueeze
    ensures row.lowerBand.Some? && row.close == row.lowerBand.value * LowerBandTolerance
      ==> Evaluate(row).atLowerBand
  {
  }

  /**
   * For a positive lower band, "at the lower band" means the close lies at
   * most 0.1% of the band above it (or anywhere below it).
   */
  lemma AtLowerBandWithinTenthOfPercent(row: Row)
    requires row.close > 0.0 && row.lowerBand.Some? && row.lowerBand.value > 0.0
    ensures Evaluate(row).atLowerBand <==>
      (row.close - row.lowerBand.value) / row.lowerBand.value <= 0.001
  {
    var lower := row.lowerBand.value;
    RatioAtMost(row.close - lower, lower, 0.001);
    assert lower * LowerBandTolerance == lower + 0.001 * lower;
  }

  /** Dividing by a positive number preserves a non-strict comparison. */
  lemma RatioAtMost(x: real, d: real, k: real)
    requires d > 0.0
    ensures x / d <= k <==> x <= k * d
  {
    assert x / d * d == x;
    if x / d <= k {
      assert x / d * d <= k * d;
    } else {
      assert x / d * d > k * d;
    }
  }

  /** A lower RSI never turns a strong long into no trade. */
  lemma LowerRsiNeverWeakens(row: Row, x: real)
    requires row.close > 0.0 && row.rsi.Some? && x <= row.rsi.value
    ensures Decide(Evaluate(row)) == StrongLong ==> Decide(Evaluate(row.(rsi := Some(x)))) == StrongLong
  {
  }

  /** A larger volume change never turns a strong long into no trade. */
  lemma LargerVolumeChangeNeverWeakens(row: Row, x: real)
    requires row.close > 0.0 && row.volumePctChange.Some? && x >= row.volumePctChange.value
    ensures Decide(Evaluate(row)) == StrongLong
      ==> Decide(Evaluate(row.(volumePctChange := Some(x)))) == StrongLong
  {
  }

  /** Earlier rows of the frame are never read. */
  lemma OnlyLastRowMatters(f: seq<Row>, g: seq<Row>)
    requires |f| > 0 && |g| > 0 && f[|f| - 1] == g[|g| - 1]
    requires f[|f| - 1].close > 0.0
    ensures GenerateSignal(f) == GenerateSignal(g)
  {
  }

  /** Appending a row replaces whatever the frame said with that row's decision. */
  lemma AppendedRowDecides(prefix: seq<Row>, row: Row)
    requires row.close > 0.0
    ensures GenerateSignal(prefix + [row]) == Success(Decide(Evaluate(row)))
  {
  }

  /** Appending candles never changes earlier values of the volume change column. */
  lemma {:induction false} PctChangePrefixStable(v: seq<real>, k: nat)
    requires PctChangeDefined(v) && k <= |v|
    ensures PctChangeDefined(v[..k])
    ensures PctChange(v[..k]) == PctChange(v)[..k]
  {
    PrefixDefined(v, k);
    var p := PctChange(v);
    var q := PctChange(v[..k]);
    forall i | 0 <= i < k ensures q[i] == p[i] {
      if i > 0 {
        assert v[..k][i - 1] == v[i - 1] && v[..k][i] == v[i];
      }
    }
  }

  /** A volume change above 20% is a rise of more than a fifth over the previous volume. */
  lemma SpikeIsRiseAboveOnePointTwo(prev: real, cur: real)
    requires prev > 0.0
    ensures RelativeChange(prev, cur) > VolumeSpikePct <==> cur > 1.2 * prev
    ensures RelativeChange(prev, cur) == VolumeSpikePct <==> cur == 1.2 * prev
  {
    var p := RelativeChange(prev, cur);
    assert p * prev == (cur - prev) * 100.0;
    if p > 20.0 {
      assert p * prev > 20.0 * prev;
    } else if p < 20.0 {
      assert p * prev < 20.0 * prev;
    }
  }

  /**
   * On the enriched frame, the volume condition holds exactly when the last
   * candle's volume exceeds the previous one by more than 20%; with a single
   * candle there is no previous volume and it never holds.
   */
  lemma EnrichedVolumeSpike(candles: seq<Candle>, bands: seq<Bands>, rsi: seq<Float>)
    requires |candles| > 0 && |bands| == |candles| && |rsi| == |candles|
    requires PctChangeDefined(Volumes(candles))
    requires candles[|candles| - 1].close > 0.0
    ensures |candles| == 1 ==> !Evaluate(LastEnrichedRow(candles, bands, rsi)).volumeSpike
    ensures |candles| >= 2 ==>
      (Evaluate(LastEnrichedRow(candles, bands, rsi)).volumeSpike
       <==> candles[|candles| - 1].volume > 1.2 * candles[|candles| - 2].volume)
  {
    var n := |candles|;
    if n >= 2 {
      assert Volumes(candles)[n - 2] == candles[n - 2].volume;
      SpikeIsRiseAboveOnePointTwo(candles[n - 2].volume, candles[n - 1].volume);
    }
  }

  /**
   * A single candle can give a strong long only if the other three
   * conditions all hold.
   */
  lemma SingleCandleNeedsOtherThree(candle: Candle, band: Bands, r: Float)
    requires candle.close > 0.0
    ensures SignalFromCandles([candle], [band], [r]) == Success(StrongLong) ==>
      var c := Evaluate(LastEnrichedRow([candle], [band], [r]));
      c.bbSqueeze && c.atLowerBand && c.rsiOversold
  {
  }
}
