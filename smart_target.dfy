/**
 * The target speed of the learning smart control (target.go): the learned
 * offsets for the current temperature trend are laid over the user's curve,
 * the curve is looked up at the average temperature, and the result is
 * corrected for the distance to the target temperature, the trend and
 * overheating.  Also the ramp limit applied to successive targets.
 */
module SmartTarget {
  import opened FanTypes
  import opened CurveHelpers
  import opened SmartLearning
  import opened SmartConfig

  // ---------------------------------------------------------------------
  // Offsets and rate biases for the current trend
  // ---------------------------------------------------------------------

  /**
   * The offsets used for a trend: the heating side while warming, the
   * cooling side while cooling, each when it has been learned; otherwise
   * the blend of both sides when both exist, else the legacy offsets.
   */
  function TrendOffsets(tempDelta: int, cfg: SmartControlConfig): seq<int>
  {
    if tempDelta > 0 && |cfg.learnedOffsetsHeat| > 0 then cfg.learnedOffsetsHeat
    else if tempDelta < 0 && |cfg.learnedOffsetsCool| > 0 then cfg.learnedOffsetsCool
    else if |cfg.learnedOffsetsHeat| > 0 && |cfg.learnedOffsetsCool| > 0 then Blend(cfg.learnedOffsetsHeat, cfg.learnedOffsetsCool)
    else cfg.learnedOffsets
  }

  /** `selectOffsetsForTrend`. */
  method SelectOffsetsForTrend(tempDelta: int, cfg: SmartControlConfig) returns (offsets: seq<int>)
    ensures offsets == TrendOffsets(tempDelta, cfg)
  {
    if tempDelta > 0 && |cfg.learnedOffsetsHeat| > 0 {
      return cfg.learnedOffsetsHeat;
    }
    if tempDelta < 0 && |cfg.learnedOffsetsCool| > 0 {
      return cfg.learnedOffsetsCool;
    }
    if |cfg.learnedOffsetsHeat| > 0 && |cfg.learnedOffsetsCool| > 0 {
      offsets := BlendOffsets(cfg.learnedOffsetsHeat, cfg.learnedOffsetsCool);
      return;
    }
    return cfg.learnedOffsets;
  }

  /**
   * On a normalized configuration (every offset slice one entry per curve
   * point and within the point's bounds) the offsets chosen for any trend
   * are too.
   */
  lemma TrendOffsetsInBounds(tempDelta: int, cfg: SmartControlConfig, curve: seq<FanCurvePoint>)
    requires |cfg.learnedOffsetsHeat| == |cfg.learnedOffsetsCool| == |cfg.learnedOffsets| == |curve|
    requires OffsetsInCurveBounds(cfg.learnedOffsetsHeat, curve, cfg.maxLearnOffset)
    requires OffsetsInCurveBounds(cfg.learnedOffsetsCool, curve, cfg.maxLearnOffset)
    requires OffsetsInCurveBounds(cfg.learnedOffsets, curve, cfg.maxLearnOffset)
    ensures |TrendOffsets(tempDelta, cfg)| == |curve|
    ensures OffsetsInCurveBounds(TrendOffsets(tempDelta, cfg), curve, cfg.maxLearnOffset)
  {
    if |curve| > 0 && !(tempDelta > 0) && !(tempDelta < 0) {
      BlendInBounds(cfg.learnedOffsetsHeat, cfg.learnedOffsetsCool, curve, cfg.maxLearnOffset);
    }
  }

  /**
   * The one case in which `selectRateBiasesForTrend` reads the rate slices
   * by index: a steady temperature with both sides learned.  Go panics
   * there unless both sides have an entry per rate bucket.
   */
  predicate RatesSelectable(tempDelta: int, cfg: SmartControlConfig)
  {
    tempDelta == 0 && |cfg.learnedRateHeat| > 0 && |cfg.learnedRateCool| > 0 ==>
      |cfg.learnedRateHeat| >= RateBucketCount() && |cfg.learnedRateCool| >= RateBucketCount()
  }

  /**
   * The rate biases used for a trend: the matching side when learned,
   * else the per-bucket truncated average of both sides when both exist,
   * else none.
   */
  function TrendRates(tempDelta: int, cfg: SmartControlConfig): seq<int>
    requires RatesSelectable(tempDelta, cfg)
  {
    if tempDelta > 0 && |cfg.learnedRateHeat| > 0 then cfg.learnedRateHeat
    else if tempDelta < 0 && |cfg.learnedRateCool| > 0 then cfg.learnedRateCool
    else if |cfg.learnedRateHeat| > 0 && |cfg.learnedRateCool| > 0 then
      seq(RateBucketCount(), i requires 0 <= i < RateBucketCount() =>
        TruncDiv(cfg.learnedRateHeat[i] + cfg.learnedRateCool[i], 2))
    else []
  }

  /** `selectRateBiasesForTrend`; Go's nil is the empty slice. */
  method SelectRateBiasesForTrend(tempDelta: int, cfg: SmartControlConfig) returns (rates: seq<int>)
    requires RatesSelectable(tempDelta, cfg)
    ensures rates == TrendRates(tempDelta, cfg)
  {
    if tempDelta > 0 && |cfg.learnedRateHeat| > 0 {
      return cfg.learnedRateHeat;
    }
    if tempDelta < 0 && |cfg.learnedRateCool| > 0 {
      return cfg.learnedRateCool;
    }
    if |cfg.learnedRateHeat| > 0 && |cfg.learnedRateCool| > 0 {
      var blended := new int[RateBucketCount()];
      for i := 0 to blended.Length
        invariant forall k :: 0 <= k < i ==> blended[k] == TruncDiv(cfg.learnedRateHeat[k] + cfg.learnedRateCool[k], 2)
      {
        blended[i] := TruncDiv(cfg.learnedRateHeat[i] + cfg.learnedRateCool[i], 2);
      }
      return blended[..];
    }
    return [];
  }

  /**
   * The chosen rate biases stay within the cap when both sides do, and on a
   * steady temperature with both sides of the normal length they are the
   * same blend as the curve offsets use.
   */
  lemma TrendRatesWithinCap(tempDelta: int, cfg: SmartControlConfig)
    requires RatesSelectable(tempDelta, cfg)
    requires RatesWithinCap(cfg.learnedRateHeat, cfg.maxLearnOffset) && RatesWithinCap(cfg.learnedRateCool, cfg.maxLearnOffset)
    ensures RatesWithinCap(TrendRates(tempDelta, cfg), cfg.maxLearnOffset)
    ensures tempDelta == 0 && |cfg.learnedRateHeat| == |cfg.learnedRateCool| == RateBucketCount() ==>
      TrendRates(tempDelta, cfg) == Blend(cfg.learnedRateHeat, cfg.learnedRateCool)
  {
    var r := TrendRates(tempDelta, cfg);
    var cap := RateBiasCap(cfg.maxLearnOffset);
    forall i | 0 <= i < |r|
      ensures -cap <= r[i] <= cap
    {
      if tempDelta == 0 && |cfg.learnedRateHeat| > 0 && |cfg.learnedRateCool| > 0 {
        AverageInInterval(cfg.learnedRateHeat[i], cfg.learnedRateCool[i], -cap, cap);
      }
    }
  }

  /** The rate bias for a temperature change: the entry of its bucket, 0 unless the chosen slice has one entry per bucket. */
  function SampledRateBias(tempDelta: int, cfg: SmartControlConfig): int
    requires RatesSelectable(tempDelta, cfg)
  {
    var rates := TrendRates(tempDelta, cfg);
    if |rates| != RateBucketCount() then 0 else rates[RateBucketIndex(tempDelta)]
  }

  /** `sampleRateBias`. */
  method SampleRateBias(tempDelta: int, cfg: SmartControlConfig) returns (bias: int)
    requires RatesSelectable(tempDelta, cfg)
    ensures bias == SampledRateBias(tempDelta, cfg)
  {
    var rateBiases := SelectRateBiasesForTrend(tempDelta, cfg);
    if |rateBiases| != RateBucketCount() {
      return 0;
    }
    return rateBiases[RateBucketIndex(tempDelta)];
  }

  /** With both sides within the cap, the sampled bias is too; with nothing learned it is 0. */
  lemma SampledRateBiasBounded(tempDelta: int, cfg: SmartControlConfig)
    requires RatesSelectable(tempDelta, cfg)
    ensures RatesWithinCap(cfg.learnedRateHeat, cfg.maxLearnOffset) && RatesWithinCap(cfg.learnedRateCool, cfg.maxLearnOffset) ==>
      -RateBiasCap(cfg.maxLearnOffset) <= SampledRateBias(tempDelta, cfg) <= RateBiasCap(cfg.maxLearnOffset)
    ensures |cfg.learnedRateHeat| == 0 && |cfg.learnedRateCool| == 0 ==> SampledRateBias(tempDelta, cfg) == 0
  {
    if RatesWithinCap(cfg.learnedRateHeat, cfg.maxLearnOffset) && RatesWithinCap(cfg.learnedRateCool, cfg.maxLearnOffset) {
      TrendRatesWithinCap(tempDelta, cfg);
    }
  }

  // ---------------------------------------------------------------------
  // The effective curve
  // ---------------------------------------------------------------------

  /** The raw offset of point `i`: from the trend's offsets, else the legacy ones, else 0. */
  function OffsetFor(active: seq<int>, legacy: seq<int>, i: nat): int
  {
    if i < |active| then active[i] else if i < |legacy| then legacy[i] else 0
  }

  /** Point `i` of the curve with its offset clamped to the point's bounds and its speed kept between the edges. */
  function EffectivePoint(curve: seq<FanCurvePoint>, active: seq<int>, legacy: seq<int>, maxLearnOffset: int, i: nat): FanCurvePoint
    requires i < |curve|
  {
    var (left, right) := CurveEdgeRPMBounds(curve);
    var offset := ClampOffsetForPoint(OffsetFor(active, legacy, i), curve[i].rpm, left, right, maxLearnOffset);
    FanCurvePoint(curve[i].temperature, ClampInt(curve[i].rpm + offset, left, right))
  }

  function EffectivePoints(curve: seq<FanCurvePoint>, active: seq<int>, legacy: seq<int>, maxLearnOffset: int): seq<FanCurvePoint>
  {
    seq(|curve|, i requires 0 <= i < |curve| => EffectivePoint(curve, active, legacy, maxLearnOffset, i))
  }

  /** The curve the lookup sees: the offset points, with speeds then made non-decreasing. */
  function EffectiveCurve(curve: seq<FanCurvePoint>, active: seq<int>, legacy: seq<int>, maxLearnOffset: int): seq<FanCurvePoint>
  {
    NonDecreasingCurve(EffectivePoints(curve, active, legacy, maxLearnOffset))
  }

  /**
   * The effective curve keeps the user's temperatures, never leaves the
   * speed range between the curve's end points, and never decreases,
   * whatever the learned offsets are.
   */
  lemma EffectiveCurveShape(curve: seq<FanCurvePoint>, active: seq<int>, legacy: seq<int>, maxLearnOffset: int)
    ensures var c := EffectiveCurve(curve, active, legacy, maxLearnOffset);
      var (left, right) := CurveEdgeRPMBounds(curve);
      && |c| == |curve|
      && (forall i :: 0 <= i < |c| ==> c[i].temperature == curve[i].temperature && left <= c[i].rpm <= right)
      && (forall i, j :: 0 <= i <= j < |c| ==> c[i].rpm <= c[j].rpm)
  {
    var p := EffectivePoints(curve, active, legacy, maxLearnOffset);
    var c := NonDecreasingCurve(p);
    var (left, right) := CurveEdgeRPMBounds(curve);
    NonDecreasingCurveShape(p);
    forall i | 0 <= i < |c|
      ensures c[i].temperature == curve[i].temperature && left <= c[i].rpm <= right
    {
      var w := PrefixMaxWitness(p, i);
      EffectivePointInRange(curve, active, legacy, maxLearnOffset, i);
      EffectivePointInRange(curve, active, legacy, maxLearnOffset, w);
      assert c[i].rpm == p[w].rpm;
    }
  }

  lemma EffectivePointInRange(curve: seq<FanCurvePoint>, active: seq<int>, legacy: seq<int>, maxLearnOffset: int, i: nat)
    requires i < |curve|
    ensures var p := EffectivePoints(curve, active, legacy, maxLearnOffset);
      && p[i].temperature == curve[i].temperature
      && CurveEdgeRPMBounds(curve).0 <= p[i].rpm <= CurveEdgeRPMBounds(curve).1
  {
  }

  /**
   * Without learned offsets the effective curve is the user's curve, as
   * long as that curve never decreases.
   */
  lemma EffectiveCurveWithoutOffsets(curve: seq<FanCurvePoint>, active: seq<int>, legacy: seq<int>, maxLearnOffset: int)
    requires forall i, j :: 0 <= i <= j < |curve| ==> curve[i].rpm <= curve[j].rpm
    requires forall i :: 0 <= i < |active| ==> active[i] == 0
    requires forall i :: 0 <= i < |legacy| ==> legacy[i] == 0
    ensures EffectiveCurve(curve, active, legacy, maxLearnOffset) == curve
  {
    var p := EffectivePoints(curve, active, legacy, maxLearnOffset);
    forall i | 0 <= i < |curve|
      ensures p[i] == curve[i]
    {
      assert curve[0].rpm <= curve[i].rpm <= curve[|curve| - 1].rpm;
    }
    assert p == curve;
    NonDecreasingCurveFixed(curve);
  }

  // ---------------------------------------------------------------------
  // Target speed
  // ---------------------------------------------------------------------

  /** Outside the hysteresis band, the temperature error times a gain growing with aggressiveness. */
  function ErrorTerm(avgTemp: int, cfg: SmartControlConfig): int
  {
    var tempError := avgTemp - cfg.targetTemp;
    if AbsInt(tempError) > cfg.hysteresis then tempError * (12 + cfg.aggressiveness * 4) else 0
  }

  /**
   * The trend correction: while warming, a boost when the temperature is
   * within the preheat band below the target plus a term proportional to
   * the rise; while cooling, a term proportional to the fall.
   */
  function TrendTerm(avgTemp: int, tempDelta: int, cfg: SmartControlConfig): int
  {
    if tempDelta > 0 then
      var preheatBand := cfg.hysteresis + 4 + TruncDiv(cfg.trendGain, 2);
      var distanceToTarget := cfg.targetTemp - avgTemp;
      var boost := if distanceToTarget >= 0 && distanceToTarget <= preheatBand
        then (preheatBand - distanceToTarget) * (4 + cfg.aggressiveness + cfg.trendGain) else 0;
      boost + tempDelta * (8 + cfg.aggressiveness * 2 + cfg.trendGain * 3)
    else if tempDelta < 0 then tempDelta * (1 + TruncDiv(cfg.trendGain, 3))
    else 0
  }

  /** The overheat boost, 15 degrees or more above the target. */
  function OverheatTerm(avgTemp: int, cfg: SmartControlConfig): int
  {
    if avgTemp >= cfg.targetTemp + 15 then 320 + cfg.overheatWeight * 15 else 0
  }

  /** Everything added to the curve's speed before the final clamp. */
  function TargetAdjustment(avgTemp: int, lastAvgTemp: int, cfg: SmartControlConfig): int
    requires RatesSelectable(avgTemp - lastAvgTemp, cfg)
  {
    var tempDelta := avgTemp - lastAvgTemp;
    ErrorTerm(avgTemp, cfg) + SampledRateBias(tempDelta, cfg) + TrendTerm(avgTemp, tempDelta, cfg) + OverheatTerm(avgTemp, cfg)
  }

  /** The speed the curve gives, on the effective curve for the current trend. */
  function CurveSpeed(avgTemp: int, lastAvgTemp: int, curve: seq<FanCurvePoint>, cfg: SmartControlConfig,
                      lookup: (int, seq<FanCurvePoint>) -> int): int
  {
    lookup(avgTemp, EffectiveCurve(curve, TrendOffsets(avgTemp - lastAvgTemp, cfg), cfg.learnedOffsets, cfg.maxLearnOffset))
  }

  /**
   * `CalculateTargetRPM`.  `lookup` stands for the plain curve lookup of
   * the temperature package.  The result is 0 when the curve gives no
   * positive speed, else the curve's speed plus the corrections, clamped
   * to 0..4000.
   */
  method CalculateTargetRPM(avgTemp: int, lastAvgTemp: int, curve: seq<FanCurvePoint>, cfg: SmartControlConfig,
                            lookup: (int, seq<FanCurvePoint>) -> int) returns (target: int)
    requires RatesSelectable(avgTemp - lastAvgTemp, cfg)
    ensures 0 <= target <= 4000
    ensures CurveSpeed(avgTemp, lastAvgTemp, curve, cfg, lookup) <= 0 ==> target == 0
    ensures CurveSpeed(avgTemp, lastAvgTemp, curve, cfg, lookup) > 0 ==>
      target == ClampInt(CurveSpeed(avgTemp, lastAvgTemp, curve, cfg, lookup) + TargetAdjustment(avgTemp, lastAvgTemp, cfg), 0, 4000)
  {
    var tempDelta := avgTemp - lastAvgTemp;
    var effective := new FanCurvePoint[|curve|];
    var activeOffsets := SelectOffsetsForTrend(tempDelta, cfg);
    var (left, right) := CurveEdgeRPMBounds(curve);
    for i := 0 to |curve|
      invariant forall k :: 0 <= k < i ==> effective[k] == EffectivePoint(curve, activeOffsets, cfg.learnedOffsets, cfg.maxLearnOffset, k)
    {
      var offset := 0;
      if i < |activeOffsets| {
        offset := activeOffsets[i];
      } else if i < |cfg.learnedOffsets| {
        offset := cfg.learnedOffsets[i];
      }
      offset := ClampOffsetForPoint(offset, curve[i].rpm, left, right, cfg.maxLearnOffset);
      effective[i] := FanCurvePoint(curve[i].temperature, ClampInt(curve[i].rpm + offset, left, right));
    }
    assert effective[..] == EffectivePoints(curve, activeOffsets, cfg.learnedOffsets, cfg.maxLearnOffset);
    EnforceNonDecreasingRPM(effective);

    var targetRPM := lookup(avgTemp, effective[..]);
    if targetRPM <= 0 {
      return 0;
    }

    var tempError := avgTemp - cfg.targetTemp;
    if AbsInt(tempError) > cfg.hysteresis {
      var gain := 12 + cfg.aggressiveness * 4;
      targetRPM := targetRPM + tempError * gain;
    }

    var bias := SampleRateBias(tempDelta, cfg);
    targetRPM := targetRPM + bias;

    if tempDelta > 0 {
      var preheatBand := cfg.hysteresis + 4 + TruncDiv(cfg.trendGain, 2);
      var distanceToTarget := cfg.targetTemp - avgTemp;
      if distanceToTarget >= 0 && distanceToTarget <= preheatBand {
        var preemptiveBoost := (preheatBand - distanceToTarget) * (4 + cfg.aggressiveness + cfg.trendGain);
        targetRPM := targetRPM + preemptiveBoost;
      }
      targetRPM := targetRPM + tempDelta * (8 + cfg.aggressiveness * 2 + cfg.trendGain * 3);
    }
    if tempDelta < 0 {
      targetRPM := targetRPM + tempDelta * (1 + TruncDiv(cfg.trendGain, 3));
    }

    if avgTemp >= cfg.targetTemp + 15 {
      targetRPM := targetRPM + 320 + cfg.overheatWeight * 15;
    }

    return ClampInt(targetRPM, 0, 4000);
  }

  /**
   * At a steady temperature inside the hysteresis band, with no rate bias
   * for a steady trend, the corrections cancel and the target follows the
   * learned curve.
   */
  lemma SteadyTargetFollowsCurve(avgTemp: int, lastAvgTemp: int, cfg: SmartControlConfig)
    requires avgTemp == lastAvgTemp
    requires RatesSelectable(0, cfg) && SampledRateBias(0, cfg) == 0
    requires AbsInt(avgTemp - cfg.targetTemp) <= cfg.hysteresis && cfg.hysteresis < 15
    ensures TargetAdjustment(avgTemp, lastAvgTemp, cfg) == 0
  {
  }

  /**
   * Above the hysteresis band and not cooling, the corrections add at
   * least the rate bias plus 12 rpm per degree above the target; below it
   * and not warming, they take away at least 12 rpm per degree.  (With
   * non-negative gains, as normalization leaves them.)
   */
  lemma AdjustmentPushesTowardTarget(avgTemp: int, lastAvgTemp: int, cfg: SmartControlConfig)
    requires RatesSelectable(avgTemp - lastAvgTemp, cfg)
    requires cfg.aggressiveness >= 0 && cfg.trendGain >= 0 && cfg.overheatWeight >= 0 && cfg.hysteresis >= 0
    ensures avgTemp - cfg.targetTemp > cfg.hysteresis && avgTemp >= lastAvgTemp ==>
      TargetAdjustment(avgTemp, lastAvgTemp, cfg) >= SampledRateBias(avgTemp - lastAvgTemp, cfg) + 12 * (avgTemp - cfg.targetTemp)
    ensures cfg.targetTemp - avgTemp > cfg.hysteresis && avgTemp <= lastAvgTemp ==>
      TargetAdjustment(avgTemp, lastAvgTemp, cfg) <= SampledRateBias(avgTemp - lastAvgTemp, cfg) - 12 * (cfg.targetTemp - avgTemp)
  {
    var tempError := avgTemp - cfg.targetTemp;
    var tempDelta := avgTemp - lastAvgTemp;
    var gain := 12 + cfg.aggressiveness * 4;
    assert gain >= 12;
    if tempError > cfg.hysteresis && tempDelta >= 0 {
      MulMonotone(tempError, 12, gain);
      if tempDelta > 0 {
        MulNonNegative(tempDelta, 8 + cfg.aggressiveness * 2 + cfg.trendGain * 3);
      }
      MulNonNegative(cfg.overheatWeight, 15);
    }
    if -tempError > cfg.hysteresis && tempDelta <= 0 {
      MulMonotone(-tempError, 12, gain);
      if tempDelta < 0 {
        MulNonNegative(-tempDelta, 1 + TruncDiv(cfg.trendGain, 3));
      }
    }
  }

  lemma MulMonotone(x: int, a: int, b: int)
    requires x >= 0 && a <= b
    ensures x * a <= x * b
  {
  }

  lemma MulNonNegative(x: int, y: int)
    requires x >= 0 && y >= 0
    ensures x * y >= 0
  {
  }

  // ---------------------------------------------------------------------
  // Ramp limit
  // ---------------------------------------------------------------------

  /**
   * `ApplyRampLimit`: a rise is limited to `upLimit` above the last speed
   * and a fall to `downLimit` below it; the target is returned when it is
   * within reach.
   */
  function ApplyRampLimit(targetRPM: int, lastRPM: int, upLimit: int, downLimit: int): (r: int)
    ensures targetRPM == lastRPM ==> r == targetRPM
    ensures targetRPM > lastRPM ==> r <= targetRPM && r - lastRPM <= upLimit && (r == targetRPM || r - lastRPM == upLimit)
    ensures targetRPM < lastRPM ==> r >= targetRPM && lastRPM - r <= downLimit && (r == targetRPM || lastRPM - r == downLimit)
  {
    if targetRPM > lastRPM then Min(lastRPM + upLimit, targetRPM)
    else if targetRPM < lastRPM then Max(lastRPM - downLimit, targetRPM)
    else targetRPM
  }

  /**
   * With non-negative limits the limited speed lies between the last speed
   * and the target, equals the target exactly when the step needed is
   * within the limit, and with positive limits moves strictly closer to it.
   */
  lemma RampLimitBetween(targetRPM: int, lastRPM: int, upLimit: int, downLimit: int)
    requires upLimit >= 0 && downLimit >= 0
    ensures var r := ApplyRampLimit(targetRPM, lastRPM, upLimit, downLimit);
      && Min(lastRPM, targetRPM) <= r <= Max(lastRPM, targetRPM)
      && (r == targetRPM <==> -downLimit <= targetRPM - lastRPM <= upLimit)
      && (upLimit > 0 && downLimit > 0 && targetRPM != lastRPM ==> AbsInt(targetRPM - r) < AbsInt(targetRPM - lastRPM))
  {
  }
}
