/**
 * Normalisation of the smart-control configuration: out-of-range tuning
 * values fall back to the defaults, the learned offsets are resized to the
 * curve and clamped, and the legacy offsets are rebuilt from the blend of
 * the heating and cooling offsets.
 */
module SmartConfig {
  import opened FanTypes
  import opened CurveHelpers
  import opened SmartLearning

  // ---------------------------------------------------------------------
  // Blending
  // ---------------------------------------------------------------------

  /** Entry `i` of a slice, 0 past its end. */
  function At(s: seq<int>, i: nat): int
  {
    if i < |s| then s[i] else 0
  }

  /** The blend of heating and cooling offsets, as a value: the truncated average per point, a missing side read as 0. */
  function Blend(heat: seq<int>, cool: seq<int>): seq<int>
  {
    seq(Max(|heat|, |cool|), i requires 0 <= i < Max(|heat|, |cool|) => TruncDiv(At(heat, i) + At(cool, i), 2))
  }

  /**
   * `BlendOffsets`: empty (Go's nil) when both sides are empty, else one
   * entry per point of the longer side, each the average of the two sides
   * truncated toward zero.
   */
  method BlendOffsets(heatOffsets: seq<int>, coolOffsets: seq<int>) returns (blended: seq<int>)
    ensures |heatOffsets| == 0 && |coolOffsets| == 0 ==> blended == []
    ensures |blended| == Max(|heatOffsets|, |coolOffsets|)
    ensures forall i :: 0 <= i < |blended| ==>
      blended[i] == TruncDiv((if i < |heatOffsets| then heatOffsets[i] else 0) + (if i < |coolOffsets| then coolOffsets[i] else 0), 2)
    ensures blended == Blend(heatOffsets, coolOffsets)
  {
    if |heatOffsets| == 0 && |coolOffsets| == 0 {
      return [];
    }
    var size := Max(|coolOffsets|, |heatOffsets|);
    var a := new int[size];
    for i := 0 to size
      invariant forall k :: 0 <= k < i ==> a[k] == TruncDiv(At(heatOffsets, k) + At(coolOffsets, k), 2)
    {
      var heat := 0;
      if i < |heatOffsets| {
        heat := heatOffsets[i];
      }
      var cool := 0;
      if i < |coolOffsets| {
        cool := coolOffsets[i];
      }
      a[i] := TruncDiv(heat + cool, 2);
    }
    blended := a[..];
  }

  /** Blending a side with itself gives it back, and the order of the sides does not matter. */
  lemma BlendSelfAndSymmetric(a: seq<int>, b: seq<int>)
    ensures Blend(a, a) == a
    ensures Blend(a, b) == Blend(b, a)
  {
    assert forall i :: 0 <= i < |a| ==> TruncDiv(a[i] + a[i], 2) == a[i];
  }

  /** The truncated average of two values inside an interval lies inside it. */
  lemma AverageInInterval(x: int, y: int, lo: int, hi: int)
    requires lo <= x <= hi && lo <= y <= hi
    ensures lo <= TruncDiv(x + y, 2) <= hi
  {
    TruncDivBounds(x + y, 2);
  }

  /** Blending two offset slices that respect the curve's bounds gives one that respects them too. */
  lemma BlendInBounds(heat: seq<int>, cool: seq<int>, curve: seq<FanCurvePoint>, maxLearnOffset: int)
    requires |heat| == |cool| == |curve|
    requires OffsetsInCurveBounds(heat, curve, maxLearnOffset) && OffsetsInCurveBounds(cool, curve, maxLearnOffset)
    ensures OffsetsInCurveBounds(Blend(heat, cool), curve, maxLearnOffset)
  {
    var b := Blend(heat, cool);
    var (left, right) := CurveEdgeRPMBounds(curve);
    forall i | 0 <= i < |b|
      ensures InPointBounds(b[i], curve[i].rpm, left, right, maxLearnOffset)
    {
      var lo := OffsetLow(curve[i].rpm, left, maxLearnOffset);
      var hi := OffsetHigh(curve[i].rpm, right, maxLearnOffset);
      assert InPointBounds(heat[i], curve[i].rpm, left, right, maxLearnOffset);
      assert InPointBounds(cool[i], curve[i].rpm, left, right, maxLearnOffset);
      if lo <= hi {
        AverageInInterval(heat[i], cool[i], lo, hi);
      }
    }
  }

  /** Constraining offsets that already respect the bounds returns them as they are. */
  lemma ConstrainFixesInBounds(offsets: seq<int>, normalized: seq<int>, curve: seq<FanCurvePoint>, maxLearnOffset: int)
    requires |curve| > 0 && |normalized| == |offsets| <= |curve|
    requires OffsetsInCurveBounds(offsets, curve, maxLearnOffset)
    requires forall i :: 0 <= i < |offsets| ==> normalized[i] == ConstrainedOffset(offsets, curve, maxLearnOffset, i)
    ensures normalized == offsets
  {
    var (left, right) := CurveEdgeRPMBounds(curve);
    forall i | 0 <= i < |offsets|
      ensures normalized[i] == offsets[i]
    {
      assert InPointBounds(offsets[i], curve[i].rpm, left, right, maxLearnOffset);
    }
  }

  /** Whatever `constrainOffsetsToCurveBounds` returns for a slice no longer than the curve respects the bounds. */
  lemma ConstrainedRespectsBounds(offsets: seq<int>, normalized: seq<int>, curve: seq<FanCurvePoint>, maxLearnOffset: int)
    requires |curve| > 0 && |normalized| == |offsets| <= |curve|
    requires forall i :: 0 <= i < |offsets| ==> normalized[i] == ConstrainedOffset(offsets, curve, maxLearnOffset, i)
    ensures OffsetsInCurveBounds(normalized, curve, maxLearnOffset)
  {
    var (left, right) := CurveEdgeRPMBounds(curve);
    forall i | 0 <= i < |normalized|
      ensures InPointBounds(normalized[i], curve[i].rpm, left, right, maxLearnOffset)
    {
      assert normalized[i] == ClampOffsetForPoint(offsets[i], curve[i].rpm, left, right, maxLearnOffset);
    }
  }

  // ---------------------------------------------------------------------
  // Tuning scalars
  // ---------------------------------------------------------------------

  /** A scalar after normalisation: kept when inside `lo..hi`, else the default. */
  predicate ScalarNormalized(before: int, after: int, lo: int, hi: int, default: int)
  {
    (lo <= before <= hi ==> after == before) && (!(lo <= before <= hi) ==> after == default)
  }

  /** Every tuning scalar inside the range `NormalizeConfig` accepts. */
  predicate ScalarsInRange(c: SmartControlConfig)
  {
    && 45 <= c.targetTemp <= 90
    && 1 <= c.aggressiveness <= 10
    && 0 <= c.hysteresis <= 8
    && 20 <= c.minRPMChange <= 400
    && 50 <= c.rampUpLimit <= 1200
    && 50 <= c.rampDownLimit <= 1200
    && 1 <= c.learnRate <= 10
    && 3 <= c.learnWindow <= 24
    && 1 <= c.learnDelay <= 8
    && 1 <= c.overheatWeight <= 12
    && 1 <= c.rpmDeltaWeight <= 12
    && 0 <= c.noiseWeight <= 12
    && 1 <= c.trendGain <= 12
    && 100 <= c.maxLearnOffset <= 2000
  }

  /** Each scalar of `after` is the one of `before` if that was in range, else the default (the ramp-down limit, capped later, apart). */
  predicate ScalarsNormalized(before: SmartControlConfig, after: SmartControlConfig, d: SmartControlConfig)
  {
    && ScalarNormalized(before.targetTemp, after.targetTemp, 45, 90, d.targetTemp)
    && ScalarNormalized(before.aggressiveness, after.aggressiveness, 1, 10, d.aggressiveness)
    && ScalarNormalized(before.hysteresis, after.hysteresis, 0, 8, d.hysteresis)
    && ScalarNormalized(before.minRPMChange, after.minRPMChange, 20, 400, d.minRPMChange)
    && ScalarNormalized(before.rampUpLimit, after.rampUpLimit, 50, 1200, d.rampUpLimit)
    && ScalarNormalized(before.learnRate, after.learnRate, 1, 10, d.learnRate)
    && ScalarNormalized(before.learnWindow, after.learnWindow, 3, 24, d.learnWindow)
    && ScalarNormalized(before.learnDelay, after.learnDelay, 1, 8, d.learnDelay)
    && ScalarNormalized(before.overheatWeight, after.overheatWeight, 1, 12, d.overheatWeight)
    && ScalarNormalized(before.rpmDeltaWeight, after.rpmDeltaWeight, 1, 12, d.rpmDeltaWeight)
    && ScalarNormalized(before.noiseWeight, after.noiseWeight, 0, 12, d.noiseWeight)
    && ScalarNormalized(before.trendGain, after.trendGain, 1, 12, d.trendGain)
    && ScalarNormalized(before.maxLearnOffset, after.maxLearnOffset, 100, 2000, d.maxLearnOffset)
  }

  /** The same tuning scalars, the ramp-down limit apart. */
  predicate SameScalars(a: SmartControlConfig, b: SmartControlConfig)
  {
    && a.targetTemp == b.targetTemp && a.aggressiveness == b.aggressiveness && a.hysteresis == b.hysteresis
    && a.minRPMChange == b.minRPMChange && a.rampUpLimit == b.rampUpLimit && a.learnRate == b.learnRate
    && a.learnWindow == b.learnWindow && a.learnDelay == b.learnDelay && a.overheatWeight == b.overheatWeight
    && a.rpmDeltaWeight == b.rpmDeltaWeight && a.noiseWeight == b.noiseWeight && a.trendGain == b.trendGain
    && a.maxLearnOffset == b.maxLearnOffset
  }

  /** Normalised scalars stay normalised when only other fields change. */
  lemma ScalarsNormalizedTransfer(before: SmartControlConfig, after: SmartControlConfig, after2: SmartControlConfig, d: SmartControlConfig)
    requires ScalarsNormalized(before, after, d) && SameScalars(after, after2)
    ensures ScalarsNormalized(before, after2, d)
  {
  }

  /** The defaults are accepted as they are: every scalar is in range and the ramp-down limit is within 300 of ramp-up. */
  lemma DefaultsAccepted(curve: seq<FanCurvePoint>)
    ensures ScalarsInRange(DefaultSmartControlConfig(curve))
    ensures DefaultSmartControlConfig(curve).rampDownLimit <= DefaultSmartControlConfig(curve).rampUpLimit + 300
  {
  }

  /** One range check of `NormalizeConfig`: a value outside `lo..hi` is replaced by the default. */
  method NormalizeScalar(value: int, lo: int, hi: int, default: int) returns (r: int, changed: bool)
    requires lo <= default <= hi
    ensures ScalarNormalized(value, r, lo, hi, default) && lo <= r <= hi
    ensures changed <==> r != value
  {
    if value < lo || value > hi {
      return default, true;
    }
    return value, false;
  }

  /**
   * The scalar part of `NormalizeConfig`: the Learning flag set to
   * `learning` and each scalar out of its range replaced by the default;
   * changed exactly when something was replaced.
   */
  method NormalizeScalars(cfg: SmartControlConfig, defaults: SmartControlConfig, learning: bool) returns (c: SmartControlConfig, changed: bool)
    requires ScalarsInRange(defaults)
    ensures c.learning == learning
    ensures ScalarsInRange(c) && ScalarsNormalized(cfg, c, defaults)
    ensures ScalarNormalized(cfg.rampDownLimit, c.rampDownLimit, 50, 1200, defaults.rampDownLimit)
    ensures ScalarsInRange(cfg) && cfg.learning == learning ==> c == cfg
    ensures c.enabled == cfg.enabled && c.learnedOffsets == cfg.learnedOffsets
    ensures c.learnedOffsetsHeat == cfg.learnedOffsetsHeat && c.learnedOffsetsCool == cfg.learnedOffsetsCool
    ensures c.learnedRateHeat == cfg.learnedRateHeat && c.learnedRateCool == cfg.learnedRateCool
    ensures changed <==> c != cfg
  {
    var targetTemp, c1 := NormalizeScalar(cfg.targetTemp, 45, 90, defaults.targetTemp);
    var aggressiveness, c2 := NormalizeScalar(cfg.aggressiveness, 1, 10, defaults.aggressiveness);
    var hysteresis, c3 := NormalizeScalar(cfg.hysteresis, 0, 8, defaults.hysteresis);
    var minRPMChange, c4 := NormalizeScalar(cfg.minRPMChange, 20, 400, defaults.minRPMChange);
    var rampUpLimit, c5 := NormalizeScalar(cfg.rampUpLimit, 50, 1200, defaults.rampUpLimit);
    var rampDownLimit, c6 := NormalizeScalar(cfg.rampDownLimit, 50, 1200, defaults.rampDownLimit);
    var learnRate, c7 := NormalizeScalar(cfg.learnRate, 1, 10, defaults.learnRate);
    var learnWindow, c8 := NormalizeScalar(cfg.learnWindow, 3, 24, defaults.learnWindow);
    var learnDelay, c9 := NormalizeScalar(cfg.learnDelay, 1, 8, defaults.learnDelay);
    var overheatWeight, c10 := NormalizeScalar(cfg.overheatWeight, 1, 12, defaults.overheatWeight);
    var rpmDeltaWeight, c11 := NormalizeScalar(cfg.rpmDeltaWeight, 1, 12, defaults.rpmDeltaWeight);
    var noiseWeight, c12 := NormalizeScalar(cfg.noiseWeight, 0, 12, defaults.noiseWeight);
    var trendGain, c13 := NormalizeScalar(cfg.trendGain, 1, 12, defaults.trendGain);
    var maxLearnOffset, c14 := NormalizeScalar(cfg.maxLearnOffset, 100, 2000, defaults.maxLearnOffset);
    c := cfg.(learning := learning, targetTemp := targetTemp, aggressiveness := aggressiveness, hysteresis := hysteresis,
              minRPMChange := minRPMChange, rampUpLimit := rampUpLimit, rampDownLimit := rampDownLimit,
              learnRate := learnRate, learnWindow := learnWindow, learnDelay := learnDelay,
              overheatWeight := overheatWeight, rpmDeltaWeight := rpmDeltaWeight, noiseWeight := noiseWeight,
              trendGain := trendGain, maxLearnOffset := maxLearnOffset);
    changed := cfg.learning != learning || c1 || c2 || c3 || c4 || c5 || c6 || c7 || c8 || c9 || c10 || c11 || c12 || c13 || c14;
  }

  // ---------------------------------------------------------------------
  // The whole normalisation
  // ---------------------------------------------------------------------

  /** `make` then `copy`: a slice of `n` entries filled from `source` as far as it reaches, zeros after it. */
  method CopyResized(source: seq<int>, n: nat) returns (r: seq<int>)
    ensures |r| == n
    ensures forall i :: 0 <= i < n ==> r[i] == if i < |source| then source[i] else 0
    ensures r == Resized(source, n)
  {
    var a := new int[n];
    for i := 0 to n
      invariant forall k :: 0 <= k < i ==> a[k] == At(source, k)
    {
      if i < |source| {
        a[i] := source[i];
      } else {
        a[i] := 0;
      }
    }
    return a[..];
  }

  /** After the constrain step, a slice of the curve's length respects the bounds whether or not it was replaced. */
  lemma OffsetsSettled(offsets: seq<int>, sanitized: seq<int>, updated: bool, curve: seq<FanCurvePoint>, maxLearnOffset: int)
    requires |offsets| == |curve|
    requires |offsets| == 0 || |curve| == 0 ==> sanitized == offsets && !updated
    requires |sanitized| == |offsets|
    requires |offsets| > 0 && |curve| > 0 ==>
      forall i :: 0 <= i < |offsets| ==> sanitized[i] == ConstrainedOffset(offsets, curve, maxLearnOffset, i)
    requires updated <==> |curve| > 0 && (|offsets| > |curve| || sanitized != offsets)
    ensures OffsetsInCurveBounds(if updated then sanitized else offsets, curve, maxLearnOffset)
  {
    if |curve| > 0 {
      ConstrainedRespectsBounds(offsets, sanitized, curve, maxLearnOffset);
    }
  }

  /**
   * A configuration `NormalizeConfig` leaves as it is: Learning on, every
   * scalar in range, the ramp-down cap respected, the offset slices one per
   * curve point within their bounds with the legacy view their blend, and
   * one rate bias per bucket within the cap.
   */
  predicate ConfigNormalized(c: SmartControlConfig, curve: seq<FanCurvePoint>)
  {
    && c.learning && ScalarsInRange(c) && c.rampDownLimit <= c.rampUpLimit + 300
    && |c.learnedOffsets| == |c.learnedOffsetsHeat| == |c.learnedOffsetsCool| == |curve|
    && OffsetsInCurveBounds(c.learnedOffsetsHeat, curve, c.maxLearnOffset)
    && OffsetsInCurveBounds(c.learnedOffsetsCool, curve, c.maxLearnOffset)
    && |c.learnedRateHeat| == |c.learnedRateCool| == RateBucketCount()
    && RatesWithinCap(c.learnedRateHeat, c.maxLearnOffset) && RatesWithinCap(c.learnedRateCool, c.maxLearnOffset)
    && c.learnedOffsets == Blend(c.learnedOffsetsHeat, c.learnedOffsetsCool)
  }

  /** The ramp-down limit after the scalar pass, before it is capped at the ramp-up limit plus 300. */
  function RampDownBeforeCap(cfg: SmartControlConfig, defaults: SmartControlConfig): int
  {
    if 50 <= cfg.rampDownLimit <= 1200 then cfg.rampDownLimit else defaults.rampDownLimit
  }

  /**
   * `NormalizeConfig`: Learning on, every tuning scalar in range (kept when
   * it was, the default otherwise), the ramp-down limit then capped at 300
   * above the ramp-up limit, the heating and cooling offsets one per curve
   * point and within each point's bounds, one rate bias per bucket within
   * the cap, and the legacy offsets equal to the blend of heating and
   * cooling. When nothing was reported changed, the configuration comes
   * back as it went in, and that happens exactly when it was already in the
   * normal form the call produces: normalising twice changes nothing more.
   */
  method NormalizeConfig(cfg: SmartControlConfig, curve: seq<FanCurvePoint>) returns (out: SmartControlConfig, changed: bool)
    ensures out.learning && out.enabled == cfg.enabled
    ensures ScalarsInRange(out) && out.rampDownLimit <= out.rampUpLimit + 300
    ensures ScalarsNormalized(cfg, out, DefaultSmartControlConfig(curve))
    ensures out.rampDownLimit == Min(RampDownBeforeCap(cfg, DefaultSmartControlConfig(curve)), out.rampUpLimit + 300)
    ensures |out.learnedOffsets| == |out.learnedOffsetsHeat| == |out.learnedOffsetsCool| == |curve|
    ensures OffsetsInCurveBounds(out.learnedOffsetsHeat, curve, out.maxLearnOffset)
    ensures OffsetsInCurveBounds(out.learnedOffsetsCool, curve, out.maxLearnOffset)
    ensures out.learnedRateHeat == NormalizedRates(cfg.learnedRateHeat, out.maxLearnOffset)
    ensures out.learnedRateCool == NormalizedRates(cfg.learnedRateCool, out.maxLearnOffset)
    ensures RatesWithinCap(out.learnedRateHeat, out.maxLearnOffset) && RatesWithinCap(out.learnedRateCool, out.maxLearnOffset)
    ensures out.learnedOffsets == Blend(out.learnedOffsetsHeat, out.learnedOffsetsCool)
    ensures OffsetsInCurveBounds(out.learnedOffsets, curve, out.maxLearnOffset)
    ensures !changed ==> out == cfg
    ensures ConfigNormalized(out, curve)
    ensures changed <==> !ConfigNormalized(cfg, curve)
  {
    var defaults := DefaultSmartControlConfig(curve);
    DefaultsAccepted(curve);
    var c;
    ghost var normal := ConfigNormalized(cfg, curve);
    c, changed := NormalizeScalars(cfg, defaults, true);
    assert normal ==> c == cfg && !changed;
    var m := c.maxLearnOffset;

    var legacy := c.learnedOffsets;
    if |legacy| != |curve| {
      legacy := CopyResized(legacy, |curve|);
      changed := true;
    }

    var heat, heatChanged := NormalizeSide(c.learnedOffsetsHeat, legacy, curve, m);
    var cool, coolChanged := NormalizeSide(c.learnedOffsetsCool, legacy, curve, m);
    changed := changed || heatChanged || coolChanged;
    assert normal ==> legacy == cfg.learnedOffsets && heat == cfg.learnedOffsetsHeat && cool == cfg.learnedOffsetsCool && !changed;

    var rateHeat, heatRateChanged := NormalizeStoredRates(c.learnedRateHeat, m);
    var rateCool, coolRateChanged := NormalizeStoredRates(c.learnedRateCool, m);
    changed := changed || heatRateChanged || coolRateChanged;
    assert normal ==> rateHeat == cfg.learnedRateHeat && rateCool == cfg.learnedRateCool && !changed;

    var rampDownLimit := c.rampDownLimit;
    if rampDownLimit > c.rampUpLimit + 300 {
      rampDownLimit := c.rampUpLimit + 300;
      changed := true;
    }

    var legacyChanged;
    legacy, legacyChanged := RebuildLegacyOffsets(heat, cool, legacy, curve, m);
    changed := changed || legacyChanged;
    assert normal ==> !changed;
    out := c.(learnedOffsets := legacy, learnedOffsetsHeat := heat, learnedOffsetsCool := cool,
              learnedRateHeat := rateHeat, learnedRateCool := rateCool, rampDownLimit := rampDownLimit);
  }

  /**
   * The heating or cooling part of `NormalizeConfig`: a slice of the wrong
   * length is rebuilt at the curve's length from itself, or from the legacy
   * offsets when it is empty, and then constrained to the curve's bounds.
   * Reports a change exactly when the slice was replaced.
   */
  method NormalizeSide(side: seq<int>, legacy: seq<int>, curve: seq<FanCurvePoint>, maxLearnOffset: int)
    returns (r: seq<int>, changed: bool)
    ensures |r| == |curve| && OffsetsInCurveBounds(r, curve, maxLearnOffset)
    ensures |side| == |curve| && OffsetsInCurveBounds(side, curve, maxLearnOffset) ==> r == side
    ensures changed <==> r != side
  {
    r, changed := side, false;
    if |r| != |curve| {
      r := CopyResized(if |side| > 0 then side else legacy, |curve|);
      changed := true;
    }
    var sanitized, updated := ConstrainOffsetsToCurveBounds(r, curve, maxLearnOffset);
    OffsetsSettled(r, sanitized, updated, curve, maxLearnOffset);
    if |r| > 0 && |curve| > 0 && OffsetsInCurveBounds(r, curve, maxLearnOffset) {
      ConstrainFixesInBounds(r, sanitized, curve, maxLearnOffset);
    }
    if updated {
      r := sanitized;
      changed := true;
    }
  }

  /** The rate-bias part of `NormalizeConfig`: the stored biases replaced by their normalized form when that differs. */
  method NormalizeStoredRates(rates: seq<int>, maxLearnOffset: int) returns (r: seq<int>, changed: bool)
    ensures r == NormalizedRates(rates, maxLearnOffset)
    ensures RatesWithinCap(r, maxLearnOffset)
    ensures |rates| == RateBucketCount() && RatesWithinCap(rates, maxLearnOffset) ==> r == rates
    ensures changed <==> r != rates
  {
    r, changed := rates, false;
    var normalized, updated := NormalizeRateBiases(rates, maxLearnOffset);
    NormalizedRatesWithinCap(rates, maxLearnOffset, normalized);
    assert normalized == NormalizedRates(rates, maxLearnOffset);
    if updated {
      r := normalized;
      changed := true;
    }
  }

  /**
   * The last part of `NormalizeConfig`: the blend of the heating and
   * cooling offsets, constrained to the curve, replaces the legacy offsets
   * when they differ. Since both sides already respect the bounds, the
   * constraint never changes the blend.
   */
  method RebuildLegacyOffsets(heat: seq<int>, cool: seq<int>, legacy: seq<int>, curve: seq<FanCurvePoint>, maxLearnOffset: int)
    returns (r: seq<int>, changed: bool)
    requires |heat| == |cool| == |curve|
    requires OffsetsInCurveBounds(heat, curve, maxLearnOffset) && OffsetsInCurveBounds(cool, curve, maxLearnOffset)
    ensures r == Blend(heat, cool) && OffsetsInCurveBounds(r, curve, maxLearnOffset)
    ensures changed <==> r != legacy
  {
    changed := false;
    var blended := BlendOffsets(heat, cool);
    BlendInBounds(heat, cool, curve, maxLearnOffset);
    var sanitized, updated := ConstrainOffsetsToCurveBounds(blended, curve, maxLearnOffset);
    if |curve| > 0 && |blended| > 0 {
      ConstrainFixesInBounds(blended, sanitized, curve, maxLearnOffset);
    }
    if updated {
      blended := sanitized;
      changed := true;
    }
    r := legacy;
    var same := IntSlicesEqual(blended, legacy);
    if !same {
      r := blended;
      changed := true;
    }
  }
}
