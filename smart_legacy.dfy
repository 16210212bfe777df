/**
 * The older, single-file variant of the smart control (smartcontrol.go):
 * the same configuration, target-speed and learning steps as the split
 * files, with simpler rules.  Normalisation only resizes the offset
 * slices, the target speed clamps the effective curve and the result to
 * 1000..4000, and one learning step moves the offsets of the side matching
 * the trend by a score clamped to -35..60, each entry kept within the
 * learning cap.
 *
 * `BlendOffsets`, `selectOffsetsForTrend`, `isStableLearningWindow`,
 * `intSlicesEqual`, `ApplyRampLimit`, `nearestCurveIndex`, `clampInt`,
 * `absInt` and `enforceNonDecreasingRPM` read the same here as in the split
 * files and are the members of those modules.
 */
module SmartLegacy {
  import opened FanTypes
  import opened CurveHelpers
  import SmartLearning
  import SmartConfig
  import SmartTarget

  // ---------------------------------------------------------------------
  // Configuration
  // ---------------------------------------------------------------------

  /**
   * A configuration the older `NormalizeConfig` leaves as it is: every
   * scalar in range, the ramp-down cap respected, and the offset slices
   * one per curve point with the legacy view the blend of the two sides.
   */
  predicate LegacyNormalized(c: SmartControlConfig, curve: seq<FanCurvePoint>)
  {
    && SmartConfig.ScalarsInRange(c) && c.rampDownLimit <= c.rampUpLimit + 300
    && |c.learnedOffsets| == |c.learnedOffsetsHeat| == |c.learnedOffsetsCool| == |curve|
    && c.learnedOffsets == SmartConfig.Blend(c.learnedOffsetsHeat, c.learnedOffsetsCool)
  }

  /** The slice a side is rebuilt from: itself, or the legacy offsets when it is empty. */
  function SideSource(side: seq<int>, legacy: seq<int>): seq<int>
  {
    if |side| > 0 then side else legacy
  }

  /**
   * A heating or cooling slice of the wrong length is rebuilt at length
   * `n` from itself, or from the (already resized) legacy offsets when it
   * is empty.
   */
  method ResizeSide(side: seq<int>, legacy: seq<int>, n: nat) returns (r: seq<int>, changed: bool)
    requires |legacy| == n
    ensures r == SmartLearning.Resized(SideSource(side, legacy), n)
    ensures changed <==> |side| != n
    ensures !changed ==> r == side
  {
    if |side| != n {
      r := SmartConfig.CopyResized(if |side| > 0 then side else legacy, n);
      return r, true;
    }
    assert side == SmartLearning.Resized(SideSource(side, legacy), n);
    return side, false;
  }

  /**
   * The older `NormalizeConfig`: the Learning flag untouched, every tuning
   * scalar in range (kept when it was, the default otherwise), the
   * ramp-down limit capped at 300 above the ramp-up limit, the offset
   * slices resized to the curve (a missing side taken from the legacy
   * offsets) and the legacy offsets replaced by the blend of both sides.
   * The rate biases are not touched.  It reports a change exactly when the
   * configuration was not already in that normal form, and then only.
   */
  method NormalizeConfig(cfg: SmartControlConfig, curve: seq<FanCurvePoint>) returns (out: SmartControlConfig, changed: bool)
    ensures out.learning == cfg.learning && out.enabled == cfg.enabled
    ensures SmartConfig.ScalarsNormalized(cfg, out, DefaultSmartControlConfig(curve))
    ensures out.rampDownLimit == Min(SmartConfig.RampDownBeforeCap(cfg, DefaultSmartControlConfig(curve)), out.rampUpLimit + 300)
    ensures out.learnedOffsetsHeat == SmartLearning.Resized(SideSource(cfg.learnedOffsetsHeat, cfg.learnedOffsets), |curve|)
    ensures out.learnedOffsetsCool == SmartLearning.Resized(SideSource(cfg.learnedOffsetsCool, cfg.learnedOffsets), |curve|)
    ensures out.learnedRateHeat == cfg.learnedRateHeat && out.learnedRateCool == cfg.learnedRateCool
    ensures LegacyNormalized(out, curve)
    ensures !changed ==> out == cfg
    ensures changed <==> !LegacyNormalized(cfg, curve)
  {
    var defaults := DefaultSmartControlConfig(curve);
    SmartConfig.DefaultsAccepted(curve);
    ghost var normal := LegacyNormalized(cfg, curve);
    var c;
    c, changed := SmartConfig.NormalizeScalars(cfg, defaults, cfg.learning);
    assert normal ==> c == cfg && !changed;

    var legacy, heat, cool, offsetsChanged := NormalizeOffsets(c.learnedOffsets, c.learnedOffsetsHeat, c.learnedOffsetsCool, |curve|);
    changed := changed || offsetsChanged;

    var rampDownLimit := c.rampDownLimit;
    if rampDownLimit > c.rampUpLimit + 300 {
      rampDownLimit := c.rampUpLimit + 300;
      changed := true;
    }
    assert normal ==> !changed;
    out := c.(learnedOffsets := legacy, learnedOffsetsHeat := heat, learnedOffsetsCool := cool, rampDownLimit := rampDownLimit);
    SmartConfig.ScalarsNormalizedTransfer(cfg, c, out, defaults);
  }

  /**
   * The offset part of the older `NormalizeConfig`: the legacy offsets
   * resized to `n`, each side resized from itself or from them, and the
   * legacy view then replaced by the blend of both sides when it differs.
   * A change is reported exactly when the slices were not already of
   * length `n` with the legacy view their blend.
   */
  method NormalizeOffsets(legacy: seq<int>, heat: seq<int>, cool: seq<int>, n: nat)
    returns (legacy': seq<int>, heat': seq<int>, cool': seq<int>, changed: bool)
    ensures heat' == SmartLearning.Resized(SideSource(heat, legacy), n)
    ensures cool' == SmartLearning.Resized(SideSource(cool, legacy), n)
    ensures legacy' == SmartConfig.Blend(heat', cool')
    ensures changed <==> !(|legacy| == |heat| == |cool| == n && legacy == SmartConfig.Blend(heat, cool))
    ensures !changed ==> legacy' == legacy && heat' == heat && cool' == cool
  {
    changed := false;
    legacy' := legacy;
    if |legacy'| != n {
      legacy' := SmartConfig.CopyResized(legacy', n);
      changed := true;
    }
    assert SmartLearning.Resized(SideSource(heat, legacy'), n) == SmartLearning.Resized(SideSource(heat, legacy), n);
    assert SmartLearning.Resized(SideSource(cool, legacy'), n) == SmartLearning.Resized(SideSource(cool, legacy), n);

    var heatChanged, coolChanged;
    heat', heatChanged := ResizeSide(heat, legacy', n);
    cool', coolChanged := ResizeSide(cool, legacy', n);
    changed := changed || heatChanged || coolChanged;

    var blended := SmartConfig.BlendOffsets(heat', cool');
    var same := IntSlicesEqual(blended, legacy');
    if !same {
      legacy' := blended;
      changed := true;
    }
  }

  // ---------------------------------------------------------------------
  // Target speed
  // ---------------------------------------------------------------------

  /** Point `i` with its raw offset added and its speed clamped to 1000..4000. */
  function LegacyEffectivePoint(curve: seq<FanCurvePoint>, active: seq<int>, legacy: seq<int>, i: nat): FanCurvePoint
    requires i < |curve|
  {
    FanCurvePoint(curve[i].temperature, ClampInt(curve[i].rpm + SmartTarget.OffsetFor(active, legacy, i), 1000, 4000))
  }

  function LegacyEffectivePoints(curve: seq<FanCurvePoint>, active: seq<int>, legacy: seq<int>): seq<FanCurvePoint>
  {
    seq(|curve|, i requires 0 <= i < |curve| => LegacyEffectivePoint(curve, active, legacy, i))
  }

  /** The curve the older lookup sees: the offset points with speeds made non-decreasing. */
  function LegacyEffectiveCurve(curve: seq<FanCurvePoint>, active: seq<int>, legacy: seq<int>): seq<FanCurvePoint>
  {
    NonDecreasingCurve(LegacyEffectivePoints(curve, active, legacy))
  }

  /** The older effective curve keeps the temperatures, stays within 1000..4000 and never decreases. */
  lemma LegacyEffectiveCurveShape(curve: seq<FanCurvePoint>, active: seq<int>, legacy: seq<int>)
    ensures var c := LegacyEffectiveCurve(curve, active, legacy);
      && |c| == |curve|
      && (forall i :: 0 <= i < |c| ==> c[i].temperature == curve[i].temperature && 1000 <= c[i].rpm <= 4000)
      && (forall i, j :: 0 <= i <= j < |c| ==> c[i].rpm <= c[j].rpm)
  {
    var p := LegacyEffectivePoints(curve, active, legacy);
    var c := NonDecreasingCurve(p);
    NonDecreasingCurveShape(p);
    forall i | 0 <= i < |c|
      ensures 1000 <= c[i].rpm <= 4000
    {
      var w := PrefixMaxWitness(p, i);
      PrefixMaxBound(p, i, i);
    }
  }

  /** The older trend correction: proportional to the rise or the fall, with no preheat boost. */
  function LegacyTrendTerm(tempDelta: int, cfg: SmartControlConfig): int
  {
    if tempDelta > 0 then tempDelta * (6 + cfg.aggressiveness * 2 + cfg.trendGain * 2)
    else if tempDelta < 0 then tempDelta * (1 + TruncDiv(cfg.trendGain, 2))
    else 0
  }

  /** Everything the older variant adds to the curve's speed before the final clamp; there is no rate bias. */
  function LegacyAdjustment(avgTemp: int, lastAvgTemp: int, cfg: SmartControlConfig): int
  {
    SmartTarget.ErrorTerm(avgTemp, cfg) + LegacyTrendTerm(avgTemp - lastAvgTemp, cfg) + SmartTarget.OverheatTerm(avgTemp, cfg)
  }

  /** The speed the curve gives, on the older effective curve for the current trend. */
  function LegacyCurveSpeed(avgTemp: int, lastAvgTemp: int, curve: seq<FanCurvePoint>, cfg: SmartControlConfig,
                            lookup: (int, seq<FanCurvePoint>) -> int): int
  {
    lookup(avgTemp, LegacyEffectiveCurve(curve, SmartTarget.TrendOffsets(avgTemp - lastAvgTemp, cfg), cfg.learnedOffsets))
  }

  /**
   * The older `CalculateTargetRPM`.  `lookup` stands for the plain curve
   * lookup.  The result is 0 when the curve gives no positive speed, and
   * otherwise the corrected speed clamped to 1000..4000, so the fan never
   * runs below 1000 rpm once the curve asks for it to run.
   */
  method CalculateTargetRPM(avgTemp: int, lastAvgTemp: int, curve: seq<FanCurvePoint>, cfg: SmartControlConfig,
                            lookup: (int, seq<FanCurvePoint>) -> int) returns (target: int)
    ensures target == 0 || 1000 <= target <= 4000
    ensures LegacyCurveSpeed(avgTemp, lastAvgTemp, curve, cfg, lookup) <= 0 <==> target == 0
    ensures LegacyCurveSpeed(avgTemp, lastAvgTemp, curve, cfg, lookup) > 0 ==>
      target == ClampInt(LegacyCurveSpeed(avgTemp, lastAvgTemp, curve, cfg, lookup) + LegacyAdjustment(avgTemp, lastAvgTemp, cfg), 1000, 4000)
  {
    var effective := new FanCurvePoint[|curve|];
    var activeOffsets := SmartTarget.SelectOffsetsForTrend(avgTemp - lastAvgTemp, cfg);
    for i := 0 to |curve|
      invariant forall k :: 0 <= k < i ==> effective[k] == LegacyEffectivePoint(curve, activeOffsets, cfg.learnedOffsets, k)
    {
      var offset := 0;
      if i < |activeOffsets| {
        offset := activeOffsets[i];
      } else if i < |cfg.learnedOffsets| {
        offset := cfg.learnedOffsets[i];
      }
      effective[i] := FanCurvePoint(curve[i].temperature, ClampInt(curve[i].rpm + offset, 1000, 4000));
    }
    assert effective[..] == LegacyEffectivePoints(curve, activeOffsets, cfg.learnedOffsets);
    EnforceNonDecreasingRPM(effective);

    var targetRPM := lookup(avgTemp, effective[..]);
    if targetRPM <= 0 {
      return 0;
    }

    var tempError := avgTemp - cfg.targetTemp;
    if AbsInt(tempError) > cfg.hysteresis {
      var gain := 12 + cfg.aggressiveness * 4;
      targetRPM := targetRPM + tempError * gain;
    }

    var tempDelta := avgTemp - lastAvgTemp;
    if tempDelta > 0 {
      targetRPM := targetRPM + tempDelta * (6 + cfg.aggressiveness * 2 + cfg.trendGain * 2);
    }
    if tempDelta < 0 {
      targetRPM := targetRPM + tempDelta * (1 + TruncDiv(cfg.trendGain, 2));
    }

    if avgTemp >= cfg.targetTemp + 15 {
      targetRPM := targetRPM + 320 + cfg.overheatWeight * 15;
    }

    return ClampInt(targetRPM, 1000, 4000);
  }

  // ---------------------------------------------------------------------
  // One learning step
  // ---------------------------------------------------------------------

  /** An offset update of the older `applyDeltaAtIndex`: entry `idx` moved by `delta` and clamped to the cap. */
  function CapDeltaApplied(offsets: seq<int>, idx: int, delta: int, maxLearnOffset: int): seq<int>
  {
    if delta == 0 || idx < 0 || idx >= |offsets| then offsets
    else offsets[idx := ClampInt(offsets[idx] + delta, -maxLearnOffset, maxLearnOffset)]
  }

  /**
   * Only entry `idx` can change; a zero step or an index out of range
   * changes nothing, and a moved entry ends within the cap.
   */
  lemma CapDeltaAppliedFrame(offsets: seq<int>, idx: int, delta: int, maxLearnOffset: int)
    requires maxLearnOffset >= 0
    ensures var r := CapDeltaApplied(offsets, idx, delta, maxLearnOffset);
      && |r| == |offsets|
      && (forall j :: 0 <= j < |r| && j != idx ==> r[j] == offsets[j])
      && (delta == 0 || idx < 0 || idx >= |offsets| ==> r == offsets)
      && (0 <= idx < |offsets| && delta != 0 ==> -maxLearnOffset <= r[idx] <= maxLearnOffset)
  {
  }

  /** The older `applyDeltaAtIndex`: writes the moved and clamped entry in place; true exactly when it changed. */
  method ApplyDeltaAtIndex(offsets: array<int>, idx: int, delta: int, maxLearnOffset: int) returns (changed: bool)
    modifies offsets
    ensures offsets[..] == CapDeltaApplied(old(offsets[..]), idx, delta, maxLearnOffset)
    ensures changed <==> offsets[..] != old(offsets[..])
  {
    if delta == 0 || idx < 0 || idx >= offsets.Length {
      return false;
    }
    var newValue := ClampInt(offsets[idx] + delta, -maxLearnOffset, maxLearnOffset);
    if newValue == offsets[idx] {
      assert old(offsets[..])[idx := newValue] == old(offsets[..]);
      return false;
    }
    offsets[idx] := newValue;
    assert offsets[..][idx] != old(offsets[..])[idx];
    return true;
  }

  /** The share of the step a point `dist` places from the learned point receives: all, a half, a quarter, else none. */
  function Share(delta: int, dist: int): int
  {
    if dist == 0 then delta
    else if dist == 1 || dist == -1 then TruncDiv(delta, 2)
    else if dist == 2 || dist == -2 then TruncDiv(delta, 4)
    else 0
  }

  /** The active side after the step: the full step at `idx`, half beside it, a quarter two points away. */
  function ActiveStep(s: seq<int>, idx: int, delta: int, maxLearnOffset: int): seq<int>
  {
    var s1 := CapDeltaApplied(s, idx, delta, maxLearnOffset);
    var s2 := CapDeltaApplied(s1, idx - 1, TruncDiv(delta, 2), maxLearnOffset);
    var s3 := CapDeltaApplied(s2, idx + 1, TruncDiv(delta, 2), maxLearnOffset);
    var s4 := CapDeltaApplied(s3, idx - 2, TruncDiv(delta, 4), maxLearnOffset);
    CapDeltaApplied(s4, idx + 2, TruncDiv(delta, 4), maxLearnOffset)
  }

  /** The passive side after the step: a fifth of it at `idx`. */
  function PassiveStep(s: seq<int>, idx: int, delta: int, maxLearnOffset: int): seq<int>
  {
    CapDeltaApplied(s, idx, TruncDiv(delta, 5), maxLearnOffset)
  }

  /** A point moved by its share of the step, clamped to the cap; a zero share leaves it. */
  function PointMove(x: int, share: int, maxLearnOffset: int): int
  {
    if share == 0 then x else ClampInt(x + share, -maxLearnOffset, maxLearnOffset)
  }

  /**
   * Point by point, the active step moves each entry by its share of the
   * step for its distance from `idx`, so nothing more than two points away
   * changes.
   */
  lemma ActiveStepPointwise(s: seq<int>, idx: int, delta: int, maxLearnOffset: int)
    ensures var r := ActiveStep(s, idx, delta, maxLearnOffset);
      && |r| == |s|
      && (forall j :: 0 <= j < |s| ==> r[j] == PointMove(s[j], Share(delta, j - idx), maxLearnOffset))
  {
  }

  /** A half, a quarter or a fifth of a step, truncated, lies between 0 and the step. */
  lemma FractionBetween(delta: int, k: int)
    requires k == 2 || k == 4 || k == 5
    ensures Min(0, delta) <= TruncDiv(delta, k) <= Max(0, delta)
  {
    if k == 2 {
      assert Min(0, delta) <= TruncDiv(delta, 2) <= Max(0, delta);
    } else if k == 4 {
      assert Min(0, delta) <= TruncDiv(delta, 4) <= Max(0, delta);
    } else {
      assert Min(0, delta) <= TruncDiv(delta, 5) <= Max(0, delta);
    }
  }

  /** An entry within the cap moved by a share within `lo..hi` (around 0) stays within the cap and moves by no more. */
  lemma PointMoveBounded(x: int, share: int, maxLearnOffset: int, lo: int, hi: int)
    requires maxLearnOffset >= 0 && -maxLearnOffset <= x <= maxLearnOffset
    requires lo <= 0 <= hi && lo <= share <= hi
    ensures -maxLearnOffset <= PointMove(x, share, maxLearnOffset) <= maxLearnOffset
    ensures lo <= PointMove(x, share, maxLearnOffset) - x <= hi
  {
  }

  predicate WithinCap(s: seq<int>, maxLearnOffset: int)
  {
    forall i :: 0 <= i < |s| ==> -maxLearnOffset <= s[i] <= maxLearnOffset
  }

  /** Both sides after one step of the older learning: the side matching the trend is active. */
  function LegacyStep(heat: seq<int>, cool: seq<int>, idx: int, tempDelta: int, delta: int, maxLearnOffset: int): (seq<int>, seq<int>)
  {
    if tempDelta >= 0 then (ActiveStep(heat, idx, delta, maxLearnOffset), PassiveStep(cool, idx, delta, maxLearnOffset))
    else (PassiveStep(heat, idx, delta, maxLearnOffset), ActiveStep(cool, idx, delta, maxLearnOffset))
  }

  /**
   * With offsets inside the cap, one step keeps them there and moves each
   * entry by no more than the step itself, in its direction; the passive
   * side changes at `idx` alone and the active side within two points of it.
   */
  lemma LegacyStepBounded(heat: seq<int>, cool: seq<int>, idx: int, tempDelta: int, delta: int, maxLearnOffset: int)
    requires maxLearnOffset >= 0 && WithinCap(heat, maxLearnOffset) && WithinCap(cool, maxLearnOffset)
    ensures var (h, c) := LegacyStep(heat, cool, idx, tempDelta, delta, maxLearnOffset);
      && |h| == |heat| && |c| == |cool|
      && WithinCap(h, maxLearnOffset) && WithinCap(c, maxLearnOffset)
      && (forall j :: 0 <= j < |h| ==> Min(0, delta) <= h[j] - heat[j] <= Max(0, delta))
      && (forall j :: 0 <= j < |c| ==> Min(0, delta) <= c[j] - cool[j] <= Max(0, delta))
      && (forall j :: 0 <= j < |h| && (j < idx - 2 || j > idx + 2) ==> h[j] == heat[j])
      && (forall j :: 0 <= j < |c| && (j < idx - 2 || j > idx + 2) ==> c[j] == cool[j])
      && (tempDelta >= 0 ==> forall j :: 0 <= j < |c| && j != idx ==> c[j] == cool[j])
      && (tempDelta < 0 ==> forall j :: 0 <= j < |h| && j != idx ==> h[j] == heat[j])
  {
    var lo, hi := Min(0, delta), Max(0, delta);
    FractionBetween(delta, 2);
    FractionBetween(delta, 4);
    FractionBetween(delta, 5);
    forall s | WithinCap(s, maxLearnOffset)
      ensures var a := ActiveStep(s, idx, delta, maxLearnOffset);
        && |a| == |s| && WithinCap(a, maxLearnOffset)
        && (forall j :: 0 <= j < |s| ==> lo <= a[j] - s[j] <= hi)
        && (forall j :: 0 <= j < |s| && (j < idx - 2 || j > idx + 2) ==> a[j] == s[j])
    {
      ActiveStepPointwise(s, idx, delta, maxLearnOffset);
      var a := ActiveStep(s, idx, delta, maxLearnOffset);
      forall j | 0 <= j < |s|
        ensures -maxLearnOffset <= a[j] <= maxLearnOffset && lo <= a[j] - s[j] <= hi
      {
        PointMoveBounded(s[j], Share(delta, j - idx), maxLearnOffset, lo, hi);
      }
    }
    forall s | WithinCap(s, maxLearnOffset)
      ensures var p := PassiveStep(s, idx, delta, maxLearnOffset);
        && |p| == |s| && WithinCap(p, maxLearnOffset)
        && (forall j :: 0 <= j < |s| ==> lo <= p[j] - s[j] <= hi)
        && (forall j :: 0 <= j < |s| && j != idx ==> p[j] == s[j])
    {
      var p := PassiveStep(s, idx, delta, maxLearnOffset);
      forall j | 0 <= j < |s|
        ensures -maxLearnOffset <= p[j] <= maxLearnOffset && lo <= p[j] - s[j] <= hi
      {
        PointMoveBounded(s[j], if j == idx then TruncDiv(delta, 5) else 0, maxLearnOffset, lo, hi);
      }
    }
  }

  /** The older learning score of one step; it has no preheat term and no rate part. */
  function LegacyScore(avgTemp: int, lastAvgTemp: int, targetRPM: int, lastTargetRPM: int, learnTempDelta: int, cfg: SmartControlConfig): int
  {
    var errorTemp := avgTemp - cfg.targetTemp;
    var tempDelta := avgTemp - lastAvgTemp;
    var overheat := Max(0, avgTemp - (cfg.targetTemp + cfg.hysteresis));
    var rpmDelta := AbsInt(targetRPM - lastTargetRPM);
    var noise := Max(0, targetRPM - 2800);
    var tempTerm := errorTemp * (2 + cfg.learnRate);
    var overheatTerm := overheat * (1 + cfg.overheatWeight);
    var trendTerm := tempDelta * (1 + cfg.trendGain);
    var changePenalty := TruncDiv(rpmDelta, Max(20, TruncDiv(cfg.minRPMChange, 2))) * cfg.rpmDeltaWeight;
    var noisePenalty := TruncDiv(noise, 150) * cfg.noiseWeight;
    var delta0 := tempTerm + overheatTerm + trendTerm - changePenalty - noisePenalty;
    var delta1 := if learnTempDelta > 0 then delta0 + learnTempDelta * (1 + cfg.trendGain)
      else if learnTempDelta < 0 then delta0 + learnTempDelta * Max(1, TruncDiv(cfg.trendGain, 2))
      else delta0;
    if errorTemp < -cfg.hysteresis - 1 && tempDelta <= 0 then delta1 - (2 + TruncDiv(cfg.noiseWeight, 2)) else delta1
  }

  /** The older variant skips learning on a short history, an unstable and not overheated window, or a score below 4. */
  predicate LegacySkipped(avgTemp: int, lastAvgTemp: int, targetRPM: int, lastTargetRPM: int, recentAvgTemps: seq<int>, cfg: SmartControlConfig)
  {
    || |recentAvgTemps| < SmartLearning.LearningWindow(cfg) + SmartLearning.LearningDelay(cfg)
    || (!SmartLearning.StableWindow(SmartLearning.WindowTemps(recentAvgTemps, cfg), cfg.hysteresis + 1)
        && avgTemp < cfg.targetTemp + cfg.hysteresis + 3)
    || AbsInt(LegacyScore(avgTemp, lastAvgTemp, targetRPM, lastTargetRPM, SmartLearning.LearnTempDelta(recentAvgTemps, cfg), cfg)) < 4
  }

  /** The offset updates of one older learning step; nothing changes unless some call reported a change. */
  method ApplyLegacySteps(active: array<int>, passive: array<int>, idx: int, delta: int, maxLearnOffset: int)
    returns (changed: bool)
    requires active != passive
    modifies active, passive
    ensures active[..] == ActiveStep(old(active[..]), idx, delta, maxLearnOffset)
    ensures passive[..] == PassiveStep(old(passive[..]), idx, delta, maxLearnOffset)
    ensures changed <==> active[..] != old(active[..]) || passive[..] != old(passive[..])
  {
    ghost var a0 := active[..];
    var c1 := ApplyDeltaAtIndex(active, idx, delta, maxLearnOffset);
    ghost var a1 := active[..];
    var c2 := ApplyDeltaAtIndex(active, idx - 1, TruncDiv(delta, 2), maxLearnOffset);
    ghost var a2 := active[..];
    var c3 := ApplyDeltaAtIndex(active, idx + 1, TruncDiv(delta, 2), maxLearnOffset);
    ghost var a3 := active[..];
    var c4 := ApplyDeltaAtIndex(active, idx - 2, TruncDiv(delta, 4), maxLearnOffset);
    ghost var a4 := active[..];
    var c5 := ApplyDeltaAtIndex(active, idx + 2, TruncDiv(delta, 4), maxLearnOffset);
    var c6 := ApplyDeltaAtIndex(passive, idx, TruncDiv(delta, 5), maxLearnOffset);
    changed := c1 || c2 || c3 || c4 || c5 || c6;
    ActiveStepChange(a0, idx, delta, maxLearnOffset);
  }

  /**
   * The active step changes the slice exactly when one of its five updates
   * does: an entry once moved is never moved back, as each index is
   * updated once.
   */
  lemma ActiveStepChange(s: seq<int>, idx: int, delta: int, maxLearnOffset: int)
    ensures var s1 := CapDeltaApplied(s, idx, delta, maxLearnOffset);
      var s2 := CapDeltaApplied(s1, idx - 1, TruncDiv(delta, 2), maxLearnOffset);
      var s3 := CapDeltaApplied(s2, idx + 1, TruncDiv(delta, 2), maxLearnOffset);
      var s4 := CapDeltaApplied(s3, idx - 2, TruncDiv(delta, 4), maxLearnOffset);
      var s5 := CapDeltaApplied(s4, idx + 2, TruncDiv(delta, 4), maxLearnOffset);
      s5 != s <==> s1 != s || s2 != s1 || s3 != s2 || s4 != s3 || s5 != s4
  {
  }

  /**
   * The older `LearnCurveOffsets`.  With no curve the stored offsets come
   * back as they are; otherwise both sides are resized to the curve, and
   * when learning is skipped they come back unchanged.  Otherwise, at the
   * curve point nearest to the delayed temperature, the side matching the
   * trend (heating when steady) takes the score clamped to -35..60, with
   * half of it beside that point and a quarter two points away, and the
   * other side a fifth at that point alone; every moved entry is clamped
   * to the learning cap.  It reports a change exactly when an offset moved.
   */
  method LearnCurveOffsets(avgTemp: int, lastAvgTemp: int, targetRPM: int, lastTargetRPM: int,
                           recentAvgTemps: seq<int>, curve: seq<FanCurvePoint>, cfg: SmartControlConfig)
    returns (heat: seq<int>, cool: seq<int>, changed: bool)
    ensures |curve| == 0 ==> heat == cfg.learnedOffsetsHeat && cool == cfg.learnedOffsetsCool && !changed
    ensures |curve| > 0 ==> |heat| == |curve| && |cool| == |curve|
    ensures |curve| > 0 ==>
      (changed <==> heat != SmartLearning.Resized(cfg.learnedOffsetsHeat, |curve|) || cool != SmartLearning.Resized(cfg.learnedOffsetsCool, |curve|))
    ensures |curve| > 0 && LegacySkipped(avgTemp, lastAvgTemp, targetRPM, lastTargetRPM, recentAvgTemps, cfg) ==>
      heat == SmartLearning.Resized(cfg.learnedOffsetsHeat, |curve|) && cool == SmartLearning.Resized(cfg.learnedOffsetsCool, |curve|)
    ensures |curve| > 0 && !LegacySkipped(avgTemp, lastAvgTemp, targetRPM, lastTargetRPM, recentAvgTemps, cfg) ==>
      forall idx :: IsNearestIndex(curve, SmartLearning.LearnTemp(recentAvgTemps, cfg), idx) ==>
        (heat, cool) == LegacyStep(SmartLearning.Resized(cfg.learnedOffsetsHeat, |curve|), SmartLearning.Resized(cfg.learnedOffsetsCool, |curve|),
                                   idx, avgTemp - lastAvgTemp,
                                   ClampInt(LegacyScore(avgTemp, lastAvgTemp, targetRPM, lastTargetRPM, SmartLearning.LearnTempDelta(recentAvgTemps, cfg), cfg), -35, 60),
                                   cfg.maxLearnOffset)
  {
    if |curve| == 0 {
      return cfg.learnedOffsetsHeat, cfg.learnedOffsetsCool, false;
    }
    var heatStart := SmartConfig.CopyResized(cfg.learnedOffsetsHeat, |curve|);
    var coolStart := SmartConfig.CopyResized(cfg.learnedOffsetsCool, |curve|);

    var learningWindow := SmartLearning.LearningWindow(cfg);
    var learningDelay := SmartLearning.LearningDelay(cfg);
    var minRequired := learningWindow + learningDelay;
    if |recentAvgTemps| < minRequired {
      assert LegacySkipped(avgTemp, lastAvgTemp, targetRPM, lastTargetRPM, recentAvgTemps, cfg);
      return heatStart, coolStart, false;
    }

    var windowStart := |recentAvgTemps| - minRequired;
    var windowEnd := windowStart + learningWindow;
    assert recentAvgTemps[windowStart..windowEnd] == SmartLearning.WindowTemps(recentAvgTemps, cfg);
    var stable := SmartLearning.IsStableLearningWindow(recentAvgTemps[windowStart..windowEnd], cfg.hysteresis + 1);
    if !stable {
      var overheatMargin := cfg.targetTemp + cfg.hysteresis + 3;
      if avgTemp < overheatMargin {
        assert LegacySkipped(avgTemp, lastAvgTemp, targetRPM, lastTargetRPM, recentAvgTemps, cfg);
        return heatStart, coolStart, false;
      }
    }

    var learnTemp := recentAvgTemps[|recentAvgTemps| - learningDelay];
    var learnPrevTemp := recentAvgTemps[|recentAvgTemps| - learningDelay - 1];
    assert learnTemp - learnPrevTemp == SmartLearning.LearnTempDelta(recentAvgTemps, cfg);
    var delta := LegacyScore(avgTemp, lastAvgTemp, targetRPM, lastTargetRPM, learnTemp - learnPrevTemp, cfg);
    if AbsInt(delta) < 4 {
      assert LegacySkipped(avgTemp, lastAvgTemp, targetRPM, lastTargetRPM, recentAvgTemps, cfg);
      return heatStart, coolStart, false;
    }
    assert !LegacySkipped(avgTemp, lastAvgTemp, targetRPM, lastTargetRPM, recentAvgTemps, cfg);
    heat, cool, changed := LearnNear(heatStart, coolStart, curve, learnTemp, avgTemp - lastAvgTemp, ClampInt(delta, -35, 60), cfg.maxLearnOffset);
  }

  /** The step at the curve point nearest to `learnTemp`, which is the only point `IsNearestIndex` admits. */
  method LearnNear(heatStart: seq<int>, coolStart: seq<int>, curve: seq<FanCurvePoint>, learnTemp: int,
                   tempDelta: int, delta: int, maxLearnOffset: int)
    returns (heat: seq<int>, cool: seq<int>, changed: bool)
    ensures |heat| == |heatStart| && |cool| == |coolStart|
    ensures changed <==> heat != heatStart || cool != coolStart
    ensures forall idx :: IsNearestIndex(curve, learnTemp, idx) ==>
      (heat, cool) == LegacyStep(heatStart, coolStart, idx, tempDelta, delta, maxLearnOffset)
  {
    var idx: int := NearestCurveIndex(learnTemp, curve);
    forall other | IsNearestIndex(curve, learnTemp, other)
      ensures other == idx
    {
      NearestIndexUnique(curve, learnTemp, other, idx);
    }
    heat, cool, changed := LearnAt(heatStart, coolStart, idx, tempDelta, delta, maxLearnOffset);
  }

  /** The step itself, on fresh arrays: the side matching the trend is passed first. */
  method LearnAt(heatStart: seq<int>, coolStart: seq<int>, idx: int, tempDelta: int, delta: int, maxLearnOffset: int)
    returns (heat: seq<int>, cool: seq<int>, changed: bool)
    ensures (heat, cool) == LegacyStep(heatStart, coolStart, idx, tempDelta, delta, maxLearnOffset)
    ensures |heat| == |heatStart| && |cool| == |coolStart|
    ensures changed <==> heat != heatStart || cool != coolStart
  {
    var heatOffsets := new int[|heatStart|](i requires 0 <= i < |heatStart| => heatStart[i]);
    var coolOffsets := new int[|coolStart|](i requires 0 <= i < |coolStart| => coolStart[i]);
    assert heatOffsets[..] == heatStart && coolOffsets[..] == coolStart;
    if tempDelta >= 0 {
      changed := ApplyLegacySteps(heatOffsets, coolOffsets, idx, delta, maxLearnOffset);
    } else {
      changed := ApplyLegacySteps(coolOffsets, heatOffsets, idx, delta, maxLearnOffset);
    }
    return heatOffsets[..], coolOffsets[..], changed;
  }
}
