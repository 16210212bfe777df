/**
 * Offset learning of the smart controller: per-point speed offsets and
 * per-rate-bucket biases are nudged after each stable sample window,
 * then smoothed and clamped in place.
 */
module SmartLearning {
  import opened FanTypes
  import opened CurveHelpers

  // ---------------------------------------------------------------------
  // Rate buckets
  // ---------------------------------------------------------------------

  /** The temperature changes per sample that get their own bucket. */
  const RateBucketMin: int := -3
  const RateBucketMax: int := 3

  function RateBucketCount(): (n: nat)
    ensures n == RateBucketMax - RateBucketMin + 1
  {
    RateBucketMax - RateBucketMin + 1
  }

  /** `rateBucketIndex`: the bucket of a temperature change, changes beyond the range sharing the end buckets. */
  function RateBucketIndex(tempDelta: int): (r: nat)
    ensures r < RateBucketCount()
  {
    ClampInt(tempDelta, RateBucketMin, RateBucketMax) - RateBucketMin
  }

  /**
   * A change inside the range has its own bucket, in order; larger changes
   * never land in a lower bucket.
   */
  lemma RateBucketIndexOrder(d1: int, d2: int)
    ensures RateBucketMin <= d1 <= RateBucketMax ==> RateBucketIndex(d1) == d1 - RateBucketMin
    ensures d1 <= RateBucketMin ==> RateBucketIndex(d1) == 0
    ensures d1 >= RateBucketMax ==> RateBucketIndex(d1) == RateBucketCount() - 1
    ensures d1 <= d2 ==> RateBucketIndex(d1) <= RateBucketIndex(d2)
  {
  }

  /** The largest magnitude a rate bias may have: half the offset cap, kept within 80..600. */
  function RateBiasCap(maxLearnOffset: int): (cap: int)
    ensures 80 <= cap <= 600
  {
    Min(Max(80, TruncDiv(maxLearnOffset, 2)), 600)
  }

  /** `clampRateBias`: the value clamped to plus or minus the cap. */
  function ClampRateBias(value: int, maxLearnOffset: int): (r: int)
    ensures -RateBiasCap(maxLearnOffset) <= r <= RateBiasCap(maxLearnOffset)
    ensures -RateBiasCap(maxLearnOffset) <= value <= RateBiasCap(maxLearnOffset) ==> r == value
  {
    var cap := RateBiasCap(maxLearnOffset);
    ClampInt(value, -cap, cap)
  }

  predicate RatesWithinCap(rates: seq<int>, maxLearnOffset: int)
  {
    forall i :: 0 <= i < |rates| ==> -RateBiasCap(maxLearnOffset) <= rates[i] <= RateBiasCap(maxLearnOffset)
  }

  /** Bucket `i` after `normalizeRateBiases`: the old bias if there was one, else 0, clamped. */
  function NormalizedRate(rateBiases: seq<int>, maxLearnOffset: int, i: nat): int
  {
    ClampRateBias(if i < |rateBiases| then rateBiases[i] else 0, maxLearnOffset)
  }

  /**
   * `normalizeRateBiases`: a fresh slice of one bias per bucket, copied from
   * the input as far as it reaches and clamped; changed exactly when the
   * result differs from the input, in length or in an element.
   */
  method NormalizeRateBiases(rateBiases: seq<int>, maxLearnOffset: int) returns (normalized: seq<int>, changed: bool)
    ensures |normalized| == RateBucketCount()
    ensures forall i :: 0 <= i < |normalized| ==> normalized[i] == NormalizedRate(rateBiases, maxLearnOffset, i)
    ensures changed <==> normalized != rateBiases
  {
    var needLen := RateBucketCount();
    var a := new int[needLen](i requires 0 <= i < needLen => if i < |rateBiases| then rateBiases[i] else 0);
    changed := |rateBiases| != needLen;
    for i := 0 to a.Length
      invariant forall k :: 0 <= k < i ==> a[k] == NormalizedRate(rateBiases, maxLearnOffset, k)
      invariant forall k :: i <= k < a.Length ==> a[k] == if k < |rateBiases| then rateBiases[k] else 0
      invariant changed <==> |rateBiases| != needLen || exists k :: 0 <= k < i && a[k] != rateBiases[k]
    {
      var clamped := ClampRateBias(a[i], maxLearnOffset);
      if clamped != a[i] {
        a[i] := clamped;
        changed := true;
      }
    }
    normalized := a[..];
    assert |rateBiases| == needLen ==>
      (normalized != rateBiases <==> exists k :: 0 <= k < needLen && normalized[k] != rateBiases[k]);
  }

  /** Normalized biases have one entry per bucket, all within the cap. */
  lemma NormalizedRatesWithinCap(rateBiases: seq<int>, maxLearnOffset: int, normalized: seq<int>)
    requires |normalized| == RateBucketCount()
    requires forall i :: 0 <= i < |normalized| ==> normalized[i] == NormalizedRate(rateBiases, maxLearnOffset, i)
    ensures RatesWithinCap(normalized, maxLearnOffset)
    ensures RatesWithinCap(rateBiases, maxLearnOffset) && |rateBiases| == RateBucketCount() ==> normalized == rateBiases
  {
  }

  // ---------------------------------------------------------------------
  // Single-entry updates
  // ---------------------------------------------------------------------

  /**
   * The offsets after `applyDeltaAtIndex`: unchanged for a zero step or an
   * index outside the offsets or the curve; else entry `idx` moved by `delta`
   * and clamped to its point.
   */
  function DeltaApplied(offsets: seq<int>, idx: int, delta: int, curve: seq<FanCurvePoint>, maxLearnOffset: int): seq<int>
  {
    if delta == 0 || idx < 0 || idx >= |offsets| || idx >= |curve| then offsets
    else
      var (left, right) := CurveEdgeRPMBounds(curve);
      offsets[idx := ClampOffsetForPoint(offsets[idx] + delta, curve[idx].rpm, left, right, maxLearnOffset)]
  }

  /**
   * Only entry `idx` can change, and when it does it ends within its
   * point's bounds; a zero step or an index out of range changes nothing.
   */
  lemma DeltaAppliedFrame(offsets: seq<int>, idx: int, delta: int, curve: seq<FanCurvePoint>, maxLearnOffset: int)
    ensures var r := DeltaApplied(offsets, idx, delta, curve, maxLearnOffset);
      && |r| == |offsets|
      && (forall j :: 0 <= j < |r| && j != idx ==> r[j] == offsets[j])
      && (delta == 0 || idx < 0 || idx >= |offsets| || idx >= |curve| ==> r == offsets)
      && (0 <= idx < |offsets| && idx < |curve| && delta != 0 ==>
            var (left, right) := CurveEdgeRPMBounds(curve);
            InPointBounds(r[idx], curve[idx].rpm, left, right, maxLearnOffset))
  {
  }

  /** `applyDeltaAtIndex`: writes the moved and clamped entry in place; true exactly when it changed. */
  method ApplyDeltaAtIndex(offsets: array<int>, idx: int, delta: int, curve: seq<FanCurvePoint>, maxLearnOffset: int)
    returns (changed: bool)
    modifies offsets
    ensures offsets[..] == DeltaApplied(old(offsets[..]), idx, delta, curve, maxLearnOffset)
    ensures changed <==> offsets[..] != old(offsets[..])
  {
    if delta == 0 || idx < 0 || idx >= offsets.Length {
      return false;
    }
    if idx >= |curve| {
      return false;
    }
    var (leftMinRPM, rightMaxRPM) := CurveEdgeRPMBounds(curve);
    var newValue := ClampOffsetForPoint(offsets[idx] + delta, curve[idx].rpm, leftMinRPM, rightMaxRPM, maxLearnOffset);
    if newValue == offsets[idx] {
      assert offsets[..] == old(offsets[..])[idx := newValue];
      return false;
    }
    offsets[idx] := newValue;
    assert offsets[..][idx] != old(offsets[..])[idx];
    return true;
  }

  /** The biases after `applyRateBiasDeltaAtIndex`: entry `idx` moved by `delta` and clamped to the cap. */
  function RateDeltaApplied(rateBiases: seq<int>, idx: int, delta: int, maxLearnOffset: int): seq<int>
  {
    if delta == 0 || idx < 0 || idx >= |rateBiases| then rateBiases
    else rateBiases[idx := ClampRateBias(rateBiases[idx] + delta, maxLearnOffset)]
  }

  /** Only entry `idx` can change, and it ends within the cap. */
  lemma RateDeltaAppliedFrame(rateBiases: seq<int>, idx: int, delta: int, maxLearnOffset: int)
    ensures var r := RateDeltaApplied(rateBiases, idx, delta, maxLearnOffset);
      && |r| == |rateBiases|
      && (forall j :: 0 <= j < |r| && j != idx ==> r[j] == rateBiases[j])
      && (delta == 0 || idx < 0 || idx >= |rateBiases| ==> r == rateBiases)
      && (0 <= idx < |r| && delta != 0 ==> -RateBiasCap(maxLearnOffset) <= r[idx] <= RateBiasCap(maxLearnOffset))
  {
  }

  /** `applyRateBiasDeltaAtIndex`: in place; true exactly when the entry changed. */
  method ApplyRateBiasDeltaAtIndex(rateBiases: array<int>, idx: int, delta: int, maxLearnOffset: int)
    returns (changed: bool)
    modifies rateBiases
    ensures rateBiases[..] == RateDeltaApplied(old(rateBiases[..]), idx, delta, maxLearnOffset)
    ensures changed <==> rateBiases[..] != old(rateBiases[..])
  {
    if delta == 0 || idx < 0 || idx >= rateBiases.Length {
      return false;
    }
    var newValue := ClampRateBias(rateBiases[idx] + delta, maxLearnOffset);
    if newValue == rateBiases[idx] {
      assert rateBiases[..] == old(rateBiases[..])[idx := newValue];
      return false;
    }
    rateBiases[idx] := newValue;
    assert rateBiases[..][idx] != old(rateBiases[..])[idx];
    return true;
  }

  // ---------------------------------------------------------------------
  // Step sizes
  // ---------------------------------------------------------------------

  function SignInt(value: int): (r: int)
    ensures -1 <= r <= 1
    ensures r == 0 <==> value == 0
    ensures r > 0 <==> value > 0
  {
    if value > 0 then 1 else if value < 0 then -1 else 0
  }

  /**
   * `scaledDelta`: `delta` scaled by `numerator/denominator`, the magnitude
   * rounded up but at least 1, the sign kept; 0 for a zero step or a
   * denominator that is not positive.
   */
  function ScaledDelta(delta: int, numerator: int, denominator: int): (r: int)
  {
    if delta == 0 || denominator <= 0 then 0
    else
      var absDelta := AbsInt(delta);
      var scaled := TruncDiv(absDelta * numerator + denominator - 1, denominator);
      var scaled' := if scaled == 0 then 1 else scaled;
      if delta < 0 then -scaled' else scaled'
  }

  /**
   * For the fractions the learner uses (2/3, 1/3, 1/8) the scaled step is zero only for a zero step,
   * keeps its sign, and is at least 1 and at most the step in magnitude.
   */
  lemma ScaledDeltaShape(delta: int, numerator: int, denominator: int)
    requires (numerator, denominator) in {(2, 3), (1, 3), (1, 8)}
    ensures var r := ScaledDelta(delta, numerator, denominator);
      && (r == 0 <==> delta == 0)
      && SignInt(r) == SignInt(delta)
      && (delta != 0 ==> 1 <= AbsInt(r) <= AbsInt(delta))
  {
  }

  /** The divisor that compresses a learning score into a curve step. */
  function CurveStepDenominator(learnRate: int): int { Max(10, 24 - learnRate * 2) }

  /** The divisor that compresses a learning score into a rate step. */
  function RateStepDenominator(learnRate: int): int { Max(14, 28 - learnRate * 2) }

  /** A score divided down, its sign when that rounds to zero, then clamped. */
  function CompressStep(raw: int, denominator: int, lo: int, hi: int): int
    requires denominator > 0
  {
    var delta := TruncDiv(raw, denominator);
    var delta' := if delta == 0 then SignInt(raw) else delta;
    ClampInt(delta', lo, hi)
  }

  function CurveStep(raw: int, learnRate: int): int { CompressStep(raw, CurveStepDenominator(learnRate), -4, 6) }

  function RateStep(raw: int, learnRate: int): int { CompressStep(raw, RateStepDenominator(learnRate), -3, 4) }

  /** A non-zero score compresses to a non-zero step of its own sign within the clamp range. */
  lemma CompressStepNonZero(raw: int, denominator: int, lo: int, hi: int)
    requires raw != 0 && denominator > 0 && lo <= -1 && 1 <= hi
    ensures var d := CompressStep(raw, denominator, lo, hi); d != 0 && lo <= d <= hi && SignInt(d) == SignInt(raw)
  {
    TruncDivBounds(raw, denominator);
  }

  /**
   * Any score the learner acts on (it skips scores below 4 in magnitude)
   * gives a non-zero curve step in -4..6 and a non-zero rate step in -3..4,
   * both with the score's sign.
   */
  lemma StepsNonZero(raw: int, learnRate: int)
    requires raw != 0
    ensures var d := CurveStep(raw, learnRate); d != 0 && -4 <= d <= 6 && SignInt(d) == SignInt(raw)
    ensures var d := RateStep(raw, learnRate); d != 0 && -3 <= d <= 4 && SignInt(d) == SignInt(raw)
  {
    CompressStepNonZero(raw, CurveStepDenominator(learnRate), -4, 6);
    CompressStepNonZero(raw, RateStepDenominator(learnRate), -3, 4);
  }

  // ---------------------------------------------------------------------
  // Smoothing
  // ---------------------------------------------------------------------

  /** The neighbourhood average of offset `i`: weight 5 for itself and 1 for each neighbour, truncated. */
  function OffsetAverage(s: seq<int>, i: nat): int
    requires i < |s|
  {
    var prev := if i > 0 then s[i - 1] else 0;
    var next := if i + 1 < |s| then s[i + 1] else 0;
    var weight := 5 + (if i > 0 then 1 else 0) + (if i + 1 < |s| then 1 else 0);
    TruncDiv(s[i] * 5 + prev + next, weight)
  }

  /** The largest step between neighbouring offsets the smoothing lets through. */
  function MaxOffsetJump(maxLearnOffset: int): int { Min(Max(20, TruncDiv(maxLearnOffset, 10)), 90) }

  /**
   * Offset `i` after `smoothAndClampOffsets`, given the new offsets `p` before
   * it: the average of the original neighbourhood, kept within the jump of
   * the new previous offset, then clamped to its point.
   */
  function NextSmoothedOffset(s: seq<int>, curve: seq<FanCurvePoint>, maxLearnOffset: int, p: seq<int>): int
    requires |p| < |s| <= |curve|
  {
    var i := |p|;
    var jump := MaxOffsetJump(maxLearnOffset);
    var candidate := if i > 0 then ClampInt(OffsetAverage(s, i), p[i - 1] - jump, p[i - 1] + jump) else OffsetAverage(s, i);
    var (left, right) := CurveEdgeRPMBounds(curve);
    ClampOffsetForPoint(candidate, curve[i].rpm, left, right, maxLearnOffset)
  }

  /** The first `n` offsets after `smoothAndClampOffsets`. */
  function SmoothedOffsetPrefix(s: seq<int>, curve: seq<FanCurvePoint>, maxLearnOffset: int, n: nat): (p: seq<int>)
    requires n <= |s| <= |curve|
    ensures |p| == n
  {
    if n == 0 then []
    else
      var p := SmoothedOffsetPrefix(s, curve, maxLearnOffset, n - 1);
      p + [NextSmoothedOffset(s, curve, maxLearnOffset, p)]
  }

  function SmoothedOffsets(s: seq<int>, curve: seq<FanCurvePoint>, maxLearnOffset: int): seq<int>
    requires |curve| > 0 ==> |s| <= |curve|
  {
    if |s| == 0 || |curve| == 0 then s else SmoothedOffsetPrefix(s, curve, maxLearnOffset, |s|)
  }

  /** Smoothing keeps the length and leaves every offset within its point's bounds. */
  lemma {:induction false} SmoothedOffsetPrefixInBounds(s: seq<int>, curve: seq<FanCurvePoint>, maxLearnOffset: int, n: nat)
    requires n <= |s| <= |curve|
    ensures OffsetsInCurveBounds(SmoothedOffsetPrefix(s, curve, maxLearnOffset, n), curve, maxLearnOffset)
  {
    if n > 0 {
      SmoothedOffsetPrefixInBounds(s, curve, maxLearnOffset, n - 1);
    }
  }

  lemma SmoothedOffsetsInBounds(s: seq<int>, curve: seq<FanCurvePoint>, maxLearnOffset: int)
    requires |s| <= |curve|
    ensures |SmoothedOffsets(s, curve, maxLearnOffset)| == |s|
    ensures |s| > 0 ==> OffsetsInCurveBounds(SmoothedOffsets(s, curve, maxLearnOffset), curve, maxLearnOffset)
  {
    if |s| > 0 {
      SmoothedOffsetPrefixInBounds(s, curve, maxLearnOffset, |s|);
    }
  }

  /**
   * `smoothAndClampOffsets`: first the neighbourhood averages of the original
   * offsets, then a pass in order that overwrites each offset, reading the
   * already-updated previous one; true exactly when something changed.
   */
  method SmoothAndClampOffsets(offsets: array<int>, curve: seq<FanCurvePoint>, maxLearnOffset: int) returns (changed: bool)
    requires |curve| > 0 ==> offsets.Length <= |curve|
    modifies offsets
    ensures offsets[..] == SmoothedOffsets(old(offsets[..]), curve, maxLearnOffset)
    ensures changed <==> offsets[..] != old(offsets[..])
  {
    if offsets.Length == 0 || |curve| == 0 {
      return false;
    }
    changed := false;
    var (leftMinRPM, rightMaxRPM) := CurveEdgeRPMBounds(curve);
    ghost var orig := offsets[..];

    var smoothed := WeightedAverages(offsets);

    var maxJump := MaxOffsetJump(maxLearnOffset);
    for i := 0 to offsets.Length
      invariant forall k :: 0 <= k < offsets.Length ==> smoothed[k] == OffsetAverage(orig, k)
      invariant offsets[..i] == SmoothedOffsetPrefix(orig, curve, maxLearnOffset, i)
      invariant offsets[i..] == orig[i..]
      invariant changed <==> offsets[..i] != orig[..i]
    {
      var candidate := smoothed[i];
      if i > 0 {
        candidate := ClampInt(candidate, offsets[i - 1] - maxJump, offsets[i - 1] + maxJump);
      }
      ghost var jumped := candidate;
      candidate := ClampOffsetForPoint(candidate, curve[i].rpm, leftMinRPM, rightMaxRPM, maxLearnOffset);
      OffsetSmoothStep(orig, curve, maxLearnOffset, offsets[..], i, jumped, candidate);
      if candidate != offsets[i] {
        offsets[i] := candidate;
        changed := true;
      }
    }
    assert offsets[..] == offsets[..offsets.Length];
  }

  /** The first pass of `smoothAndClampOffsets`: each entry's weighted average with its neighbours. */
  method WeightedAverages(offsets: array<int>) returns (smoothed: array<int>)
    ensures fresh(smoothed) && smoothed.Length == offsets.Length
    ensures forall k :: 0 <= k < offsets.Length ==> smoothed[k] == OffsetAverage(offsets[..], k)
  {
    smoothed := new int[offsets.Length];
    for i := 0 to offsets.Length
      invariant forall k :: 0 <= k < i ==> smoothed[k] == OffsetAverage(offsets[..], k)
    {
      var weighted := offsets[i] * 5;
      var weight := 5;
      if i > 0 {
        weighted := weighted + offsets[i - 1];
        weight := weight + 1;
      }
      if i + 1 < offsets.Length {
        weighted := weighted + offsets[i + 1];
        weight := weight + 1;
      }
      smoothed[i] := TruncDiv(weighted, weight);
    }
  }

  /** One step of the in-order pass of `smoothAndClampOffsets`. */
  lemma OffsetSmoothStep(orig: seq<int>, curve: seq<FanCurvePoint>, maxLearnOffset: int, cur: seq<int>, i: nat, jumped: int, v: int)
    requires i < |cur| == |orig| <= |curve|
    requires cur[..i] == SmoothedOffsetPrefix(orig, curve, maxLearnOffset, i) && cur[i..] == orig[i..]
    requires jumped == if i > 0 then ClampInt(OffsetAverage(orig, i), cur[i - 1] - MaxOffsetJump(maxLearnOffset), cur[i - 1] + MaxOffsetJump(maxLearnOffset)) else OffsetAverage(orig, i)
    requires v == ClampOffsetForPoint(jumped, curve[i].rpm, CurveEdgeRPMBounds(curve).0, CurveEdgeRPMBounds(curve).1, maxLearnOffset)
    ensures cur[i := v][..i + 1] == SmoothedOffsetPrefix(orig, curve, maxLearnOffset, i + 1)
    ensures cur[i := v][i + 1..] == orig[i + 1..]
    ensures (cur[i := v][..i + 1] != orig[..i + 1]) <==> (cur[..i] != orig[..i] || v != orig[i])
    ensures v == cur[i] ==> cur[i := v] == cur
  {
    if i > 0 {
      assert cur[..i][i - 1] == cur[i - 1];
    }
    assert v == NextSmoothedOffset(orig, curve, maxLearnOffset, cur[..i]);
    PrefixStep(cur, orig, i, v);
  }

  /** One step of an in-order overwrite: the prefix grows by the new value and differs from the original's exactly when it did or the new value does. */
  lemma PrefixStep(cur: seq<int>, orig: seq<int>, i: nat, v: int)
    requires i < |cur| == |orig| && cur[i..] == orig[i..]
    ensures cur[i := v][..i + 1] == cur[..i] + [v]
    ensures cur[i := v][i + 1..] == orig[i + 1..]
    ensures (cur[i := v][..i + 1] != orig[..i + 1]) <==> (cur[..i] != orig[..i] || v != orig[i])
    ensures v == cur[i] ==> cur[i := v] == cur
  {
    assert cur[i] == orig[i] by { assert cur[i..][0] == orig[i..][0]; }
    assert orig[..i + 1] == orig[..i] + [orig[i]];
    if cur[..i] == orig[..i] && v == orig[i] {
      assert cur[i := v][..i + 1] == orig[..i + 1];
    }
    assert cur[i := v][i + 1..] == cur[i + 1..] == orig[i + 1..] by {
      assert cur[i + 1..] == cur[i..][1..] && orig[i + 1..] == orig[i..][1..];
    }
  }

  /** The neighbourhood average of rate bias `i`: weight 4 for itself and 2 for each neighbour, truncated. */
  function RateAverage(s: seq<int>, i: nat): int
    requires i < |s|
  {
    var prev := if i > 0 then s[i - 1] * 2 else 0;
    var next := if i + 1 < |s| then s[i + 1] * 2 else 0;
    var weight := 4 + (if i > 0 then 2 else 0) + (if i + 1 < |s| then 2 else 0);
    TruncDiv(s[i] * 4 + prev + next, weight)
  }

  /** The largest step between neighbouring rate biases the smoothing lets through. */
  function MaxRateJump(maxLearnOffset: int): (j: int)
    ensures 12 <= j <= 45
  {
    Min(Max(12, TruncDiv(maxLearnOffset, 20)), 45)
  }

  /** Bias `i` after `smoothRateBiases`, given the new biases `p` before it: the average clamped to the cap, then kept within the jump of the new previous bias. */
  function NextSmoothedRate(s: seq<int>, maxLearnOffset: int, p: seq<int>): int
    requires |p| < |s|
  {
    var i := |p|;
    var jump := MaxRateJump(maxLearnOffset);
    var candidate := ClampRateBias(RateAverage(s, i), maxLearnOffset);
    if i > 0 then ClampInt(candidate, p[i - 1] - jump, p[i - 1] + jump) else candidate
  }

  /** The first `n` biases after `smoothRateBiases`. */
  function SmoothedRatePrefix(s: seq<int>, maxLearnOffset: int, n: nat): (p: seq<int>)
    requires n <= |s|
    ensures |p| == n
  {
    if n == 0 then []
    else
      var p := SmoothedRatePrefix(s, maxLearnOffset, n - 1);
      p + [NextSmoothedRate(s, maxLearnOffset, p)]
  }

  /** One step of the in-order pass of `smoothRateBiases`. */
  lemma RateSmoothStep(orig: seq<int>, maxLearnOffset: int, cur: seq<int>, i: nat, v: int)
    requires i < |cur| == |orig|
    requires cur[..i] == SmoothedRatePrefix(orig, maxLearnOffset, i) && cur[i..] == orig[i..]
    requires v == NextSmoothedRate(orig, maxLearnOffset, cur[..i])
    ensures cur[i := v][..i + 1] == SmoothedRatePrefix(orig, maxLearnOffset, i + 1)
    ensures cur[i := v][i + 1..] == orig[i + 1..]
    ensures (cur[i := v][..i + 1] != orig[..i + 1]) <==> (cur[..i] != orig[..i] || v != orig[i])
    ensures v == cur[i] ==> cur[i := v] == cur
  {
    PrefixStep(cur, orig, i, v);
  }

  function SmoothedRates(s: seq<int>, maxLearnOffset: int): seq<int>
  {
    if |s| == 0 then s else SmoothedRatePrefix(s, maxLearnOffset, |s|)
  }

  /** Neighbouring biases differ by at most the jump, and none leaves the cap. */
  predicate RatesSmooth(p: seq<int>, maxLearnOffset: int)
  {
    && RatesWithinCap(p, maxLearnOffset)
    && forall i :: 0 < i < |p| ==> -MaxRateJump(maxLearnOffset) <= p[i] - p[i - 1] <= MaxRateJump(maxLearnOffset)
  }

  lemma {:induction false} SmoothedRatePrefixSmooth(s: seq<int>, maxLearnOffset: int, n: nat)
    requires n <= |s|
    ensures RatesSmooth(SmoothedRatePrefix(s, maxLearnOffset, n), maxLearnOffset)
  {
    if n > 0 {
      var p := SmoothedRatePrefix(s, maxLearnOffset, n - 1);
      SmoothedRatePrefixSmooth(s, maxLearnOffset, n - 1);
      NextSmoothedRateBounds(s, maxLearnOffset, p);
      SmoothSnoc(p, NextSmoothedRate(s, maxLearnOffset, p), maxLearnOffset);
    }
  }

  /** The next smoothed bias stays within the cap and within the jump of the previous one. */
  lemma NextSmoothedRateBounds(s: seq<int>, maxLearnOffset: int, p: seq<int>)
    requires |p| < |s| && RatesWithinCap(p, maxLearnOffset)
    ensures var v := NextSmoothedRate(s, maxLearnOffset, p);
      && -RateBiasCap(maxLearnOffset) <= v <= RateBiasCap(maxLearnOffset)
      && (|p| > 0 ==> -MaxRateJump(maxLearnOffset) <= v - p[|p| - 1] <= MaxRateJump(maxLearnOffset))
  {
    if |p| > 0 {
      assert -RateBiasCap(maxLearnOffset) <= p[|p| - 1] <= RateBiasCap(maxLearnOffset);
    }
  }

  /** Appending a bias within the cap and the jump keeps a smooth sequence smooth. */
  lemma SmoothSnoc(p: seq<int>, v: int, maxLearnOffset: int)
    requires RatesSmooth(p, maxLearnOffset)
    requires -RateBiasCap(maxLearnOffset) <= v <= RateBiasCap(maxLearnOffset)
    requires |p| > 0 ==> -MaxRateJump(maxLearnOffset) <= v - p[|p| - 1] <= MaxRateJump(maxLearnOffset)
    ensures RatesSmooth(p + [v], maxLearnOffset)
  {
    var q := p + [v];
    forall i | 0 < i < |q|
      ensures -MaxRateJump(maxLearnOffset) <= q[i] - q[i - 1] <= MaxRateJump(maxLearnOffset)
    {
      if i < |p| {
        assert q[i] == p[i] && q[i - 1] == p[i - 1];
      }
    }
  }

  /** Smoothing keeps the length, keeps every bias within the cap and bounds each step between neighbours. */
  lemma SmoothedRatesSmooth(s: seq<int>, maxLearnOffset: int)
    ensures |SmoothedRates(s, maxLearnOffset)| == |s|
    ensures RatesSmooth(SmoothedRates(s, maxLearnOffset), maxLearnOffset)
  {
    if |s| > 0 {
      SmoothedRatePrefixSmooth(s, maxLearnOffset, |s|);
    }
  }

  /** `smoothRateBiases`: averages of the original biases, then an in-order overwrite; true exactly when something changed. */
  method SmoothRateBiases(rateBiases: array<int>, maxLearnOffset: int) returns (changed: bool)
    modifies rateBiases
    ensures rateBiases[..] == SmoothedRates(old(rateBiases[..]), maxLearnOffset)
    ensures changed <==> rateBiases[..] != old(rateBiases[..])
  {
    if rateBiases.Length == 0 {
      return false;
    }
    changed := false;
    ghost var orig := rateBiases[..];

    var smoothed := new int[rateBiases.Length];
    for i := 0 to rateBiases.Length
      invariant rateBiases[..] == orig
      invariant forall k :: 0 <= k < i ==> smoothed[k] == RateAverage(orig, k)
    {
      var weighted := rateBiases[i] * 4;
      var weight := 4;
      if i > 0 {
        weighted := weighted + rateBiases[i - 1] * 2;
        weight := weight + 2;
      }
      if i + 1 < rateBiases.Length {
        weighted := weighted + rateBiases[i + 1] * 2;
        weight := weight + 2;
      }
      smoothed[i] := TruncDiv(weighted, weight);
    }

    var maxJump := MaxRateJump(maxLearnOffset);
    for i := 0 to rateBiases.Length
      invariant forall k :: 0 <= k < rateBiases.Length ==> smoothed[k] == RateAverage(orig, k)
      invariant rateBiases[..i] == SmoothedRatePrefix(orig, maxLearnOffset, i)
      invariant rateBiases[i..] == orig[i..]
      invariant changed <==> rateBiases[..i] != orig[..i]
    {
      var candidate := ClampRateBias(smoothed[i], maxLearnOffset);
      if i > 0 {
        candidate := ClampInt(candidate, rateBiases[i - 1] - maxJump, rateBiases[i - 1] + maxJump);
      }
      assert candidate == NextSmoothedRate(orig, maxLearnOffset, rateBiases[..i]);
      RateSmoothStep(orig, maxLearnOffset, rateBiases[..], i, candidate);
      if candidate != rateBiases[i] {
        rateBiases[i] := candidate;
        changed := true;
      }
    }
    assert rateBiases[..] == rateBiases[..rateBiases.Length];
  }

  // ---------------------------------------------------------------------
  // Window stability
  // ---------------------------------------------------------------------

  function SeqMax(s: seq<int>): int
    requires |s| > 0
  {
    if |s| == 1 then s[0] else Max(SeqMax(s[..|s| - 1]), s[|s| - 1])
  }

  function SeqMin(s: seq<int>): int
    requires |s| > 0
  {
    if |s| == 1 then s[0] else Min(SeqMin(s[..|s| - 1]), s[|s| - 1])
  }

  /** The window is stable when its temperatures span no more than the allowed range (at least 2). */
  predicate StableWindow(temps: seq<int>, allowedRange: int)
  {
    |temps| > 0 && SeqMax(temps) - SeqMin(temps) <= Max(2, allowedRange)
  }

  /** `isStableLearningWindow`: a running maximum and minimum, then the range test. */
  method IsStableLearningWindow(temps: seq<int>, allowedRange: int) returns (stable: bool)
    ensures stable <==> StableWindow(temps, allowedRange)
  {
    if |temps| == 0 {
      return false;
    }
    var maxTemp := temps[0];
    var minTemp := temps[0];
    for i := 1 to |temps|
      invariant maxTemp == SeqMax(temps[..i]) && minTemp == SeqMin(temps[..i])
    {
      assert temps[..i + 1][..i] == temps[..i];
      if temps[i] > maxTemp {
        maxTemp := temps[i];
      }
      if temps[i] < minTemp {
        minTemp := temps[i];
      }
    }
    assert temps[..|temps|] == temps;
    return maxTemp - minTemp <= Max(2, allowedRange);
  }

  /** The running maximum and minimum bound every element of the window. */
  lemma {:induction false} SeqMaxMinBound(s: seq<int>, i: nat)
    requires i < |s|
    ensures SeqMin(s) <= s[i] <= SeqMax(s)
  {
    if i < |s| - 1 {
      SeqMaxMinBound(s[..|s| - 1], i);
    }
  }

  /** The maximum is attained. */
  lemma {:induction false} SeqMaxWitness(s: seq<int>) returns (w: nat)
    requires |s| > 0
    ensures w < |s| && s[w] == SeqMax(s)
  {
    if |s| == 1 || SeqMax(s[..|s| - 1]) < s[|s| - 1] {
      w := |s| - 1;
    } else {
      w := SeqMaxWitness(s[..|s| - 1]);
    }
  }

  /** The minimum is attained. */
  lemma {:induction false} SeqMinWitness(s: seq<int>) returns (w: nat)
    requires |s| > 0
    ensures w < |s| && s[w] == SeqMin(s)
  {
    if |s| == 1 || SeqMin(s[..|s| - 1]) > s[|s| - 1] {
      w := |s| - 1;
    } else {
      w := SeqMinWitness(s[..|s| - 1]);
    }
  }

  /** A window is stable exactly when it is non-empty and no two of its temperatures differ by more than the allowed range. */
  lemma StableWindowPairwise(temps: seq<int>, allowedRange: int)
    ensures StableWindow(temps, allowedRange) <==>
      |temps| > 0 && forall i, j :: 0 <= i < |temps| && 0 <= j < |temps| ==> temps[i] - temps[j] <= Max(2, allowedRange)
  {
    if |temps| > 0 {
      forall i, j | 0 <= i < |temps| && 0 <= j < |temps|
        ensures SeqMin(temps) <= temps[j] && temps[i] <= SeqMax(temps)
      {
        SeqMaxMinBound(temps, i);
        SeqMaxMinBound(temps, j);
      }
      var hi := SeqMaxWitness(temps);
      var lo := SeqMinWitness(temps);
      assert temps[hi] - temps[lo] == SeqMax(temps) - SeqMin(temps);
    }
  }

  // ---------------------------------------------------------------------
  // One learning step
  // ---------------------------------------------------------------------

  /** A slice of `n` entries holding `s` as far as it reaches and zeros after it, as `make` then `copy` builds it. */
  function Resized(s: seq<int>, n: nat): seq<int>
  {
    seq(n, i requires 0 <= i < n => if i < |s| then s[i] else 0)
  }

  /** The normalized biases as one value: one clamped bias per bucket. */
  function NormalizedRates(rateBiases: seq<int>, maxLearnOffset: int): seq<int>
  {
    seq(RateBucketCount(), i requires 0 <= i < RateBucketCount() => NormalizedRate(rateBiases, maxLearnOffset, i))
  }

  function LearningWindow(cfg: SmartControlConfig): int { Max(3, cfg.learnWindow) }
  function LearningDelay(cfg: SmartControlConfig): int { Max(1, cfg.learnDelay) }

  /**
   * The learning score of one step: the temperature error, overheat and
   * trend push it up, a large speed change and noise at high speed pull it
   * down, with the corrections for pre-heating, the delayed temperature
   * change, a cold idle and a quiet warm-up.
   */
  function LearnScore(avgTemp: int, lastAvgTemp: int, targetRPM: int, lastTargetRPM: int, learnTempDelta: int, cfg: SmartControlConfig): int
  {
    var errorTemp := avgTemp - cfg.targetTemp;
    var tempDelta := avgTemp - lastAvgTemp;
    var overheat := Max(0, avgTemp - (cfg.targetTemp + cfg.hysteresis));
    var rpmDelta := AbsInt(targetRPM - lastTargetRPM);
    var noise := Max(0, targetRPM - 2800);
    var tempTerm := errorTemp * (4 + cfg.learnRate);
    var overheatTerm := overheat * (2 + cfg.overheatWeight);
    var trendTerm := tempDelta * (2 + cfg.trendGain);
    var changePenalty := TruncDiv(rpmDelta, Max(30, cfg.minRPMChange)) * (2 + cfg.rpmDeltaWeight);
    var noisePenalty := TruncDiv(noise, 180) * cfg.noiseWeight;
    var raw0 := tempTerm + overheatTerm + trendTerm - changePenalty - noisePenalty;
    var preheatBand := cfg.hysteresis + 4;
    var distanceToTarget := cfg.targetTemp - avgTemp;
    var raw1 := if tempDelta > 0 && 0 <= distanceToTarget <= preheatBand
      then raw0 + (preheatBand - distanceToTarget) * (1 + TruncDiv(cfg.trendGain, 2)) else raw0;
    var raw2 := if learnTempDelta > 0 then raw1 + learnTempDelta * (2 + cfg.trendGain)
      else if learnTempDelta < 0 then raw1 + learnTempDelta * Max(1, TruncDiv(cfg.trendGain, 2))
      else raw1;
    var raw3 := if errorTemp < -cfg.hysteresis - 1 && tempDelta <= 0 then raw2 - (3 + cfg.noiseWeight) else raw2;
    var lowRpmDeltaBand := Max(20, TruncDiv(cfg.minRPMChange, 2));
    if tempDelta > 0 && rpmDelta <= lowRpmDeltaBand && errorTemp <= cfg.hysteresis + 2
    then raw3 - (4 + TruncDiv(cfg.noiseWeight, 2)) else raw3
  }

  /**
   * The cases in which `LearnCurveOffsets` returns without learning: too
   * little history, an unstable window while not overheating, or a score
   * too small to act on.
   */
  predicate LearningSkipped(avgTemp: int, lastAvgTemp: int, targetRPM: int, lastTargetRPM: int, recentAvgTemps: seq<int>, cfg: SmartControlConfig)
  {
    || |recentAvgTemps| < LearningWindow(cfg) + LearningDelay(cfg)
    || (!StableWindow(WindowTemps(recentAvgTemps, cfg), cfg.hysteresis + 1) && avgTemp < cfg.targetTemp + cfg.hysteresis + 3)
    || AbsInt(LearnScore(avgTemp, lastAvgTemp, targetRPM, lastTargetRPM, LearnTempDelta(recentAvgTemps, cfg), cfg)) < 4
  }

  /** The samples the stability test looks at: a window ending `LearningDelay` samples before the newest. */
  function WindowTemps(recentAvgTemps: seq<int>, cfg: SmartControlConfig): seq<int>
    requires |recentAvgTemps| >= LearningWindow(cfg) + LearningDelay(cfg)
  {
    var windowStart := |recentAvgTemps| - (LearningWindow(cfg) + LearningDelay(cfg));
    recentAvgTemps[windowStart..windowStart + LearningWindow(cfg)]
  }

  /** The temperature the step learns at: the sample `LearningDelay` back from the newest. */
  function LearnTemp(recentAvgTemps: seq<int>, cfg: SmartControlConfig): int
    requires |recentAvgTemps| >= LearningWindow(cfg) + LearningDelay(cfg)
  {
    recentAvgTemps[|recentAvgTemps| - LearningDelay(cfg)]
  }

  /** The temperature change the step learns from: the sample `LearningDelay` back minus the one before it. */
  function LearnTempDelta(recentAvgTemps: seq<int>, cfg: SmartControlConfig): int
    requires |recentAvgTemps| >= LearningWindow(cfg) + LearningDelay(cfg)
  {
    var n := |recentAvgTemps|;
    recentAvgTemps[n - LearningDelay(cfg)] - recentAvgTemps[n - LearningDelay(cfg) - 1]
  }

  /** The active side's offsets after the step: the full step at `idx`, two thirds beside it, one third two points away. */
  function ActiveOffsetStep(s: seq<int>, idx: int, delta: int, curve: seq<FanCurvePoint>, maxLearnOffset: int): seq<int>
  {
    var s1 := DeltaApplied(s, idx, delta, curve, maxLearnOffset);
    var s2 := DeltaApplied(s1, idx - 1, ScaledDelta(delta, 2, 3), curve, maxLearnOffset);
    var s3 := DeltaApplied(s2, idx + 1, ScaledDelta(delta, 2, 3), curve, maxLearnOffset);
    var s4 := DeltaApplied(s3, idx - 2, ScaledDelta(delta, 1, 3), curve, maxLearnOffset);
    DeltaApplied(s4, idx + 2, ScaledDelta(delta, 1, 3), curve, maxLearnOffset)
  }

  /** The active side's biases after the step: the full step in the bucket, two thirds in the buckets beside it. */
  function ActiveRateStep(s: seq<int>, rateIdx: int, rateDelta: int, maxLearnOffset: int): seq<int>
  {
    var s1 := RateDeltaApplied(s, rateIdx, rateDelta, maxLearnOffset);
    var s2 := RateDeltaApplied(s1, rateIdx - 1, ScaledDelta(rateDelta, 2, 3), maxLearnOffset);
    RateDeltaApplied(s2, rateIdx + 1, ScaledDelta(rateDelta, 2, 3), maxLearnOffset)
  }

  /**
   * What one learning step makes of the side that follows the trend
   * (`active`) and the other side (`passive`): the step at the nearest
   * point and rate bucket, an eighth of it on the other side, then the
   * smoothing of all four slices.
   */
  function SidesStep(active: seq<int>, passive: seq<int>, activeRate: seq<int>, passiveRate: seq<int>,
                     idx: int, rateIdx: int, raw: int, curve: seq<FanCurvePoint>, cfg: SmartControlConfig)
    : (seq<int>, seq<int>, seq<int>, seq<int>)
    requires |active| == |passive| == |curve| > 0
  {
    var m := cfg.maxLearnOffset;
    var delta := CurveStep(raw, cfg.learnRate);
    var rateDelta := RateStep(raw, cfg.learnRate);
    (SmoothedOffsets(ActiveOffsetStep(active, idx, delta, curve, m), curve, m),
     SmoothedOffsets(DeltaApplied(passive, idx, ScaledDelta(delta, 1, 8), curve, m), curve, m),
     SmoothedRates(ActiveRateStep(activeRate, rateIdx, rateDelta, m), m),
     SmoothedRates(RateDeltaApplied(passiveRate, rateIdx, ScaledDelta(rateDelta, 1, 8), m), m))
  }

  /**
   * One learning step on the heating and cooling slices: a rising or
   * steady temperature (`tempDelta >= 0`) trains the heating side, a
   * falling one the cooling side, in the rate bucket of `tempDelta`.
   */
  function LearnStep(heat: seq<int>, cool: seq<int>, heatRates: seq<int>, coolRates: seq<int>,
                     idx: int, raw: int, tempDelta: int, curve: seq<FanCurvePoint>, cfg: SmartControlConfig)
    : (seq<int>, seq<int>, seq<int>, seq<int>)
    requires |heat| == |cool| == |curve| > 0
  {
    var rateIdx := RateBucketIndex(tempDelta);
    if tempDelta >= 0 then SidesStep(heat, cool, heatRates, coolRates, idx, rateIdx, raw, curve, cfg)
    else
      var (c, h, rc, rh) := SidesStep(cool, heat, coolRates, heatRates, idx, rateIdx, raw, curve, cfg);
      (h, c, rh, rc)
  }

  /**
   * After a learning step every offset lies within its point's bounds and
   * the biases are smooth, whatever the slices held before; the lengths
   * are kept.
   */
  lemma LearnStepSettled(heat: seq<int>, cool: seq<int>, heatRates: seq<int>, coolRates: seq<int>,
                         idx: int, raw: int, tempDelta: int, curve: seq<FanCurvePoint>, cfg: SmartControlConfig)
    requires |heat| == |cool| == |curve| > 0
    ensures var (h, c, rh, rc) := LearnStep(heat, cool, heatRates, coolRates, idx, raw, tempDelta, curve, cfg);
      && |h| == |c| == |curve| && |rh| == |heatRates| && |rc| == |coolRates|
      && OffsetsInCurveBounds(h, curve, cfg.maxLearnOffset) && OffsetsInCurveBounds(c, curve, cfg.maxLearnOffset)
      && RatesSmooth(rh, cfg.maxLearnOffset) && RatesSmooth(rc, cfg.maxLearnOffset)
  {
    if tempDelta >= 0 {
      SidesStepSettled(heat, cool, heatRates, coolRates, idx, RateBucketIndex(tempDelta), raw, curve, cfg);
    } else {
      SidesStepSettled(cool, heat, coolRates, heatRates, idx, RateBucketIndex(tempDelta), raw, curve, cfg);
    }
  }

  lemma SidesStepSettled(active: seq<int>, passive: seq<int>, activeRate: seq<int>, passiveRate: seq<int>,
                         idx: int, rateIdx: int, raw: int, curve: seq<FanCurvePoint>, cfg: SmartControlConfig)
    requires |active| == |passive| == |curve| > 0
    ensures var (a, p, ar, pr) := SidesStep(active, passive, activeRate, passiveRate, idx, rateIdx, raw, curve, cfg);
      && |a| == |p| == |curve| && |ar| == |activeRate| && |pr| == |passiveRate|
      && OffsetsInCurveBounds(a, curve, cfg.maxLearnOffset) && OffsetsInCurveBounds(p, curve, cfg.maxLearnOffset)
      && RatesSmooth(ar, cfg.maxLearnOffset) && RatesSmooth(pr, cfg.maxLearnOffset)
  {
    var m := cfg.maxLearnOffset;
    var delta := CurveStep(raw, cfg.learnRate);
    var rateDelta := RateStep(raw, cfg.learnRate);
    SmoothedOffsetsInBounds(ActiveOffsetStep(active, idx, delta, curve, m), curve, m);
    SmoothedOffsetsInBounds(DeltaApplied(passive, idx, ScaledDelta(delta, 1, 8), curve, m), curve, m);
    SmoothedRatesSmooth(ActiveRateStep(activeRate, rateIdx, rateDelta, m), m);
    SmoothedRatesSmooth(RateDeltaApplied(passiveRate, rateIdx, ScaledDelta(rateDelta, 1, 8), m), m);
  }

  /** The offset updates of one learning step; nothing changes unless some call reported a change. */
  method ApplyOffsetSteps(active: array<int>, passive: array<int>, idx: int, delta: int, curve: seq<FanCurvePoint>, maxLearnOffset: int)
    returns (changed: bool)
    requires active != passive
    modifies active, passive
    ensures active[..] == ActiveOffsetStep(old(active[..]), idx, delta, curve, maxLearnOffset)
    ensures passive[..] == DeltaApplied(old(passive[..]), idx, ScaledDelta(delta, 1, 8), curve, maxLearnOffset)
    ensures !changed ==> active[..] == old(active[..]) && passive[..] == old(passive[..])
  {
    changed := false;
    var c := ApplyDeltaAtIndex(active, idx, delta, curve, maxLearnOffset);
    changed := changed || c;
    c := ApplyDeltaAtIndex(active, idx - 1, ScaledDelta(delta, 2, 3), curve, maxLearnOffset);
    changed := changed || c;
    c := ApplyDeltaAtIndex(active, idx + 1, ScaledDelta(delta, 2, 3), curve, maxLearnOffset);
    changed := changed || c;
    c := ApplyDeltaAtIndex(active, idx - 2, ScaledDelta(delta, 1, 3), curve, maxLearnOffset);
    changed := changed || c;
    c := ApplyDeltaAtIndex(active, idx + 2, ScaledDelta(delta, 1, 3), curve, maxLearnOffset);
    changed := changed || c;
    c := ApplyDeltaAtIndex(passive, idx, ScaledDelta(delta, 1, 8), curve, maxLearnOffset);
    changed := changed || c;
  }

  /** The rate-bias updates of one learning step; nothing changes unless some call reported a change. */
  method ApplyRateSteps(activeRate: array<int>, passiveRate: array<int>, rateIdx: int, rateDelta: int, maxLearnOffset: int)
    returns (changed: bool)
    requires activeRate != passiveRate
    modifies activeRate, passiveRate
    ensures activeRate[..] == ActiveRateStep(old(activeRate[..]), rateIdx, rateDelta, maxLearnOffset)
    ensures passiveRate[..] == RateDeltaApplied(old(passiveRate[..]), rateIdx, ScaledDelta(rateDelta, 1, 8), maxLearnOffset)
    ensures !changed ==> activeRate[..] == old(activeRate[..]) && passiveRate[..] == old(passiveRate[..])
  {
    changed := false;
    var c := ApplyRateBiasDeltaAtIndex(activeRate, rateIdx, rateDelta, maxLearnOffset);
    changed := changed || c;
    c := ApplyRateBiasDeltaAtIndex(activeRate, rateIdx - 1, ScaledDelta(rateDelta, 2, 3), maxLearnOffset);
    changed := changed || c;
    c := ApplyRateBiasDeltaAtIndex(activeRate, rateIdx + 1, ScaledDelta(rateDelta, 2, 3), maxLearnOffset);
    changed := changed || c;
    c := ApplyRateBiasDeltaAtIndex(passiveRate, rateIdx, ScaledDelta(rateDelta, 1, 8), maxLearnOffset);
    changed := changed || c;
  }

  /** The smoothing that closes a learning step: afterwards every offset is within its point's bounds and the biases are smooth. */
  method SmoothAll(active: array<int>, passive: array<int>, activeRate: array<int>, passiveRate: array<int>,
                   curve: seq<FanCurvePoint>, maxLearnOffset: int)
    returns (changed: bool)
    requires active != passive && activeRate != passiveRate
    requires active != activeRate && active != passiveRate && passive != activeRate && passive != passiveRate
    requires active.Length == passive.Length == |curve| > 0
    modifies active, passive, activeRate, passiveRate
    ensures active[..] == SmoothedOffsets(old(active[..]), curve, maxLearnOffset)
    ensures passive[..] == SmoothedOffsets(old(passive[..]), curve, maxLearnOffset)
    ensures activeRate[..] == SmoothedRates(old(activeRate[..]), maxLearnOffset)
    ensures passiveRate[..] == SmoothedRates(old(passiveRate[..]), maxLearnOffset)
    ensures OffsetsInCurveBounds(active[..], curve, maxLearnOffset) && OffsetsInCurveBounds(passive[..], curve, maxLearnOffset)
    ensures RatesSmooth(activeRate[..], maxLearnOffset) && RatesSmooth(passiveRate[..], maxLearnOffset)
    ensures !changed ==> active[..] == old(active[..]) && passive[..] == old(passive[..])
    ensures !changed ==> activeRate[..] == old(activeRate[..]) && passiveRate[..] == old(passiveRate[..])
  {
    SmoothedOffsetsInBounds(active[..], curve, maxLearnOffset);
    SmoothedOffsetsInBounds(passive[..], curve, maxLearnOffset);
    SmoothedRatesSmooth(activeRate[..], maxLearnOffset);
    SmoothedRatesSmooth(passiveRate[..], maxLearnOffset);
    changed := false;
    var c := SmoothAndClampOffsets(active, curve, maxLearnOffset);
    changed := changed || c;
    c := SmoothAndClampOffsets(passive, curve, maxLearnOffset);
    changed := changed || c;
    c := SmoothRateBiases(activeRate, maxLearnOffset);
    changed := changed || c;
    c := SmoothRateBiases(passiveRate, maxLearnOffset);
    changed := changed || c;
  }

  /**
   * The updates of one learning step on the side that follows the trend
   * (`active`) and the other side (`passive`): the steps at the nearest
   * point and rate bucket, then the smoothing. Afterwards every offset is
   * within its point's bounds and the biases are smooth; nothing changes
   * unless some update reported a change.
   */
  method ApplyLearningStep(active: array<int>, passive: array<int>, activeRate: array<int>, passiveRate: array<int>,
                           idx: int, rateIdx: int, raw: int, curve: seq<FanCurvePoint>, cfg: SmartControlConfig)
    returns (changed: bool)
    requires active != passive && activeRate != passiveRate
    requires active != activeRate && active != passiveRate && passive != activeRate && passive != passiveRate
    requires active.Length == passive.Length == |curve| > 0
    modifies active, passive, activeRate, passiveRate
    ensures (active[..], passive[..], activeRate[..], passiveRate[..])
      == SidesStep(old(active[..]), old(passive[..]), old(activeRate[..]), old(passiveRate[..]), idx, rateIdx, raw, curve, cfg)
    ensures OffsetsInCurveBounds(active[..], curve, cfg.maxLearnOffset) && OffsetsInCurveBounds(passive[..], curve, cfg.maxLearnOffset)
    ensures RatesSmooth(activeRate[..], cfg.maxLearnOffset) && RatesSmooth(passiveRate[..], cfg.maxLearnOffset)
    ensures !changed ==> active[..] == old(active[..]) && passive[..] == old(passive[..])
    ensures !changed ==> activeRate[..] == old(activeRate[..]) && passiveRate[..] == old(passiveRate[..])
  {
    var maxLearnOffset := cfg.maxLearnOffset;
    var delta := CurveStep(raw, cfg.learnRate);
    var offsetsChanged := ApplyOffsetSteps(active, passive, idx, delta, curve, maxLearnOffset);
    var rateDelta := RateStep(raw, cfg.learnRate);
    var ratesChanged := ApplyRateSteps(activeRate, passiveRate, rateIdx, rateDelta, maxLearnOffset);
    var smoothingChanged := SmoothAll(active, passive, activeRate, passiveRate, curve, maxLearnOffset);
    changed := offsetsChanged || ratesChanged || smoothingChanged;
  }

  /**
   * The part of `LearnCurveOffsets` after the score has been found large
   * enough: the slices are copied, updated in place by the learning step
   * at `idx` on the side the trend `tempDelta` selects, and returned.
   * When no update reported a change they come back as they went in.
   */
  method LearnFromScore(heatStart: seq<int>, coolStart: seq<int>, heatRates: seq<int>, coolRates: seq<int>,
                        idx: int, raw: int, tempDelta: int, curve: seq<FanCurvePoint>, cfg: SmartControlConfig)
    returns (heat: seq<int>, cool: seq<int>, rateHeat: seq<int>, rateCool: seq<int>, changed: bool)
    requires |heatStart| == |coolStart| == |curve| > 0
    ensures (heat, cool, rateHeat, rateCool) == LearnStep(heatStart, coolStart, heatRates, coolRates, idx, raw, tempDelta, curve, cfg)
    ensures !changed ==> heat == heatStart && cool == coolStart && rateHeat == heatRates && rateCool == coolRates
  {
    var heatOffsets := new int[|curve|](i requires 0 <= i < |curve| => heatStart[i]);
    var coolOffsets := new int[|curve|](i requires 0 <= i < |curve| => coolStart[i]);
    assert heatOffsets[..] == heatStart && coolOffsets[..] == coolStart;
    var heatRateArr := new int[|heatRates|](i requires 0 <= i < |heatRates| => heatRates[i]);
    var coolRateArr := new int[|coolRates|](i requires 0 <= i < |coolRates| => coolRates[i]);
    assert heatRateArr[..] == heatRates && coolRateArr[..] == coolRates;
    // A rising or steady temperature trains the heating side, a falling one the cooling side.
    var rateIdx := RateBucketIndex(tempDelta);
    if tempDelta >= 0 {
      changed := ApplyLearningStep(heatOffsets, coolOffsets, heatRateArr, coolRateArr, idx, rateIdx, raw, curve, cfg);
    } else {
      changed := ApplyLearningStep(coolOffsets, heatOffsets, coolRateArr, heatRateArr, idx, rateIdx, raw, curve, cfg);
    }
    return heatOffsets[..], coolOffsets[..], heatRateArr[..], coolRateArr[..], changed;
  }

  /**
   * The learning step at the curve point nearest to `learnTemp`, the only
   * point `IsNearestIndex` admits.
   */
  method LearnNear(heatStart: seq<int>, coolStart: seq<int>, heatRates: seq<int>, coolRates: seq<int>,
                   learnTemp: int, raw: int, tempDelta: int, curve: seq<FanCurvePoint>, cfg: SmartControlConfig)
    returns (heat: seq<int>, cool: seq<int>, rateHeat: seq<int>, rateCool: seq<int>, changed: bool)
    requires |heatStart| == |coolStart| == |curve| > 0
    ensures forall idx :: IsNearestIndex(curve, learnTemp, idx) ==>
      (heat, cool, rateHeat, rateCool) == LearnStep(heatStart, coolStart, heatRates, coolRates, idx, raw, tempDelta, curve, cfg)
    ensures |heat| == |cool| == |curve| && |rateHeat| == |heatRates| && |rateCool| == |coolRates|
    ensures OffsetsInCurveBounds(heat, curve, cfg.maxLearnOffset) && OffsetsInCurveBounds(cool, curve, cfg.maxLearnOffset)
    ensures RatesSmooth(rateHeat, cfg.maxLearnOffset) && RatesSmooth(rateCool, cfg.maxLearnOffset)
    ensures !changed ==> heat == heatStart && cool == coolStart && rateHeat == heatRates && rateCool == coolRates
  {
    var idx: int := NearestCurveIndex(learnTemp, curve);
    LearnStepSettled(heatStart, coolStart, heatRates, coolRates, idx, raw, tempDelta, curve, cfg);
    forall other | IsNearestIndex(curve, learnTemp, other)
      ensures other == idx
    {
      NearestIndexUnique(curve, learnTemp, other, idx);
    }
    heat, cool, rateHeat, rateCool, changed := LearnFromScore(heatStart, coolStart, heatRates, coolRates, idx, raw, tempDelta, curve, cfg);
  }

  /**
   * `LearnCurveOffsets`: one learning step over the heating and cooling
   * offsets and rate biases. With no curve the stored offsets come back as
   * they are; when learning is skipped the resized offsets and normalized
   * biases come back unchanged; otherwise the side matching the temperature
   * trend takes the full step at the nearest point (and smaller ones beside
   * it), the other side an eighth, and all four are smoothed and clamped,
   * so every offset ends within its point's bounds and the biases within
   * the cap and the jump limit.
   */
  method LearnCurveOffsets(avgTemp: int, lastAvgTemp: int, targetRPM: int, lastTargetRPM: int,
                           recentAvgTemps: seq<int>, curve: seq<FanCurvePoint>, cfg: SmartControlConfig)
    returns (heat: seq<int>, cool: seq<int>, rateHeat: seq<int>, rateCool: seq<int>, changed: bool)
    ensures |curve| == 0 ==>
      && heat == cfg.learnedOffsetsHeat && cool == cfg.learnedOffsetsCool
      && rateHeat == NormalizedRates(cfg.learnedRateHeat, cfg.maxLearnOffset)
      && rateCool == NormalizedRates(cfg.learnedRateCool, cfg.maxLearnOffset)
      && !changed
    ensures |curve| > 0 ==>
      |heat| == |curve| && |cool| == |curve| && |rateHeat| == RateBucketCount() && |rateCool| == RateBucketCount()
    ensures |curve| > 0 && (!changed || LearningSkipped(avgTemp, lastAvgTemp, targetRPM, lastTargetRPM, recentAvgTemps, cfg)) ==>
      && heat == Resized(cfg.learnedOffsetsHeat, |curve|) && cool == Resized(cfg.learnedOffsetsCool, |curve|)
      && rateHeat == NormalizedRates(cfg.learnedRateHeat, cfg.maxLearnOffset)
      && rateCool == NormalizedRates(cfg.learnedRateCool, cfg.maxLearnOffset)
    ensures |curve| > 0 && LearningSkipped(avgTemp, lastAvgTemp, targetRPM, lastTargetRPM, recentAvgTemps, cfg) ==> !changed
    ensures |curve| > 0 && !LearningSkipped(avgTemp, lastAvgTemp, targetRPM, lastTargetRPM, recentAvgTemps, cfg) ==>
      forall idx :: IsNearestIndex(curve, LearnTemp(recentAvgTemps, cfg), idx) ==>
        (heat, cool, rateHeat, rateCool)
        == LearnStep(Resized(cfg.learnedOffsetsHeat, |curve|), Resized(cfg.learnedOffsetsCool, |curve|),
                     NormalizedRates(cfg.learnedRateHeat, cfg.maxLearnOffset), NormalizedRates(cfg.learnedRateCool, cfg.maxLearnOffset),
                     idx, LearnScore(avgTemp, lastAvgTemp, targetRPM, lastTargetRPM, LearnTempDelta(recentAvgTemps, cfg), cfg),
                     avgTemp - lastAvgTemp, curve, cfg)
    ensures |curve| > 0 && !LearningSkipped(avgTemp, lastAvgTemp, targetRPM, lastTargetRPM, recentAvgTemps, cfg) ==>
      && OffsetsInCurveBounds(heat, curve, cfg.maxLearnOffset) && OffsetsInCurveBounds(cool, curve, cfg.maxLearnOffset)
      && RatesSmooth(rateHeat, cfg.maxLearnOffset) && RatesSmooth(rateCool, cfg.maxLearnOffset)
  {
    var maxLearnOffset := cfg.maxLearnOffset;
    if |curve| == 0 {
      var heatNormalized, _ := NormalizeRateBiases(cfg.learnedRateHeat, maxLearnOffset);
      var coolNormalized, _ := NormalizeRateBiases(cfg.learnedRateCool, maxLearnOffset);
      assert heatNormalized == NormalizedRates(cfg.learnedRateHeat, maxLearnOffset);
      assert coolNormalized == NormalizedRates(cfg.learnedRateCool, maxLearnOffset);
      return cfg.learnedOffsetsHeat, cfg.learnedOffsetsCool, heatNormalized, coolNormalized, false;
    }

    var heatStart := Resized(cfg.learnedOffsetsHeat, |curve|);
    var coolStart := Resized(cfg.learnedOffsetsCool, |curve|);

    var heatRates, _ := NormalizeRateBiases(cfg.learnedRateHeat, maxLearnOffset);
    var coolRates, _ := NormalizeRateBiases(cfg.learnedRateCool, maxLearnOffset);
    assert heatRates == NormalizedRates(cfg.learnedRateHeat, maxLearnOffset);
    assert coolRates == NormalizedRates(cfg.learnedRateCool, maxLearnOffset);

    var learningWindow := LearningWindow(cfg);
    var learningDelay := LearningDelay(cfg);
    var minRequired := learningWindow + learningDelay;
    if |recentAvgTemps| < minRequired {
      assert LearningSkipped(avgTemp, lastAvgTemp, targetRPM, lastTargetRPM, recentAvgTemps, cfg);
      return heatStart, coolStart, heatRates, coolRates, false;
    }

    var windowStart := |recentAvgTemps| - minRequired;
    var windowEnd := windowStart + learningWindow;
    assert recentAvgTemps[windowStart..windowEnd] == WindowTemps(recentAvgTemps, cfg);
    var stable := IsStableLearningWindow(recentAvgTemps[windowStart..windowEnd], cfg.hysteresis + 1);
    if !stable {
      var overheatMargin := cfg.targetTemp + cfg.hysteresis + 3;
      if avgTemp < overheatMargin {
        assert LearningSkipped(avgTemp, lastAvgTemp, targetRPM, lastTargetRPM, recentAvgTemps, cfg);
        return heatStart, coolStart, heatRates, coolRates, false;
      }
    }

    var learnTemp := recentAvgTemps[|recentAvgTemps| - learningDelay];
    var learnPrevTemp := recentAvgTemps[|recentAvgTemps| - learningDelay - 1];
    assert learnTemp - learnPrevTemp == LearnTempDelta(recentAvgTemps, cfg);
    var raw := LearnScore(avgTemp, lastAvgTemp, targetRPM, lastTargetRPM, learnTemp - learnPrevTemp, cfg);
    if AbsInt(raw) < 4 {
      assert LearningSkipped(avgTemp, lastAvgTemp, targetRPM, lastTargetRPM, recentAvgTemps, cfg);
      return heatStart, coolStart, heatRates, coolRates, false;
    }
    assert !LearningSkipped(avgTemp, lastAvgTemp, targetRPM, lastTargetRPM, recentAvgTemps, cfg);
    assert learnTemp == LearnTemp(recentAvgTemps, cfg);
    assert raw == LearnScore(avgTemp, lastAvgTemp, targetRPM, lastTargetRPM, LearnTempDelta(recentAvgTemps, cfg), cfg);
    heat, cool, rateHeat, rateCool, changed := LearnNear(heatStart, coolStart, heatRates, coolRates, learnTemp, raw, avgTemp - lastAvgTemp, curve, cfg);
  }
}
