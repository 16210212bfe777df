/**
 * The integer helpers of the smart controller: clamping, the speed range of
 * a fan curve, per-point offset bounds, the nearest curve point to a
 * temperature, and making a curve's speeds non-decreasing.
 */
module CurveHelpers {
  import opened FanTypes

  /** Go's integer division, which truncates toward zero. */
  function TruncDiv(a: int, b: int): (q: int)
    requires b != 0
    ensures b > 0 && a >= 0 ==> q == a / b
    ensures b > 0 ==> (q >= 0 <==> a > -b)
  {
    if a >= 0 then a / b
    else if b > 0 then -((-a) / b)
    else (-a) / (-b)
  }

  /** Truncating division by a positive number moves toward zero and rounds the magnitude down. */
  lemma TruncDivBounds(a: int, b: int)
    requires b > 0
    ensures var q := TruncDiv(a, b);
      && (a >= 0 ==> 0 <= q * b <= a < q * b + b)
      && (a < 0 ==> q * b - b < a <= q * b <= 0)
      && TruncDiv(-a, b) == -q
  {
  }

  function Min(a: int, b: int): int { if a <= b then a else b }
  function Max(a: int, b: int): int { if a >= b then a else b }

  /** `clampInt`: below the floor gives the floor, else above the ceiling gives the ceiling. */
  function ClampInt(value: int, minValue: int, maxValue: int): (r: int)
    ensures minValue <= maxValue ==> minValue <= r <= maxValue
    ensures minValue <= value <= maxValue ==> r == value
    ensures value < minValue ==> r == minValue
  {
    if value < minValue then minValue
    else if value > maxValue then maxValue
    else value
  }

  /** Clamping moves a value toward the range only: it ends between the value and the nearest bound. */
  lemma ClampIntNearest(value: int, minValue: int, maxValue: int)
    requires minValue <= maxValue
    ensures var r := ClampInt(value, minValue, maxValue);
      && (value <= r ==> r <= Max(value, minValue))
      && (value >= r ==> r >= Min(value, maxValue))
      && ClampInt(r, minValue, maxValue) == r
  {
  }

  function AbsInt(value: int): (r: int)
    ensures r >= 0 && (r == value || r == -value)
  {
    if value < 0 then -value else value
  }

  /**
   * `getCurveEdgeRPMBounds`: 0..4000 for an empty curve, else the speeds of
   * the first and last points, smaller first.
   */
  function CurveEdgeRPMBounds(curve: seq<FanCurvePoint>): (bounds: (int, int))
    ensures bounds.0 <= bounds.1
    ensures |curve| == 0 ==> bounds == (0, 4000)
    ensures |curve| > 0 ==>
      var first := curve[0].rpm; var last := curve[|curve| - 1].rpm;
      bounds == (Min(first, last), Max(first, last))
  {
    if |curve| == 0 then (0, 4000)
    else
      var left := curve[0].rpm;
      var right := curve[|curve| - 1].rpm;
      if left > right then (right, left) else (left, right)
  }

  /** The offsets a point at `baseRPM` accepts: toward both edges of the curve, and at most `maxLearnOffset` away. */
  function OffsetLow(baseRPM: int, leftMinRPM: int, maxLearnOffset: int): int {
    Max(leftMinRPM - baseRPM, -maxLearnOffset)
  }

  function OffsetHigh(baseRPM: int, rightMaxRPM: int, maxLearnOffset: int): int {
    Min(rightMaxRPM - baseRPM, maxLearnOffset)
  }

  /** An offset a point accepts: inside its interval, or 0 when that interval is empty. */
  predicate InPointBounds(offset: int, baseRPM: int, leftMinRPM: int, rightMaxRPM: int, maxLearnOffset: int)
  {
    var lo := OffsetLow(baseRPM, leftMinRPM, maxLearnOffset);
    var hi := OffsetHigh(baseRPM, rightMaxRPM, maxLearnOffset);
    if lo > hi then offset == 0 else lo <= offset <= hi
  }

  /**
   * `clampOffsetForPoint`: the offset clamped into the interval the point
   * accepts; 0 when the interval is empty.
   */
  function ClampOffsetForPoint(offset: int, baseRPM: int, leftMinRPM: int, rightMaxRPM: int, maxLearnOffset: int): (r: int)
    ensures InPointBounds(r, baseRPM, leftMinRPM, rightMaxRPM, maxLearnOffset)
    ensures InPointBounds(offset, baseRPM, leftMinRPM, rightMaxRPM, maxLearnOffset) ==> r == offset
  {
    var minOffset := OffsetLow(baseRPM, leftMinRPM, maxLearnOffset);
    var maxOffset := OffsetHigh(baseRPM, rightMaxRPM, maxLearnOffset);
    if minOffset > maxOffset then 0 else ClampInt(offset, minOffset, maxOffset)
  }

  /**
   * With a non-negative cap and a base speed between the curve's edges, the
   * interval is never empty and the offset point stays between the edges.
   */
  lemma OffsetKeepsPointInRange(offset: int, baseRPM: int, leftMinRPM: int, rightMaxRPM: int, maxLearnOffset: int)
    requires maxLearnOffset >= 0 && leftMinRPM <= baseRPM <= rightMaxRPM
    ensures var r := ClampOffsetForPoint(offset, baseRPM, leftMinRPM, rightMaxRPM, maxLearnOffset);
      && OffsetLow(baseRPM, leftMinRPM, maxLearnOffset) <= OffsetHigh(baseRPM, rightMaxRPM, maxLearnOffset)
      && leftMinRPM <= baseRPM + r <= rightMaxRPM
      && -maxLearnOffset <= r <= maxLearnOffset
  {
  }

  /** The offset of point `i` after `constrainOffsetsToCurveBounds`. */
  function ConstrainedOffset(offsets: seq<int>, curve: seq<FanCurvePoint>, maxLearnOffset: int, i: nat): int
    requires i < |offsets|
  {
    if i >= |curve| then 0
    else
      var (left, right) := CurveEdgeRPMBounds(curve);
      ClampOffsetForPoint(offsets[i], curve[i].rpm, left, right, maxLearnOffset)
  }

  /** Every offset within the bounds of its curve point, and none past the end of the curve. */
  predicate OffsetsInCurveBounds(offsets: seq<int>, curve: seq<FanCurvePoint>, maxLearnOffset: int)
  {
    var (left, right) := CurveEdgeRPMBounds(curve);
    forall i :: 0 <= i < |offsets| ==>
      if i < |curve| then InPointBounds(offsets[i], curve[i].rpm, left, right, maxLearnOffset) else offsets[i] == 0
  }

  /**
   * `constrainOffsetsToCurveBounds`: with no offsets or no curve, the input
   * unchanged and not updated; otherwise a fresh copy where points past the
   * curve are zeroed and every other offset is clamped to its point. It is
   * updated when there are offsets past the curve, and otherwise exactly when
   * the copy differs from the input.
   */
  method ConstrainOffsetsToCurveBounds(offsets: seq<int>, curve: seq<FanCurvePoint>, maxLearnOffset: int)
    returns (normalized: seq<int>, updated: bool)
    ensures |offsets| == 0 || |curve| == 0 ==> normalized == offsets && !updated
    ensures |normalized| == |offsets|
    ensures |offsets| > 0 && |curve| > 0 ==>
      forall i :: 0 <= i < |offsets| ==> normalized[i] == ConstrainedOffset(offsets, curve, maxLearnOffset, i)
    ensures updated <==> |curve| > 0 && (|offsets| > |curve| || normalized != offsets)
  {
    if |offsets| == 0 || |curve| == 0 {
      return offsets, false;
    }
    var (leftMinRPM, rightMaxRPM) := CurveEdgeRPMBounds(curve);
    updated := false;
    var a := new int[|offsets|](i requires 0 <= i < |offsets| => offsets[i]);
    for i := 0 to a.Length
      invariant forall k :: 0 <= k < i ==> a[k] == ConstrainedOffset(offsets, curve, maxLearnOffset, k)
      invariant forall k :: i <= k < a.Length ==> a[k] == offsets[k]
      invariant updated <==> i > |curve| || exists k :: 0 <= k < i && a[k] != offsets[k]
    {
      if i >= |curve| {
        a[i] := 0;
        updated := true;
        continue;
      }
      var clamped := ClampOffsetForPoint(a[i], curve[i].rpm, leftMinRPM, rightMaxRPM, maxLearnOffset);
      if clamped != a[i] {
        a[i] := clamped;
        updated := true;
      }
    }
    normalized := a[..];
    assert normalized != offsets <==> exists k :: 0 <= k < |offsets| && normalized[k] != offsets[k];
  }

  /** The constrained offsets are within their point bounds, and constraining them again changes nothing. */
  lemma ConstrainedInBounds(offsets: seq<int>, curve: seq<FanCurvePoint>, maxLearnOffset: int)
    requires |curve| > 0
    ensures var c := seq(|offsets|, i requires 0 <= i < |offsets| => ConstrainedOffset(offsets, curve, maxLearnOffset, i));
      && OffsetsInCurveBounds(c, curve, maxLearnOffset)
      && forall i :: 0 <= i < |c| ==> ConstrainedOffset(c, curve, maxLearnOffset, i) == c[i]
  {
  }

  /** `intSlicesEqual`: equal lengths and equal elements. */
  method IntSlicesEqual(a: seq<int>, b: seq<int>) returns (r: bool)
    ensures r <==> a == b
  {
    if |a| != |b| {
      return false;
    }
    for i := 0 to |a|
      invariant a[..i] == b[..i]
    {
      if a[i] != b[i] {
        return false;
      }
      assert a[..i + 1] == a[..i] + [a[i]];
      assert b[..i + 1] == b[..i] + [b[i]];
    }
    assert a == a[..|a|];
    assert b == b[..|b|];
    return true;
  }

  /** How far point `i` of the curve is from `temp`. */
  function Distance(curve: seq<FanCurvePoint>, i: nat, temp: int): nat
    requires i < |curve|
  {
    AbsInt(curve[i].temperature - temp)
  }

  /**
   * `nearestCurveIndex`: 0 for an empty curve, else the first point whose
   * temperature is nearest to `temp`.
   */
  method NearestCurveIndex(temp: int, curve: seq<FanCurvePoint>) returns (idx: nat)
    ensures |curve| == 0 ==> idx == 0
    ensures |curve| > 0 ==> idx < |curve|
    ensures |curve| > 0 ==> forall j :: 0 <= j < |curve| ==> Distance(curve, idx, temp) <= Distance(curve, j, temp)
    ensures |curve| > 0 ==> forall j :: 0 <= j < idx ==> Distance(curve, j, temp) > Distance(curve, idx, temp)
  {
    if |curve| == 0 {
      return 0;
    }
    idx := 0;
    var bestDistance := AbsInt(curve[0].temperature - temp);
    for i := 1 to |curve|
      invariant idx < i && bestDistance == Distance(curve, idx, temp)
      invariant forall j :: 0 <= j < i ==> bestDistance <= Distance(curve, j, temp)
      invariant forall j :: 0 <= j < idx ==> Distance(curve, j, temp) > bestDistance
    {
      var distance := AbsInt(curve[i].temperature - temp);
      if distance < bestDistance {
        bestDistance := distance;
        idx := i;
      }
    }
  }

  /** `idx` is the point `nearestCurveIndex` picks: nearest to `temp`, the first of equally near ones. */
  predicate IsNearestIndex(curve: seq<FanCurvePoint>, temp: int, idx: int)
  {
    && 0 <= idx < |curve|
    && (forall j :: 0 <= j < |curve| ==> Distance(curve, idx, temp) <= Distance(curve, j, temp))
    && (forall j :: 0 <= j < idx ==> Distance(curve, j, temp) > Distance(curve, idx, temp))
  }

  /** There is only one such point. */
  lemma NearestIndexUnique(curve: seq<FanCurvePoint>, temp: int, a: int, b: int)
    requires IsNearestIndex(curve, temp, a) && IsNearestIndex(curve, temp, b)
    ensures a == b
  {
    assert Distance(curve, a, temp) == Distance(curve, b, temp);
  }

  /** The largest speed among the first `i + 1` points. */
  function PrefixMaxRPM(curve: seq<FanCurvePoint>, i: nat): int
    requires i < |curve|
  {
    if i == 0 then curve[0].rpm else Max(PrefixMaxRPM(curve, i - 1), curve[i].rpm)
  }

  /** The curve with each speed raised to the largest speed at or before it. */
  function NonDecreasingCurve(curve: seq<FanCurvePoint>): seq<FanCurvePoint>
  {
    seq(|curve|, i requires 0 <= i < |curve| => curve[i].(rpm := PrefixMaxRPM(curve, i)))
  }

  /** A prefix maximum is at least every speed up to it. */
  lemma {:induction false} PrefixMaxBound(curve: seq<FanCurvePoint>, i: nat, j: nat)
    requires j <= i < |curve|
    ensures curve[j].rpm <= PrefixMaxRPM(curve, i)
  {
    if j < i {
      PrefixMaxBound(curve, i - 1, j);
    }
  }

  /** A prefix maximum is one of the speeds up to it. */
  lemma {:induction false} PrefixMaxWitness(curve: seq<FanCurvePoint>, i: nat) returns (w: nat)
    requires i < |curve|
    ensures w <= i && curve[w].rpm == PrefixMaxRPM(curve, i)
  {
    if i == 0 {
      w := 0;
    } else {
      w := PrefixMaxWitness(curve, i - 1);
      if curve[i].rpm > PrefixMaxRPM(curve, i - 1) {
        w := i;
      }
    }
  }

  /** Prefix maxima never decrease along the curve. */
  lemma {:induction false} PrefixMaxMonotone(curve: seq<FanCurvePoint>, i: nat, j: nat)
    requires i <= j < |curve|
    ensures PrefixMaxRPM(curve, i) <= PrefixMaxRPM(curve, j)
    decreases j - i
  {
    if i < j {
      PrefixMaxMonotone(curve, i, j - 1);
    }
  }

  /**
   * The curve `enforceNonDecreasingRPM` leaves: same length and
   * temperatures, speeds that never decrease and never go below the
   * original (each is one of the original speeds at or before it, by
   * `PrefixMaxWitness`).
   */
  lemma NonDecreasingCurveShape(curve: seq<FanCurvePoint>)
    ensures var c := NonDecreasingCurve(curve);
      && |c| == |curve|
      && (forall i :: 0 <= i < |c| ==> c[i].temperature == curve[i].temperature && c[i].rpm >= curve[i].rpm)
      && (forall i, j :: 0 <= i <= j < |c| ==> c[i].rpm <= c[j].rpm)
  {
    var c := NonDecreasingCurve(curve);
    forall i | 0 <= i < |c|
      ensures c[i].rpm >= curve[i].rpm
    {
      PrefixMaxBound(curve, i, i);
    }
    forall i, j | 0 <= i <= j < |c|
      ensures c[i].rpm <= c[j].rpm
    {
      PrefixMaxMonotone(curve, i, j);
    }
  }

  /** A curve whose speeds already never decrease is left as it is. */
  lemma {:induction false} NonDecreasingCurveFixed(curve: seq<FanCurvePoint>)
    requires forall i, j :: 0 <= i <= j < |curve| ==> curve[i].rpm <= curve[j].rpm
    ensures NonDecreasingCurve(curve) == curve
  {
    forall i | 0 <= i < |curve|
      ensures PrefixMaxRPM(curve, i) == curve[i].rpm
    {
      var w := PrefixMaxWitness(curve, i);
      PrefixMaxBound(curve, i, i);
    }
  }

  /**
   * `enforceNonDecreasingRPM`: in place, from the second point on, a speed
   * below its (already raised) predecessor is raised to it.
   */
  method EnforceNonDecreasingRPM(curve: array<FanCurvePoint>)
    modifies curve
    ensures curve[..] == NonDecreasingCurve(old(curve[..]))
  {
    ghost var orig := curve[..];
    if curve.Length == 0 {
      return;
    }
    for i := 1 to curve.Length
      invariant forall k :: 0 <= k < i ==> curve[k] == orig[k].(rpm := PrefixMaxRPM(orig, k))
      invariant forall k :: i <= k < curve.Length ==> curve[k] == orig[k]
    {
      if curve[i].rpm < curve[i - 1].rpm {
        curve[i] := curve[i].(rpm := curve[i - 1].rpm);
      }
    }
  }
}
