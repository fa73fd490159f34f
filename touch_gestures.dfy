/**
 * Touch arithmetic shared by the video pages: clamping, and the two-finger pinch that
 * scales an overlay or a crop between half and three times its size.
 *
 * The host reports touch points; the Euclidean distance and the `atan2` angle between
 * two fingers are computed from them in floating point and arrive here as values.
 */
module TouchGestures {

  /** A strictly positive length: a rendered width, a finger distance or a duration. */
  type Positive = x: real | 0.0 < x witness 1.0

  /** The touches of an event, as the handlers distinguish them. */
  datatype Touches =
    | One(clientX: real, clientY: real)
    | Two(distance: real, angle: real)   // distance and angle (degrees) between the two fingers
    | Other                              // no finger, or three and more

  /** The pinch scale range. */
  const MinScale: real := 0.5
  const MaxScale: real := 3.0

  function Min(a: real, b: real): (m: real)
    ensures m <= a && m <= b && (m == a || m == b)
  {
    if a <= b then a else b
  }

  function Max(a: real, b: real): (m: real)
    ensures a <= m && b <= m && (m == a || m == b)
  {
    if a >= b then a else b
  }

  /** `Math.max(lo, Math.min(hi, x))`: x brought into [lo, hi]. */
  function Clamp(lo: real, hi: real, x: real): (r: real)
    requires lo <= hi
    ensures lo <= r <= hi
    ensures lo <= x <= hi ==> r == x
    ensures x < lo ==> r == lo
    ensures hi < x ==> r == hi
  {
    Max(lo, Min(hi, x))
  }

  /** Clamping is monotone: a larger input never gives a smaller result. */
  lemma ClampMonotone(lo: real, hi: real, x: real, y: real)
    requires lo <= hi && x <= y
    ensures Clamp(lo, hi, x) <= Clamp(lo, hi, y)
  {
  }

  /** The scale after a pinch: the start scale times the fingers' spread ratio, clamped to [0.5, 3]. */
  function PinchScale(distance: real, startDistance: Positive, startScale: real): real
  {
    Clamp(MinScale, MaxScale, distance / startDistance * startScale)
  }

  /**
   * A pinch scale is always within [0.5, 3], and fingers back at their starting spread
   * give back an in-range start scale.
   */
  lemma PinchScaleProperties(distance: real, startDistance: Positive, startScale: real)
    ensures MinScale <= PinchScale(distance, startDistance, startScale) <= MaxScale
    ensures MinScale <= startScale <= MaxScale ==> PinchScale(startDistance, startDistance, startScale) == startScale
  {
    assert startDistance / startDistance == 1.0;
  }

  /** Spreading the fingers further never makes the pinch scale smaller. */
  lemma PinchScaleMonotone(d1: real, d2: real, startDistance: Positive, startScale: real)
    requires d1 <= d2 && 0.0 <= startScale
    ensures PinchScale(d1, startDistance, startScale) <= PinchScale(d2, startDistance, startScale)
  {
    assert d1 / startDistance <= d2 / startDistance by {
      assert (d2 / startDistance - d1 / startDistance) * startDistance == d2 - d1;
    }
    assert d1 / startDistance * startScale <= d2 / startDistance * startScale by {
      assert d2 / startDistance * startScale - d1 / startDistance * startScale
          == (d2 / startDistance - d1 / startDistance) * startScale;
    }
    ClampMonotone(MinScale, MaxScale, d1 / startDistance * startScale, d2 / startDistance * startScale);
  }
}
