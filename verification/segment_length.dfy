/**
 The dynamic track-segment length (`Game._calculateDynamicSegmentLength`).

 The speed ratio is clamped to [1, 10], normalised to t in [0, 1], passed through the
 ease-out curve 1 - (1 - t)^2 and interpolated between the base length 10 and the
 maximum length 50, then rounded to a whole number of distance units.
 */
module SegmentLength {
  import opened Common

  const BaseLength: int := 10
  const MaxLength: int := 50
  const MinSpeedRatio: real := 1.0
  const MaxSpeedRatio: real := 10.0

  /** Normalised speed in [0, 1]. */
  function Normalised(ratio: real): (t: real)
    ensures 0.0 <= t <= 1.0
    ensures ratio <= MinSpeedRatio ==> t == 0.0
    ensures ratio >= MaxSpeedRatio ==> t == 1.0
  {
    (Clamp(ratio, MinSpeedRatio, MaxSpeedRatio) - MinSpeedRatio) / (MaxSpeedRatio - MinSpeedRatio)
  }

  /** The ease-out curve `1 - Math.pow(1 - t, 2)`. */
  function EaseOut(t: real): (e: real)
    requires 0.0 <= t <= 1.0
    ensures 0.0 <= e <= 1.0
    ensures t == 0.0 ==> e == 0.0
    ensures t == 1.0 ==> e == 1.0
  {
    var u := 1.0 - t;
    assert 0.0 <= u * u <= u by {
      assert u * u <= u * 1.0;
    }
    1.0 - u * u
  }

  /** The un-rounded length the curve aims at. */
  function IdealLength(ratio: real): (x: real)
    ensures BaseLength as real <= x <= MaxLength as real
  {
    BaseLength as real + (MaxLength - BaseLength) as real * EaseOut(Normalised(ratio))
  }

  /** `currentSegmentLength` for a given `runSpeed / initialRunSpeed`. */
  function DynamicLength(ratio: real): (len: int)
    ensures BaseLength <= len <= MaxLength
    ensures ratio <= MinSpeedRatio ==> len == BaseLength
    ensures ratio >= MaxSpeedRatio ==> len == MaxLength
    ensures IdealLength(ratio) - 0.5 < len as real <= IdealLength(ratio) + 0.5
  {
    Round(IdealLength(ratio))
  }

  lemma {:induction false} SquareMonotone(a: real, b: real)
    requires 0.0 <= b <= a
    ensures b * b <= a * a
  {
    assert a * a - b * b == (a - b) * (a + b);
    assert (a - b) * (a + b) >= 0.0;
  }

  lemma {:induction false} EaseOutMonotone(t1: real, t2: real)
    requires 0.0 <= t1 <= t2 <= 1.0
    ensures EaseOut(t1) <= EaseOut(t2)
  {
    SquareMonotone(1.0 - t1, 1.0 - t2);
  }

  /** A faster run never gets shorter segments. */
  lemma {:induction false} DynamicLengthMonotone(r1: real, r2: real)
    requires r1 <= r2
    ensures DynamicLength(r1) <= DynamicLength(r2)
  {
    ClampMonotone(r1, r2, MinSpeedRatio, MaxSpeedRatio);
    assert Normalised(r1) <= Normalised(r2);
    EaseOutMonotone(Normalised(r1), Normalised(r2));
    assert IdealLength(r1) <= IdealLength(r2);
    RoundMonotone(IdealLength(r1), IdealLength(r2));
  }

  /** The sample ratios 1, 2, 5 and 10 give 10, 18, 38 and 50 units. */
  lemma {:induction false} SampleLengths()
    ensures DynamicLength(1.0) == 10
    ensures DynamicLength(2.0) == 18
    ensures DynamicLength(5.0) == 38
    ensures DynamicLength(10.0) == 50
  {
    assert Normalised(2.0) == 1.0 / 9.0;
    assert EaseOut(1.0 / 9.0) == 17.0 / 81.0;
    assert IdealLength(2.0) == 10.0 + 40.0 * 17.0 / 81.0;
    assert Normalised(5.0) == 4.0 / 9.0;
    assert EaseOut(4.0 / 9.0) == 56.0 / 81.0;
    assert IdealLength(5.0) == 10.0 + 40.0 * 56.0 / 81.0;
  }
}
