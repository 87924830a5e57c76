/**
 * Steering arithmetic of the car controller: the linear interpolation used to
 * turn a pixel column into a servo command, the two-segment map anchored at a
 * row's reference column, and the left/right fusion policy.
 *
 * The source computes in IEEE doubles; this model uses exact `real`
 * arithmetic and writes the C cast `(int) x` as truncation toward zero.
 */
module Steering {

  /** Servo command limits and centre (SERVO_CENTER is LEFT + (RIGHT - LEFT) / 2). */
  const SERVO_LEFT: int := 220
  const SERVO_RIGHT: int := 380
  const SERVO_CENTER: int := SERVO_LEFT + (SERVO_RIGHT - SERVO_LEFT) / 2

  /** Two readings closer than this are averaged (strict comparison). */
  const AGREEMENT_THRESHOLD: int := 15

  /** The C conversion of a double to int: truncation toward zero. */
  function Trunc(x: real): (r: int)
    ensures 0.0 <= x ==> r as real <= x < r as real + 1.0
    ensures x < 0.0 ==> r as real - 1.0 < x <= r as real
  {
    if 0.0 <= x then x.Floor else -((-x).Floor)
  }

  lemma TruncMonotone(x: real, y: real)
    requires x <= y
    ensures Trunc(x) <= Trunc(y)
  {
  }

  lemma TruncOfInt(n: int)
    ensures Trunc(n as real) == n
  {
  }

  /** Truncation never leaves an integer interval that contains its argument. */
  lemma TruncWithin(x: real, lo: int, hi: int)
    requires lo as real <= x <= hi as real
    ensures lo <= Trunc(x) <= hi
  {
    TruncMonotone(lo as real, x);
    TruncMonotone(x, hi as real);
    TruncOfInt(lo);
    TruncOfInt(hi);
  }

  /** The C `abs` on int. */
  function Abs(x: int): (r: int)
    ensures 0 <= r && (r == x || r == -x)
  {
    if x < 0 then -x else x
  }

  function Min(a: int, b: int): (r: int)
    ensures r <= a && r <= b && (r == a || r == b)
  {
    if a < b then a else b
  }

  function Max(a: int, b: int): (r: int)
    ensures a <= r && b <= r && (r == a || r == b)
  {
    if a < b then b else a
  }

  /** The interpolated point before the cast in `full_map`. */
  function Interpolate(input: real, inMin: real, inMax: real, outMin: real, outMax: real): real
    requires inMin != inMax
  {
    outMin + (outMax - outMin) / (inMax - inMin) * (input - inMin)
  }

  /**
   * `full_map`: linear interpolation of `input` from [inMin, inMax] onto
   * [outMin, outMax], cast to int. The source divides by `inMax - inMin`
   * unchecked; equal bounds are excluded here.
   */
  function FullMap(input: real, inMin: real, inMax: real, outMin: real, outMax: real): (r: int)
    requires inMin != inMax
    ensures r as real - 1.0 < Interpolate(input, inMin, inMax, outMin, outMax) < r as real + 1.0
  {
    Trunc(Interpolate(input, inMin, inMax, outMin, outMax))
  }

  lemma MulMonotone(a: real, b: real, c: real)
    requires 0.0 <= a && b <= c
    ensures a * b <= a * c
  {
    assert a * c - a * b == a * (c - b);
  }

  lemma MulStrict(a: real, b: real, c: real)
    requires 0.0 < a && b < c
    ensures a * b < a * c
  {
    assert a * c - a * b == a * (c - b);
    assert 0.0 < a * (c - b);
  }

  /** The two end points of the input range land exactly on the output bounds. */
  lemma FullMapEnds(inMin: real, inMax: real, outMin: int, outMax: int)
    requires inMin != inMax
    ensures FullMap(inMin, inMin, inMax, outMin as real, outMax as real) == outMin
    ensures FullMap(inMax, inMin, inMax, outMin as real, outMax as real) == outMax
  {
    var slope := (outMax as real - outMin as real) / (inMax - inMin);
    assert slope * (inMax - inMin) == outMax as real - outMin as real;
    assert Interpolate(inMax, inMin, inMax, outMin as real, outMax as real) == outMax as real;
    TruncOfInt(outMin);
    TruncOfInt(outMax);
  }

  /** For an increasing input range and a non-decreasing output range the map is non-decreasing. */
  lemma FullMapMonotone(x: real, y: real, inMin: real, inMax: real, outMin: real, outMax: real)
    requires inMin < inMax && outMin <= outMax && x <= y
    ensures FullMap(x, inMin, inMax, outMin, outMax) <= FullMap(y, inMin, inMax, outMin, outMax)
  {
    var slope := (outMax - outMin) / (inMax - inMin);
    assert 0.0 <= slope;
    MulMonotone(slope, x - inMin, y - inMin);
    TruncMonotone(Interpolate(x, inMin, inMax, outMin, outMax), Interpolate(y, inMin, inMax, outMin, outMax));
  }

  /** Inside the input range the result stays inside the (integral) output range. */
  lemma FullMapWithin(x: real, inMin: real, inMax: real, outMin: int, outMax: int)
    requires inMin < inMax && outMin <= outMax && inMin <= x <= inMax
    ensures outMin <= FullMap(x, inMin, inMax, outMin as real, outMax as real) <= outMax
  {
    FullMapEnds(inMin, inMax, outMin, outMax);
    FullMapMonotone(inMin, x, inMin, inMax, outMin as real, outMax as real);
    FullMapMonotone(x, inMax, inMin, inMax, outMin as real, outMax as real);
  }

  /** `map_servo`: the whole input range onto [SERVO_LEFT, SERVO_RIGHT]. It has no caller. */
  function MapServo(input: real, inMin: real, inMax: real): (r: int)
    requires inMin != inMax
    ensures r as real - 1.0 < Interpolate(input, inMin, inMax, SERVO_LEFT as real, SERVO_RIGHT as real) < r as real + 1.0
  {
    FullMap(input, inMin, inMax, SERVO_LEFT as real, SERVO_RIGHT as real)
  }

  lemma MapServoEnds(inMin: real, inMax: real)
    requires inMin != inMax
    ensures MapServo(inMin, inMin, inMax) == SERVO_LEFT
    ensures MapServo(inMax, inMin, inMax) == SERVO_RIGHT
  {
    FullMapEnds(inMin, inMax, SERVO_LEFT, SERVO_RIGHT);
  }

  /**
   * `map_servo_fine`: below `mean` the segment [inMin, mean] is mapped onto
   * [SERVO_LEFT, SERVO_CENTER]; from `mean` on, [mean, inMax] is mapped onto
   * [SERVO_CENTER, SERVO_RIGHT]. The segment actually used must not be empty.
   */
  function MapServoFine(input: real, inMin: real, inMax: real, mean: real): (r: int)
    requires input < mean ==> inMin != mean
    requires mean <= input ==> mean != inMax
    ensures input < mean ==>
      r as real - 1.0 < Interpolate(input, inMin, mean, SERVO_LEFT as real, SERVO_CENTER as real) < r as real + 1.0
    ensures mean <= input ==>
      r as real - 1.0 < Interpolate(input, mean, inMax, SERVO_CENTER as real, SERVO_RIGHT as real) < r as real + 1.0
    ensures input == mean ==> r == SERVO_CENTER
  {
    if input < mean then
      FullMap(input, inMin, mean, SERVO_LEFT as real, SERVO_CENTER as real)
    else
      assert input == mean ==> Interpolate(input, mean, inMax, SERVO_CENTER as real, SERVO_RIGHT as real) == SERVO_CENTER as real;
      FullMap(input, mean, inMax, SERVO_CENTER as real, SERVO_RIGHT as real)
  }

  /** The reference column maps exactly onto the centre command. */
  lemma MapServoFineCenter(inMin: real, inMax: real, mean: real)
    requires mean != inMax
    ensures MapServoFine(mean, inMin, inMax, mean) == SERVO_CENTER
  {
    FullMapEnds(mean, inMax, SERVO_CENTER, SERVO_RIGHT);
  }

  /** The outer ends of the scan range map onto the servo limits. */
  lemma MapServoFineEnds(inMin: real, inMax: real, mean: real)
    requires inMin < mean < inMax
    ensures MapServoFine(inMin, inMin, inMax, mean) == SERVO_LEFT
    ensures MapServoFine(inMax, inMin, inMax, mean) == SERVO_RIGHT
  {
    FullMapEnds(inMin, mean, SERVO_LEFT, SERVO_CENTER);
    FullMapEnds(mean, inMax, SERVO_CENTER, SERVO_RIGHT);
  }

  /** Left of the reference the left segment stays below the centre. */
  lemma LeftSegmentBelowCenter(x: real, inMin: real, mean: real)
    requires inMin < mean && x < mean
    ensures FullMap(x, inMin, mean, SERVO_LEFT as real, SERVO_CENTER as real) < SERVO_CENTER
  {
    var d := mean - inMin;
    var span := (SERVO_CENTER - SERVO_LEFT) as real;
    var slope := span / d;
    assert 0.0 < slope;
    assert slope * d == span;
    MulStrict(slope, x - inMin, d);
    assert Interpolate(x, inMin, mean, SERVO_LEFT as real, SERVO_CENTER as real) < SERVO_CENTER as real;
  }

  /** From the reference on, the right segment stays at or above the centre. */
  lemma RightSegmentFromCenter(x: real, mean: real, inMax: real)
    requires mean < inMax && mean <= x
    ensures SERVO_CENTER <= FullMap(x, mean, inMax, SERVO_CENTER as real, SERVO_RIGHT as real)
  {
    FullMapEnds(mean, inMax, SERVO_CENTER, SERVO_RIGHT);
    FullMapMonotone(mean, x, mean, inMax, SERVO_CENTER as real, SERVO_RIGHT as real);
  }

  /** The command is left of centre exactly when the column is left of the reference. */
  lemma MapServoFineSide(x: real, inMin: real, inMax: real, mean: real)
    requires inMin < mean < inMax
    ensures MapServoFine(x, inMin, inMax, mean) < SERVO_CENTER <==> x < mean
  {
    if x < mean {
      LeftSegmentBelowCenter(x, inMin, mean);
    } else {
      RightSegmentFromCenter(x, mean, inMax);
    }
  }

  /**
   * With a proper scan range the map is non-decreasing on each segment and
   * also across the reference column.
   */
  lemma MapServoFineMonotone(x: real, y: real, inMin: real, inMax: real, mean: real)
    requires inMin < mean < inMax && x <= y
    ensures MapServoFine(x, inMin, inMax, mean) <= MapServoFine(y, inMin, inMax, mean)
  {
    if y < mean {
      FullMapMonotone(x, y, inMin, mean, SERVO_LEFT as real, SERVO_CENTER as real);
    } else if mean <= x {
      FullMapMonotone(x, y, mean, inMax, SERVO_CENTER as real, SERVO_RIGHT as real);
    } else {
      MapServoFineSide(x, inMin, inMax, mean);
      MapServoFineSide(y, inMin, inMax, mean);
    }
  }

  /** Columns inside the scan range give commands inside [SERVO_LEFT, SERVO_RIGHT]. */
  lemma MapServoFineWithin(x: real, inMin: real, inMax: real, mean: real)
    requires inMin < mean < inMax && inMin <= x <= inMax
    ensures SERVO_LEFT <= MapServoFine(x, inMin, inMax, mean) <= SERVO_RIGHT
  {
    MapServoFineEnds(inMin, inMax, mean);
    MapServoFineMonotone(inMin, x, inMin, inMax, mean);
    MapServoFineMonotone(x, inMax, inMin, inMax, mean);
  }

  /**
   * `average_not_zero`: 0 stands for "no reading". Both present gives their
   * mean, one present gives that one, none gives -1.
   */
  function AverageNotZero(a: int, b: int): (r: real)
    ensures a != 0 && b != 0 ==> r * 2.0 == (a + b) as real
    ensures a != 0 && b != 0 ==> Min(a, b) as real <= r <= Max(a, b) as real
  {
    if a != 0 && b != 0 then (a + b) as real / 2.0
    else if a != 0 then a as real
    else if b != 0 then b as real
    else -1.0
  }

  lemma AverageNotZeroCases(a: int, b: int)
    ensures a == 0 && b == 0 ==> AverageNotZero(a, b) == -1.0
    ensures a == 0 && b != 0 ==> AverageNotZero(a, b) == b as real
    ensures a != 0 && b == 0 ==> AverageNotZero(a, b) == a as real
    ensures a != 0 && b != 0 ==>
      Min(a, b) as real <= AverageNotZero(a, b) <= Max(a, b) as real &&
      AverageNotZero(a, b) * 2.0 == (a + b) as real
    ensures 0 <= a && 0 <= b ==> (AverageNotZero(a, b) == -1.0 <==> a == 0 && b == 0)
  {
  }

  /**
   * `chose_servo`: fuse the left and right readings (0 = absent) around
   * `mean`. The double returned by `average_not_zero` is cast back to int.
   */
  function ChoseServo(left: int, right: int, mean: int): (r: int)
    ensures left != 0 && right != 0 ==> Min(left, right) <= r <= Max(left, right)
  {
    if left != 0 && right != 0 then
      if Abs(right - left) < AGREEMENT_THRESHOLD then
        Trunc(AverageNotZero(left, right))
      else if left < mean && right < mean then
        Min(left, right)
      else if left > mean && right > mean then
        Max(left, right)
      else
        Trunc(AverageNotZero(left, right))
    else
      Trunc(AverageNotZero(left, right))
  }

  /** Absent readings: the present side is used unchanged; none present gives -1. */
  lemma ChoseServoAbsent(left: int, right: int, mean: int)
    requires left == 0 || right == 0
    ensures left == 0 && right == 0 ==> ChoseServo(left, right, mean) == -1
    ensures left == 0 && right != 0 ==> ChoseServo(left, right, mean) == right
    ensures left != 0 && right == 0 ==> ChoseServo(left, right, mean) == left
  {
    TruncOfInt(-1);
    TruncOfInt(left);
    TruncOfInt(right);
  }

  /** Readings that agree within the threshold are averaged with C truncation. */
  lemma ChoseServoAgree(left: int, right: int, mean: int)
    requires left != 0 && right != 0 && Abs(right - left) < AGREEMENT_THRESHOLD
    ensures ChoseServo(left, right, mean) == Trunc((left + right) as real / 2.0)
    ensures 0 <= left + right ==> ChoseServo(left, right, mean) == (left + right) / 2
  {
    var s := left + right;
    if 0 <= s {
      var h := s / 2;
      assert h as real <= s as real / 2.0 < h as real + 1.0;
    }
  }

  /**
   * Disagreeing readings on the same side of `mean`: the one farther from
   * `mean` is kept (the minimum on the left, the maximum on the right).
   */
  lemma ChoseServoSameSide(left: int, right: int, mean: int)
    requires left != 0 && right != 0 && AGREEMENT_THRESHOLD <= Abs(right - left)
    requires (left < mean && right < mean) || (left > mean && right > mean)
    ensures ChoseServo(left, right, mean) == left || ChoseServo(left, right, mean) == right
    ensures Abs(left - mean) <= Abs(ChoseServo(left, right, mean) - mean)
    ensures Abs(right - mean) <= Abs(ChoseServo(left, right, mean) - mean)
  {
  }

  /** Disagreeing readings that straddle or touch `mean` are averaged. */
  lemma ChoseServoStraddle(left: int, right: int, mean: int)
    requires left != 0 && right != 0 && AGREEMENT_THRESHOLD <= Abs(right - left)
    requires !(left < mean && right < mean) && !(left > mean && right > mean)
    ensures ChoseServo(left, right, mean) == Trunc((left + right) as real / 2.0)
  {
  }

  /** Two present readings always fuse to a value between them. */
  lemma ChoseServoBetween(left: int, right: int, mean: int)
    requires left != 0 && right != 0
    ensures Min(left, right) <= ChoseServo(left, right, mean) <= Max(left, right)
  {
    AverageNotZeroCases(left, right);
    TruncWithin(AverageNotZero(left, right), Min(left, right), Max(left, right));
  }

  /** The fusion does not depend on which side a reading came from. */
  lemma ChoseServoSymmetric(left: int, right: int, mean: int)
    ensures ChoseServo(left, right, mean) == ChoseServo(right, left, mean)
  {
    assert AverageNotZero(left, right) == AverageNotZero(right, left);
  }

  /** For non-negative readings the -1 "no estimate" result arises exactly when both are absent. */
  lemma ChoseServoNoEstimate(left: int, right: int, mean: int)
    requires 0 <= left && 0 <= right
    ensures ChoseServo(left, right, mean) == -1 <==> left == 0 && right == 0
  {
    if left != 0 && right != 0 {
      ChoseServoBetween(left, right, mean);
    } else {
      ChoseServoAbsent(left, right, mean);
    }
  }

  /** The worked fusion cases: 200/210 agree, 100/120 both left, 350/400 both right. */
  lemma ChoseServoExamples()
    ensures ChoseServo(200, 210, SERVO_CENTER) == 205
    ensures ChoseServo(100, 120, SERVO_CENTER) == 100
    ensures ChoseServo(350, 400, SERVO_CENTER) == 400
    ensures ChoseServo(0, 250, SERVO_CENTER) == 250
    ensures ChoseServo(0, 0, SERVO_CENTER) == -1
  {
    ChoseServoAgree(200, 210, SERVO_CENTER);
    ChoseServoAbsent(0, 250, SERVO_CENTER);
    ChoseServoAbsent(0, 0, SERVO_CENTER);
  }
}
