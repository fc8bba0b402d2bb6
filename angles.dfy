/** The indicator's geometry: minutes of the day and degrees clockwise from
    the top of the dial, one full turn per day. Reals idealise JavaScript's
    doubles and rounding is not modelled, so the conversions here are exact. */
module Angles {
  import opened JsMath

  /** `updateTimeIndicator`: `(minutes / 1440) * 360`. */
  function MinutesToAngle(minutes: real): (angle: real)
    ensures 0.0 <= minutes < 1440.0 <==> 0.0 <= angle < 360.0
    ensures minutes < 1440.0 <==> angle < 360.0
  {
    (minutes / 1440.0) * 360.0
  }

  /** The drag and click handlers: `(angle / 360) * 1440`. */
  function AngleToMinutes(angle: real): (minutes: real)
    ensures 0.0 <= angle < 360.0 <==> 0.0 <= minutes < 1440.0
  {
    (angle / 360.0) * 1440.0
  }

  /** `getAngleFromEvent`: `(d + 90 + 360) % 360`, which turns atan2's
      degrees (0 at three o'clock) into degrees from twelve o'clock. For
      every atan2 result it is the floored modulo of `d + 90`. */
  function PointerAngle(atanDegrees: real): (angle: real)
    ensures -450.0 <= atanDegrees ==> angle == FloorMod(atanDegrees + 90.0, 360.0)
    ensures -180.0 <= atanDegrees <= 180.0 ==>
      0.0 <= angle < 360.0 &&
      angle == if atanDegrees < -90.0 then atanDegrees + 450.0 else atanDegrees + 90.0
  {
    PointerNormalisation(atanDegrees);
    JsRem(atanDegrees + 90.0 + 360.0, 360.0)
  }

  /** Adding a full turn before `%` makes the dividend non-negative for
      every angle from -450 on, and then `%` is the floored modulo. */
  lemma {:induction false} PointerNormalisation(atanDegrees: real)
    ensures -450.0 <= atanDegrees ==>
      JsRem(atanDegrees + 90.0 + 360.0, 360.0) == FloorMod(atanDegrees + 90.0, 360.0)
  {
    if -450.0 <= atanDegrees {
      JsRemOfNonNegative(atanDegrees + 90.0 + 360.0, 360.0);
      FloorModShift(atanDegrees + 90.0, 360.0, 1);
    }
  }

  /** `hours * 60 + minutes + seconds / 60`: the live clock's minute of the
      day, read from the reference city's wall clock. */
  function LiveMinutes(hours: nat, mins: nat, secs: nat): (minutes: real)
    ensures (hours * 60 + mins) as real <= minutes
    ensures secs < 60 ==> minutes < (hours * 60 + mins + 1) as real
    ensures hours < 24 && mins < 60 && secs < 60 ==> minutes < 1440.0
  {
    (hours * 60 + mins) as real + secs as real / 60.0
  }

  /** Minutes to degrees and back is the identity. */
  lemma MinutesRoundTrip(minutes: real)
    ensures AngleToMinutes(MinutesToAngle(minutes)) == minutes
  {
  }

  /** Degrees to minutes and back is the identity. */
  lemma AngleRoundTrip(angle: real)
    ensures MinutesToAngle(AngleToMinutes(angle)) == angle
  {
  }

  /** Later in the day is further round the dial. */
  lemma MinutesToAngleMonotone(m1: real, m2: real)
    requires m1 < m2
    ensures MinutesToAngle(m1) < MinutesToAngle(m2)
  {
  }

  /** The pointer's compass directions: up is midnight, right is 06:00,
      down is noon, left is 18:00. */
  lemma PointerDirections()
    ensures PointerAngle(-90.0) == 0.0 && AngleToMinutes(PointerAngle(-90.0)) == 0.0
    ensures PointerAngle(0.0) == 90.0 && AngleToMinutes(PointerAngle(0.0)) == 360.0
    ensures PointerAngle(90.0) == 180.0 && AngleToMinutes(PointerAngle(90.0)) == 720.0
    ensures PointerAngle(180.0) == 270.0 && AngleToMinutes(PointerAngle(180.0)) == 1080.0
  {
  }

  /** Only the straight-up pointer reads as minute 0. */
  lemma {:induction false} PointerAtMidnight(atanDegrees: real)
    requires -180.0 <= atanDegrees <= 180.0
    ensures AngleToMinutes(PointerAngle(atanDegrees)) == 0.0 <==> atanDegrees == -90.0
  {
  }
}
