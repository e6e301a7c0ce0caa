/**
 * The clock face's arithmetic: how a sampled local time (hour 0-23,
 * minute 0-59, second 0-59) becomes the rotation, in whole degrees clockwise
 * from twelve o'clock, of the hour, minute and second hands.
 */
module Dial {

  /**
   * The hour on a 12-hour scale. Hours after noon lose 12; midnight stays 0
   * and noon stays 12, so both sit at the top of the dial but stay distinct.
   */
  function TwelveHour(hour: nat): (h: nat)
    requires hour < 24
    ensures h <= 12
    ensures h % 12 == hour % 12
    ensures h == 0 <==> hour == 0
    ensures h == 12 <==> hour == 12
  {
    if hour > 12 then hour - 12 else hour
  }

  /** 30 degrees per hour on a 12-hour dial. */
  function HourAngle(hour: nat): (a: nat)
    requires hour < 24
    ensures a <= 360 && a % 30 == 0
    ensures a % 360 == hour % 12 * 30
    ensures a == 0 <==> hour == 0
    ensures a == 360 <==> hour == 12
  {
    TwelveHour(hour) * 30
  }

  /** 6 degrees per step on a dial of 60 steps: the minute and second hands. */
  function SixtiethAngle(n: nat): (a: nat)
    requires n < 60
    ensures a <= 354 && a % 6 == 0
    ensures a / 6 == n
  {
    n * 6
  }

  /** The hour hand's angle gives back the 12-hour value it was computed from. */
  lemma HourAngleInverse(hour: nat)
    requires hour < 24
    ensures HourAngle(hour) / 30 == TwelveHour(hour)
  {
  }

  /**
   * An afternoon hour points where the morning hour 12 earlier points; the
   * one exception is noon, which is a full turn (360 against 0) from midnight.
   */
  lemma HalfDaysAgree(hour: nat)
    requires hour < 12
    ensures hour != 0 ==> HourAngle(hour + 12) == HourAngle(hour)
    ensures hour == 0 ==> HourAngle(hour + 12) == HourAngle(hour) + 360
  {
  }

  /** Within one half day the hour hand takes a different angle for every hour. */
  lemma HourAngleInjective(h1: nat, h2: nat)
    requires h1 <= 12 && h2 <= 12
    ensures HourAngle(h1) == HourAngle(h2) <==> h1 == h2
  {
  }

  /** The minute and second hands advance strictly with their value. */
  lemma SixtiethAngleStrictlyIncreasing(m: nat, n: nat)
    requires m < n < 60
    ensures SixtiethAngle(m) < SixtiethAngle(n)
  {
  }
}
