/** Times of day as the booking form submits them: zero-padded 24-hour `HH:MM`
    strings.  The handlers compare them as strings and price them through
    `new Date("2000-01-01 HH:MM")`; `Minutes` is the value that date stands for. */
module Clock {
  import opened Wrappers
  import opened Js

  /** The value of a decimal digit, as `parseInt` reads it. */
  function Digit(c: char): (d: nat)
    requires IsDigit(c)
    ensures d < 10 && d == c as int - '0' as int
  {
    DigitValue(c, 10).value
  }

  /** A zero-padded time from `00:00` to `23:59`. */
  predicate IsClockTime(s: string)
  {
    && |s| == 5
    && IsDigit(s[0]) && IsDigit(s[1]) && s[2] == ':' && IsDigit(s[3]) && IsDigit(s[4])
    && Digit(s[0]) * 10 + Digit(s[1]) <= 23
    && Digit(s[3]) * 10 + Digit(s[4]) <= 59
  }

  /** Minutes since midnight, or `None` where the date built from `s` would be
      an invalid date. */
  function Minutes(s: string): (r: Option<nat>)
    ensures r.Some? <==> IsClockTime(s)
    ensures r.Some? ==> r.value < 24 * 60
  {
    if IsClockTime(s) then Some((Digit(s[0]) * 10 + Digit(s[1])) * 60 + Digit(s[3]) * 10 + Digit(s[4]))
    else None
  }

  /** For zero-padded 24-hour times, string order is chronological order, so the
      handlers' `startTime >= endTime` test compares the times themselves. */
  lemma ClockOrderIsChronological(a: string, b: string)
    requires IsClockTime(a) && IsClockTime(b)
    ensures Less(a, b) <==> Minutes(a).value < Minutes(b).value
  {
    if a[0] != b[0] {
      LessAtFirstDifference(a, b, 0);
    } else if a[1] != b[1] {
      assert a[..1] == b[..1];
      LessAtFirstDifference(a, b, 1);
    } else if a[3] != b[3] {
      assert a[..3] == b[..3];
      LessAtFirstDifference(a, b, 3);
    } else if a[4] != b[4] {
      assert a[..4] == b[..4];
      LessAtFirstDifference(a, b, 4);
    } else {
      assert a == b;
      LessIrreflexive(a);
    }
  }
}
