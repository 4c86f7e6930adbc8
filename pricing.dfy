/** The price of a booking: `(end - start) / (1000 * 60 * 60) * price_per_hour`,
    with `start` and `end` the dates `new Date("2000-01-01 " + time)`. */
module Pricing {
  import opened Wrappers
  import opened Js
  import opened Clock
  import opened Entities

  /** The charge for `minutes` minutes at `pricePerHour`: hours, fractions
      included, times the rate. */
  function Charge(minutes: int, pricePerHour: real): real
  {
    minutes as real / 60.0 * pricePerHour
  }

  /** The duration in hours times the hourly rate; `NaN` when either time is
      not a time of day that the date parser accepts. */
  function TotalPrice(startTime: string, endTime: string, pricePerHour: real): (p: Price)
    ensures p.Amount? <==> IsClockTime(startTime) && IsClockTime(endTime)
  {
    var start, end := Minutes(startTime), Minutes(endTime);
    if start.Some? && end.Some?
    then Amount(Charge(end.value - start.value, pricePerHour))
    else NotANumber
  }

  lemma ChargeIsPositive(minutes: int, pricePerHour: real)
    requires minutes > 0 && pricePerHour > 0.0
    ensures Charge(minutes, pricePerHour) > 0.0
  {
    var hours := minutes as real / 60.0;
    assert hours > 0.0;
    assert hours * pricePerHour > 0.0;
  }

  lemma ChargeIsAdditive(m1: int, m2: int, pricePerHour: real)
    ensures Charge(m1 + m2, pricePerHour) == Charge(m1, pricePerHour) + Charge(m2, pricePerHour)
  {
    var h1, h2 := m1 as real / 60.0, m2 as real / 60.0;
    assert (m1 + m2) as real / 60.0 == h1 + h2;
    assert (h1 + h2) * pricePerHour == h1 * pricePerHour + h2 * pricePerHour;
  }

  /** For a slot that ends after it starts, the price is the rate charged for
      its length, a positive number of minutes, and a positive rate gives a
      positive price. */
  lemma PriceOfSlot(startTime: string, endTime: string, pricePerHour: real)
    requires IsClockTime(startTime) && IsClockTime(endTime) && Less(startTime, endTime)
    ensures var minutes := Minutes(endTime).value - Minutes(startTime).value;
      && minutes > 0
      && TotalPrice(startTime, endTime, pricePerHour) == Amount(Charge(minutes, pricePerHour))
      && (pricePerHour > 0.0 ==> TotalPrice(startTime, endTime, pricePerHour).value > 0.0)
  {
    ClockOrderIsChronological(startTime, endTime);
    var minutes: int := Minutes(endTime).value - Minutes(startTime).value;
    if pricePerHour > 0.0 {
      ChargeIsPositive(minutes, pricePerHour);
    }
  }

  /** Splitting a slot at any time in between splits its price. */
  lemma PriceIsAdditive(a: string, b: string, c: string, pricePerHour: real)
    requires IsClockTime(a) && IsClockTime(b) && IsClockTime(c)
    ensures TotalPrice(a, c, pricePerHour).value
         == TotalPrice(a, b, pricePerHour).value + TotalPrice(b, c, pricePerHour).value
  {
    var x: int, y: int, z: int := Minutes(a).value, Minutes(b).value, Minutes(c).value;
    ChargeIsAdditive(y - x, z - y, pricePerHour);
    assert (y - x) + (z - y) == z - x;
  }

  /** 09:00-11:00 on a pitch at 50 an hour costs 100; 09:30-11:00 is one and a
      half hours. */
  lemma PriceExamples(pricePerHour: real)
    ensures TotalPrice("09:00", "11:00", 50.0) == Amount(100.0)
    ensures TotalPrice("09:30", "11:00", pricePerHour) == Amount(1.5 * pricePerHour)
  {
    assert Minutes("09:00") == Some(540);
    assert Minutes("09:30") == Some(570);
    assert Minutes("11:00") == Some(660);
  }
}
