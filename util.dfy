/**
 * The clock. A timestamp is a whole number of seconds since 0001-01-01 00:00,
 * the platform's minimum date, which was a Monday. Day numbers count whole days
 * from that date; the calendar (years, months) is not modelled.
 */
module Util {
  import opened Remote

  const SecondsPerMinute := 60
  const SecondsPerHour := 3600
  const SecondsPerDay := 86400

  /** The injected clock: tests move `now` by hand, production reads the system time. */
  class DateTimeProvider {
    var now: nat

    constructor (now: nat)
      ensures this.now == now
    {
      this.now := now;
    }
  }

  /** Number of the day a timestamp falls on. */
  function DayNumber(t: nat): nat { t / SecondsPerDay }

  /** Seconds elapsed since midnight of that day. */
  function TimeOfDay(t: nat): (s: nat)
    ensures s < SecondsPerDay
  {
    t % SecondsPerDay
  }

  /** Midnight of the day a timestamp falls on (the date part of a date-time). */
  function StartOfDay(t: nat): (m: nat)
    ensures m <= t < m + SecondsPerDay
    ensures m % SecondsPerDay == 0
  {
    DayNumber(t) * SecondsPerDay
  }

  /** The timestamp for day `day` at `h:m:s`. */
  function At(day: nat, h: nat, m: nat, s: nat): nat
  {
    day * SecondsPerDay + h * SecondsPerHour + m * SecondsPerMinute + s
  }

  /** Week day of a timestamp: day 0 is a Monday, enumeration number 1. */
  function DayOfWeekOf(t: nat): DayOfWeek
  {
    DayFromIndex((DayNumber(t) + 1) % 7)
  }

  /** Adding one day keeps the time of day and moves to the next day number. */
  lemma NextDaySameTime(t: nat)
    ensures TimeOfDay(t + SecondsPerDay) == TimeOfDay(t)
    ensures DayNumber(t + SecondsPerDay) == DayNumber(t) + 1
  {
  }

  /** A timestamp built from a day and a time of day splits back into them. */
  lemma AtSplits(day: nat, h: nat, m: nat, s: nat)
    requires h < 24 && m < 60 && s < 60
    ensures DayNumber(At(day, h, m, s)) == day
    ensures StartOfDay(At(day, h, m, s)) == day * SecondsPerDay
    ensures TimeOfDay(At(day, h, m, s)) == h * SecondsPerHour + m * SecondsPerMinute + s
    ensures DayOfWeekOf(At(day, h, m, s)) == DayFromIndex((day + 1) % 7)
  {
    var r := h * SecondsPerHour + m * SecondsPerMinute + s;
    assert r < SecondsPerDay;
    assert At(day, h, m, s) == day * SecondsPerDay + r;
  }
}
