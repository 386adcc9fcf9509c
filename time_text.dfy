/**
 * The textual time-of-day forms a schedule trigger accepts for its `time`
 * setting: `H:m` and `H:m:s`, each field one or two decimal digits, hours
 * below 24, minutes and seconds below 60. Anything else is a configuration
 * error, reported as None.
 */
module TimeText {
  import opened Wrappers
  import opened Util

  predicate IsDigit(c: char) { '0' <= c <= '9' }

  function DigitValue(c: char): (d: nat)
    requires IsDigit(c)
    ensures d < 10
  {
    (c as int - '0' as int) as nat
  }

  function DigitChar(d: nat): (c: char)
    requires d < 10
    ensures IsDigit(c) && DigitValue(c) == d
  {
    ('0' as int + d) as char
  }

  predicate NoColon(s: string) { forall i :: 0 <= i < |s| ==> s[i] != ':' }

  /** The pieces of `s` between colons, in order, empty pieces included. */
  function Split(s: string): (fields: seq<string>)
    ensures |fields| >= 1
    decreases |s|
  {
    if s == [] then [[]]
    else
      var rest := Split(s[1..]);
      if s[0] == ':' then [[]] + rest else [[s[0]] + rest[0]] + rest[1..]
  }

  /** A field of one or two decimal digits, or None. */
  function ParseField(f: string): (r: Option<nat>)
    ensures r.Some? ==> r.value < 100
  {
    if |f| == 1 && IsDigit(f[0]) then Some(DigitValue(f[0]))
    else if |f| == 2 && IsDigit(f[0]) && IsDigit(f[1]) then Some(10 * DigitValue(f[0]) + DigitValue(f[1]))
    else None
  }

  /** Seconds after midnight denoted by `H:m` or `H:m:s`, or None for malformed text. */
  function ParseTimeOfDay(s: string): (r: Option<nat>)
    ensures r.Some? ==> r.value < SecondsPerDay
  {
    var f := Split(s);
    if |f| != 2 && |f| != 3 then None
    else
      var h := ParseField(f[0]);
      var m := ParseField(f[1]);
      var sec := if |f| == 3 then ParseField(f[2]) else Some(0);
      if h.Some? && m.Some? && sec.Some? && h.value < 24 && m.value < 60 && sec.value < 60
      then Some(h.value * SecondsPerHour + m.value * SecondsPerMinute + sec.value)
      else None
  }

  /** A number below 100 as exactly two digits. */
  function TwoDigits(n: nat): (s: string)
    requires n < 100
    ensures |s| == 2 && NoColon(s)
  {
    [DigitChar(n / 10), DigitChar(n % 10)]
  }

  /** The canonical `HH:mm:ss` text of a time of day. */
  function FormatTimeOfDay(t: nat): string
    requires t < SecondsPerDay
  {
    TwoDigits(t / SecondsPerHour) + ":" + TwoDigits(t % SecondsPerHour / SecondsPerMinute) + ":"
      + TwoDigits(t % SecondsPerMinute)
  }

  /** Text without a colon is one field. */
  lemma {:induction false} SplitNoColon(a: string)
    requires NoColon(a)
    ensures Split(a) == [a]
    decreases |a|
  {
    if a != [] {
      SplitNoColon(a[1..]);
      assert [a[0]] + a[1..] == a;
    }
  }

  /** A colon after colon-free text ends the first field there. */
  lemma {:induction false} SplitAtColon(a: string, b: string)
    requires NoColon(a)
    ensures Split(a + ":" + b) == [a] + Split(b)
    decreases |a|
  {
    if a == [] {
      assert a + ":" + b == [':'] + b;
      assert ([':'] + b)[1..] == b;
    } else {
      var s := a + ":" + b;
      assert s[0] == a[0] && s[1..] == a[1..] + ":" + b;
      SplitAtColon(a[1..], b);
      assert [a[0]] + a[1..] == a;
    }
  }

  lemma TwoDigitsParse(n: nat)
    requires n < 100
    ensures ParseField(TwoDigits(n)) == Some(n)
  {
  }

  /** Reading back the canonical text gives the same time: `HH:mm:ss` is accepted. */
  lemma ParseFormatted(t: nat)
    requires t < SecondsPerDay
    ensures ParseTimeOfDay(FormatTimeOfDay(t)) == Some(t)
  {
    var hours, minutes, seconds := t / SecondsPerHour, t % SecondsPerHour / SecondsPerMinute, t % SecondsPerMinute;
    assert hours < 24 && minutes < 60 && seconds < 60;
    assert t == hours * SecondsPerHour + minutes * SecondsPerMinute + seconds;
    var h, m, s := TwoDigits(hours), TwoDigits(minutes), TwoDigits(seconds);
    SplitNoColon(s);
    SplitAtColon(m, s);
    SplitAtColon(h, m + ":" + s);
    assert FormatTimeOfDay(t) == h + ":" + (m + ":" + s);
    TwoDigitsParse(hours);
    TwoDigitsParse(minutes);
    TwoDigitsParse(seconds);
  }

  /** The short `HH:mm` form is accepted too, with zero seconds. */
  lemma ParseHoursMinutes(h: nat, m: nat)
    requires h < 24 && m < 60
    ensures ParseTimeOfDay(TwoDigits(h) + ":" + TwoDigits(m)) == Some(h * SecondsPerHour + m * SecondsPerMinute)
  {
    SplitNoColon(TwoDigits(m));
    SplitAtColon(TwoDigits(h), TwoDigits(m));
    TwoDigitsParse(h);
    TwoDigitsParse(m);
  }

  /** Text with a single field, such as a bare hour, is rejected. */
  lemma RejectsSingleField(s: string)
    requires NoColon(s)
    ensures ParseTimeOfDay(s) == None
  {
    SplitNoColon(s);
  }

  /** An hour field of 24 or more is rejected whatever follows it. */
  lemma RejectsHourOutOfRange(h: nat, rest: string)
    requires 24 <= h < 100
    ensures ParseTimeOfDay(TwoDigits(h) + ":" + rest) == None
  {
    SplitAtColon(TwoDigits(h), rest);
    TwoDigitsParse(h);
  }

  /** The settings used by the trigger's scenarios read as expected. */
  lemma Parses2330()
    ensures ParseTimeOfDay("23:30") == Some(23 * SecondsPerHour + 30 * SecondsPerMinute)
  {
    assert "23:30" == TwoDigits(23) + ":" + TwoDigits(30);
    ParseHoursMinutes(23, 30);
  }

  lemma Parses1430()
    ensures ParseTimeOfDay("14:30") == Some(14 * SecondsPerHour + 30 * SecondsPerMinute)
  {
    assert "14:30" == TwoDigits(14) + ":" + TwoDigits(30);
    ParseHoursMinutes(14, 30);
  }

  lemma Parses120000()
    ensures ParseTimeOfDay("12:00:00") == Some(12 * SecondsPerHour)
  {
    assert "12:00:00" == FormatTimeOfDay(12 * SecondsPerHour);
    ParseFormatted(12 * SecondsPerHour);
  }

  lemma Parses100000()
    ensures ParseTimeOfDay("10:00:00") == Some(10 * SecondsPerHour)
  {
    assert "10:00:00" == FormatTimeOfDay(10 * SecondsPerHour);
    ParseFormatted(10 * SecondsPerHour);
  }
}
