/** The parts of the `chrono` crate the client relies on: calendar dates, clock
    times and fixed UTC offsets. "%m/%d/%Y" is printed and read exactly; "%r" and
    the trip planner's "%I:%M+%P" are printed exactly ("%I:%M+%P" is never read, and
    `ReadArriveTime` and `ReadTimeFull` only show what the printed fields hold).
    The readers of "%r" and of the variable-width formats, and the date-time printer,
    are parameters of the model (`Parsers`). */
module Chrono {
  import opened Wrappers
  import opened Decimal

  // ----- dates -----

  /** A `NaiveDate`: a day of the proleptic Gregorian calendar. */
  datatype NaiveDate = NaiveDate(year: int, month: nat, day: nat)

  predicate IsLeapYear(year: int)
  {
    year % 4 == 0 && (year % 100 != 0 || year % 400 == 0)
  }

  function DaysInMonth(year: int, month: nat): (n: nat)
    requires 1 <= month <= 12
    ensures 28 <= n <= 31
    ensures n == 29 <==> month == 2 && IsLeapYear(year)
  {
    if month == 2 then (if IsLeapYear(year) then 29 else 28)
    else if month == 4 || month == 6 || month == 9 || month == 11 then 30
    else 31
  }

  /** A month of the year and a day of that month. */
  predicate ValidDate(d: NaiveDate)
  {
    1 <= d.month <= 12 && 1 <= d.day <= DaysInMonth(d.year, d.month)
  }

  /** `%Y`: four digits for the years 0 to 9999, otherwise a sign and at least four digits. */
  function FormatYear(year: int): (r: string)
    ensures |r| >= 4
    ensures 0 <= year <= 9999 ==> AllDigits(r) && |r| == 4 && DigitsValue(r) == year
    ensures !(0 <= year <= 9999) ==> r[0] == (if year < 0 then '-' else '+') && AllDigits(r[1..])
  {
    if 0 <= year <= 9999 then
      PadNatWidth(year, 4);
      PadNat(year, 4)
    else
      var digits := PadNat(if year < 0 then -year else year, 4);
      var r := (if year < 0 then "-" else "+") + digits;
      assert r[1..] == digits;
      r
  }

  /** `date.format("%m/%d/%Y")`. */
  function FormatMdy(d: NaiveDate): (r: string)
    ensures ValidDate(d) && 0 <= d.year <= 9999 ==> |r| == 10 && r[2] == '/' && r[5] == '/'
  {
    var r := PadNat(d.month, 2) + "/" + PadNat(d.day, 2) + "/" + FormatYear(d.year);
    if ValidDate(d) && 0 <= d.year <= 9999 then
      PadNatWidth(d.month, 2);
      PadNatWidth(d.day, 2);
      r
    else r
  }

  /** `NaiveDate::parse_from_str(s, "%m/%d/%Y")`, restricted to its fixed-width form:
      two digits, '/', two digits, '/', four digits, naming a real calendar day. */
  function ParseMdy(s: string): (r: Option<NaiveDate>)
    ensures r.Some? ==> |s| == 10 && ValidDate(r.value) && 0 <= r.value.year <= 9999
  {
    if |s| == 10 && s[2] == '/' && s[5] == '/'
       && AllDigits(s[..2]) && AllDigits(s[3..5]) && AllDigits(s[6..]) then
      var d := NaiveDate(DigitsValue(s[6..]), DigitsValue(s[..2]), DigitsValue(s[3..5]));
      if ValidDate(d) then
        DigitsValueBound(s[6..]);
        Some(d)
      else None
    else None
  }

  /** Every date of the years 0 to 9999 reads back from its "%m/%d/%Y" text. */
  lemma MdyRoundTrip(d: NaiveDate)
    requires ValidDate(d) && 0 <= d.year <= 9999
    ensures ParseMdy(FormatMdy(d)) == Some(d)
  {
    var mm, dd, yyyy := PadNat(d.month, 2), PadNat(d.day, 2), FormatYear(d.year);
    PadNatWidth(d.month, 2);
    PadNatWidth(d.day, 2);
    var s := FormatMdy(d);
    assert s == mm + "/" + dd + "/" + yyyy;
    assert s[..2] == mm && s[3..5] == dd && s[6..] == yyyy;
  }

  /** The text a date is read from is the text it prints as: the reader accepts one
      spelling per date. */
  lemma MdyCanonical(s: string)
    requires ParseMdy(s).Some?
    ensures FormatMdy(ParseMdy(s).value) == s
  {
    var d := ParseMdy(s).value;
    PadNatOfDigits(s[..2]);
    PadNatOfDigits(s[3..5]);
    PadNatOfDigits(s[6..]);
    assert FormatYear(d.year) == PadNat(d.year, 4);
    assert s == s[..2] + "/" + s[3..5] + "/" + s[6..];
  }

  // ----- times of day -----

  /** A `NaiveTime` to the second (chrono's fractions and leap seconds are not modelled). */
  datatype NaiveTime = NaiveTime(hour: nat, minute: nat, second: nat)

  predicate ValidTime(t: NaiveTime)
  {
    t.hour < 24 && t.minute < 60 && t.second < 60
  }

  /** `%I`: the hour on a 12-hour clock, 12 for midnight and noon. */
  function Hour12(hour: nat): (h: nat)
    ensures 1 <= h <= 12 && h % 12 == hour % 12
  {
    if hour % 12 == 0 then 12 else hour % 12
  }

  /** The inverse of (`%I`, `%p`): back to a 24-hour clock. */
  function Hour24(h12: nat, pm: bool): nat
  {
    h12 % 12 + (if pm then 12 else 0)
  }

  lemma Hour12RoundTrip(hour: nat)
    requires hour < 24
    ensures Hour24(Hour12(hour), hour >= 12) == hour
  {
  }

  /** `time.format("%r")`, i.e. "%I:%M:%S %p": eleven characters such as "01:05:00 PM". */
  function FormatTimeFull(t: NaiveTime): (r: string)
    ensures ValidTime(t) ==> |r| == 11 && r[2] == ':' && r[5] == ':' && r[8] == ' '
    ensures ValidTime(t) ==> AllDigits(r[..2]) && AllDigits(r[3..5]) && AllDigits(r[6..8])
    ensures ValidTime(t) ==> r[9..] == (if t.hour < 12 then "AM" else "PM")
  {
    var hh, mm, ss := PadNat(Hour12(t.hour), 2), PadNat(t.minute, 2), PadNat(t.second, 2);
    var r := hh + ":" + mm + ":" + ss + " " + (if t.hour < 12 then "AM" else "PM");
    if ValidTime(t) then
      PadNatWidth(Hour12(t.hour), 2);
      PadNatWidth(t.minute, 2);
      PadNatWidth(t.second, 2);
      ClockFields(hh, ":", mm, ":", ss + " " + (if t.hour < 12 then "AM" else "PM"));
      assert r == hh + ":" + mm + ":" + (ss + " " + (if t.hour < 12 then "AM" else "PM"));
      r
    else r
  }

  /** Reads the hour, minute and second back out of a "%I:%M:%S %p" text. */
  function ReadTimeFull(s: string): (t: NaiveTime)
    requires |s| == 11 && AllDigits(s[..2]) && AllDigits(s[3..5]) && AllDigits(s[6..8])
  {
    NaiveTime(Hour24(DigitsValue(s[..2]), s[9..] == "PM"), DigitsValue(s[3..5]), DigitsValue(s[6..8]))
  }

  /** The "%r" text holds the 12-hour clock hour, the minute, the second and AM/PM:
      reading its fields gives the time back. */
  lemma TimeFullRoundTrip(t: NaiveTime)
    requires ValidTime(t)
    ensures ReadTimeFull(FormatTimeFull(t)) == t
  {
    var s := FormatTimeFull(t);
    var hh, mm, ss := PadNat(Hour12(t.hour), 2), PadNat(t.minute, 2), PadNat(t.second, 2);
    PadNatWidth(Hour12(t.hour), 2);
    PadNatWidth(t.minute, 2);
    PadNatWidth(t.second, 2);
    var ampm := if t.hour < 12 then "AM" else "PM";
    assert s == hh + ":" + mm + ":" + (ss + " " + ampm);
    ClockFields(hh, ":", mm, ":", ss + " " + ampm);
    assert s[6..8] == ss;
    Hour12RoundTrip(t.hour);
  }

  /** Two times print the same "%r" text exactly when they are the same time. */
  lemma TimeFullInjective(t1: NaiveTime, t2: NaiveTime)
    requires ValidTime(t1) && ValidTime(t2)
    ensures FormatTimeFull(t1) == FormatTimeFull(t2) <==> t1 == t2
  {
    TimeFullRoundTrip(t1);
    TimeFullRoundTrip(t2);
  }

  /** `time.format("%I:%M+%P")`, the form the trip planner URL takes, such as "01:05+pm". */
  function FormatArriveTime(t: NaiveTime): (r: string)
    ensures ValidTime(t) ==> |r| == 8 && r[2] == ':' && r[5] == '+' && AllDigits(r[..2]) && AllDigits(r[3..5])
  {
    var hh, mm := PadNat(Hour12(t.hour), 2), PadNat(t.minute, 2);
    var r := hh + ":" + mm + "+" + (if t.hour < 12 then "am" else "pm");
    if ValidTime(t) then
      PadNatWidth(Hour12(t.hour), 2);
      PadNatWidth(t.minute, 2);
      ClockFields(hh, ":", mm, "+", if t.hour < 12 then "am" else "pm");
      r
    else r
  }

  /** Where the fields of "hh:mm+rest" sit. */
  lemma ClockFields(hh: string, sep1: string, mm: string, sep2: string, rest: string)
    requires |hh| == 2 && |sep1| == 1 && |mm| == 2 && |sep2| == 1
    ensures var r := hh + sep1 + mm + sep2 + rest;
      |r| == 6 + |rest| && r[..2] == hh && r[2] == sep1[0] && r[3..5] == mm && r[5] == sep2[0] && r[6..] == rest
  {
  }

  /** Reads the hour and minute back out of a "%I:%M+%P" text. */
  function ReadArriveTime(s: string): (hm: (nat, nat))
    requires |s| == 8 && AllDigits(s[..2]) && AllDigits(s[3..5])
  {
    (Hour24(DigitsValue(s[..2]), s[6..] == "pm"), DigitsValue(s[3..5]))
  }

  /** The URL time keeps the hour and the minute (the seconds are dropped). */
  lemma ArriveTimeRoundTrip(t: NaiveTime)
    requires ValidTime(t)
    ensures ReadArriveTime(FormatArriveTime(t)) == (t.hour, t.minute)
  {
    var s := FormatArriveTime(t);
    var hh, mm := PadNat(Hour12(t.hour), 2), PadNat(t.minute, 2);
    PadNatWidth(Hour12(t.hour), 2);
    PadNatWidth(t.minute, 2);
    assert s[..2] == hh && s[3..5] == mm;
    assert s[6..] == (if t.hour < 12 then "am" else "pm");
    Hour12RoundTrip(t.hour);
  }

  /** Two times print the same URL text exactly when they agree to the minute. */
  lemma ArriveTimeInjective(t1: NaiveTime, t2: NaiveTime)
    requires ValidTime(t1) && ValidTime(t2)
    ensures FormatArriveTime(t1) == FormatArriveTime(t2) <==> t1.hour == t2.hour && t1.minute == t2.minute
  {
    ArriveTimeRoundTrip(t1);
    ArriveTimeRoundTrip(t2);
  }

  /** The URL time holds no '&', so it is a single query value. */
  lemma ArriveTimeIsQuerySafe(t: NaiveTime)
    ensures '&' !in FormatArriveTime(t)
  {
    var hh, mm := PadNat(Hour12(t.hour), 2), PadNat(t.minute, 2);
    NumeralIsQuerySafe(hh);
    NumeralIsQuerySafe(mm);
    assert FormatArriveTime(t) == hh + ":" + mm + "+" + (if t.hour < 12 then "am" else "pm");
  }

  /** "%m/%d/%Y" holds no '&', so it is a single query value. */
  lemma MdyIsQuerySafe(d: NaiveDate)
    ensures '&' !in FormatMdy(d)
  {
    var mm, dd, yyyy := PadNat(d.month, 2), PadNat(d.day, 2), FormatYear(d.year);
    NumeralIsQuerySafe(mm);
    NumeralIsQuerySafe(dd);
    if 0 <= d.year <= 9999 {
      NumeralIsQuerySafe(yyyy);
    } else {
      NumeralIsQuerySafe(yyyy[1..]);
      assert yyyy == [yyyy[0]] + yyyy[1..];
    }
    assert FormatMdy(d) == mm + "/" + dd + "/" + yyyy;
  }

  // ----- date and time, offsets -----

  datatype NaiveDateTime = NaiveDateTime(date: NaiveDate, time: NaiveTime)

  /** A `FixedOffset`, by the seconds local time is ahead of UTC. */
  datatype FixedOffset = FixedOffset(localMinusUtc: int)

  /** `FixedOffset::west(secs)`: `secs` seconds behind UTC; chrono panics outside a day either way. */
  function West(secs: int): (o: FixedOffset)
    requires -86_400 < secs < 86_400
    ensures o.localMinusUtc == -secs
  {
    FixedOffset(-secs)
  }

  /** A `DateTime<FixedOffset>`: a local date and time and its offset. For a fixed
      offset, `from_local_datetime` has exactly one answer. */
  datatype OffsetDateTime = OffsetDateTime(local: NaiveDateTime, offset: FixedOffset)

  /** The chrono parsers and the one printer the model leaves abstract, each for the
      format string the client passes it. */
  datatype Parsers = Parsers(
    parseDateTime: string -> Result<NaiveDateTime>,    // "%a %b %d %Y %I:%M %p"
    formatDateTime: NaiveDateTime -> string,           // "%a %b %d %Y %I:%M %p"
    parseDateWeird: string -> Result<NaiveDate>,       // "%b %e, %Y"
    parseTimeFull: string -> Result<NaiveTime>,        // "%r"
    parseTimeFullWeird: string -> Result<NaiveTime>,   // "%H:%M:%S %p"
    parseTimeShort: string -> Result<NaiveTime>)       // "%l:%M %p"
}
