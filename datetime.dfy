/** Dates, times and time zones as the BART API writes them
    (src/client/constants/datetime.rs): a date-time such as
    "Mon Jan 06 2020 01:05 PM PST", dates as "01/06/2020" or "Jan 6, 2020",
    times as "01:05:00 PM PST" or "1:05 PM", and the two Pacific time zones. */
module DateTimes {
  import opened Wrappers
  import opened Decimal
  import opened SerdeHelpers
  import opened Chrono

  const DateLength := 10
  const DateWeirdMaxLength := 12
  const DateWeirdMinLength := 11
  const TimeLength := 11
  const DateTimeLength := 24
  const HourSeconds := 3600

  const TimeZoneError := "Does not match any timezone"
  const SpacesError := "String is not formatted correctly with spaces"
  const DateError := "Can't parse date"

  // ----- time zones -----

  datatype TimeZone = Pdt | Pst

  /** `Display`: the zone's abbreviation. */
  function TimeZoneToString(tz: TimeZone): (r: string)
    ensures |r| == 3 && ' ' !in r
  {
    match tz
    case Pdt => "PDT"
    case Pst => "PST"
  }

  /** `TimeZone::from_string`: exactly "PDT" or "PST". */
  function TimeZoneFromString(s: string): (r: Result<TimeZone>)
    ensures r.Ok? ==> TimeZoneToString(r.value) == s
    ensures r.Err? ==> r.error == TimeZoneError && forall tz :: TimeZoneToString(tz) != s
  {
    match s
    case "PDT" => Ok(Pdt)
    case "PST" => Ok(Pst)
    case _ => Err(TimeZoneError)
  }

  /** `to_number`: hours behind UTC. */
  function TimeZoneToNumber(tz: TimeZone): (n: u8)
    ensures n == if tz == Pdt then 7 else 8
  {
    match tz
    case Pdt => 7
    case Pst => 8
  }

  /** `TimeZone::from_number`: 7 or 8 hours behind UTC. */
  function TimeZoneFromNumber(n: u8): (r: Result<TimeZone>)
    ensures r.Ok? <==> n == 7 || n == 8
    ensures r.Ok? ==> TimeZoneToNumber(r.value) == n
    ensures r.Err? ==> r.error == TimeZoneError
  {
    match n
    case 7 => Ok(Pdt)
    case 8 => Ok(Pst)
    case _ => Err(TimeZoneError)
  }

  /** `to_fixed_offset`: `FixedOffset::west(hours * 3600)`. */
  function ToFixedOffset(tz: TimeZone): (o: FixedOffset)
    ensures o.localMinusUtc == -(TimeZoneToNumber(tz) as int) * HourSeconds
  {
    West(TimeZoneToNumber(tz) as int * HourSeconds)
  }

  function TimeZoneSerialize(tz: TimeZone): (v: Value)
    ensures v.Str? && v.s == TimeZoneToString(tz)
  {
    Str(TimeZoneToString(tz))
  }

  function TimeZoneDeserialize(v: Value): (r: Result<TimeZone>)
    ensures !v.Str? ==> r.Err?
    ensures v.Str? ==> r == TimeZoneFromString(v.s)
  {
    var s :- DeserializeString(v);
    TimeZoneFromString(s)
  }

  lemma TimeZoneRoundTrips(tz: TimeZone)
    ensures TimeZoneFromString(TimeZoneToString(tz)) == Ok(tz)
    ensures TimeZoneFromNumber(TimeZoneToNumber(tz)) == Ok(tz)
    ensures TimeZoneDeserialize(TimeZoneSerialize(tz)) == Ok(tz)
  {
  }

  /** The match is case-sensitive, and daylight time is an hour nearer UTC. */
  lemma TimeZoneExamples()
    ensures TimeZoneFromString("pst") == Err(TimeZoneError)
    ensures ToFixedOffset(Pdt).localMinusUtc == -25_200 && ToFixedOffset(Pst).localMinusUtc == -28_800
  {
  }

  // ----- splitting off the zone -----

  /** `s.rsplitn(2, c)` when it yields two parts: the text before the last `c` and the text after it. */
  function RSplitOnce(s: string, c: char): (r: Option<(string, string)>)
    ensures r.None? <==> c !in s
    ensures r.Some? ==> s == r.value.0 + [c] + r.value.1 && c !in r.value.1
  {
    if s == [] then None
    else
      var last := s[|s| - 1];
      assert s == s[..|s| - 1] + [last];
      if last == c then Some((s[..|s| - 1], ""))
      else
        match RSplitOnce(s[..|s| - 1], c)
        case None => None
        case Some((before, after)) => Some((before, after + [last]))
  }

  /** The split is at the last `c`: it is the only split whose right part has no `c`. */
  lemma {:induction false} RSplitOnceUnique(before: string, c: char, after: string)
    requires c !in after
    ensures RSplitOnce(before + [c] + after, c) == Some((before, after))
    decreases |after|
  {
    var s := before + [c] + after;
    if after == [] {
      assert s[..|s| - 1] == before;
    } else {
      var after' := after[..|after| - 1];
      assert s[..|s| - 1] == before + [c] + after';
      assert c !in after' by { assert forall i :: 0 <= i < |after'| ==> after'[i] == after[i]; }
      RSplitOnceUnique(before, c, after');
      assert after' + [after[|after| - 1]] == after;
    }
  }

  /** The zone named after the last space of `s`, if there is a space, with the text before it. */
  function ZoneToken(s: string): (r: Option<(string, Result<TimeZone>)>)
    ensures r.None? <==> ' ' !in s
    ensures r.Some? ==> |r.value.0| < |s| && s[..|r.value.0|] == r.value.0
  {
    match RSplitOnce(s, ' ')
    case None => None
    case Some((before, after)) => Some((before, TimeZoneFromString(after)))
  }

  /** Where the source slices the text before the zone to `width` characters, that text
      is at least that long (a shorter one makes the slice panic). */
  predicate SliceInBounds(s: string, width: nat)
  {
    match ZoneToken(s)
    case None => true
    case Some((before, zone)) => zone.Err? || |before| >= width
  }

  // ----- DateTime -----

  datatype DateTime = DateTime(inner: OffsetDateTime, timeZone: TimeZone)

  /** The invariant every parsed `DateTime` keeps: its offset is its zone's. */
  predicate ConsistentOffset(dt: DateTime)
  {
    dt.inner.offset == ToFixedOffset(dt.timeZone)
  }

  /** `DateTime::from_string`: the zone after the last space, and the first 24 characters
      read with the date-time format. */
  function DateTimeFromString(p: Parsers, s: string): (r: Result<DateTime>)
    requires SliceInBounds(s, DateTimeLength)
    ensures ' ' !in s ==> r == Err(SpacesError)
    ensures ZoneToken(s).Some? && ZoneToken(s).value.1.Err? ==> r == Err(TimeZoneError)
    ensures ZoneToken(s).Some? && ZoneToken(s).value.1.Ok? ==> |s| > DateTimeLength
    ensures r.Ok? <==> ZoneToken(s).Some? && ZoneToken(s).value.1.Ok? && p.parseDateTime(s[..DateTimeLength]).Ok?
    ensures ZoneToken(s).Some? && ZoneToken(s).value.1.Ok? && p.parseDateTime(s[..DateTimeLength]).Err?
      ==> r == Err(p.parseDateTime(s[..DateTimeLength]).error)
    ensures r.Ok? ==> ConsistentOffset(r.value) && r.value.timeZone == ZoneToken(s).value.1.value
    ensures r.Ok? ==> p.parseDateTime(s[..DateTimeLength]) == Ok(r.value.inner.local)
    ensures r.Ok? ==> exists before :: s == before + " " + TimeZoneToString(r.value.timeZone)
  {
    match RSplitOnce(s, ' ')
    case None => Err(SpacesError)
    case Some((before, after)) =>
      var tz :- TimeZoneFromString(after);
      assert s[..DateTimeLength] == before[..DateTimeLength];
      var local :- p.parseDateTime(before[..DateTimeLength]);
      Ok(DateTime(OffsetDateTime(local, ToFixedOffset(tz)), tz))
  }

  /** A text whose last word is not a zone is rejected with the zone error. */
  lemma DateTimeBadZone(p: Parsers, before: string, word: string)
    requires ' ' !in word && word != "PDT" && word != "PST"
    ensures SliceInBounds(before + " " + word, DateTimeLength)
    ensures DateTimeFromString(p, before + " " + word) == Err(TimeZoneError)
  {
    RSplitOnceUnique(before, ' ', word);
  }

  /** `Display`: the date-time format, a space, the zone. */
  function DateTimeToString(p: Parsers, dt: DateTime): (r: string)
    ensures |r| >= 4
    ensures r[|r| - 4..] == " " + TimeZoneToString(dt.timeZone)
  {
    p.formatDateTime(dt.inner.local) + " " + TimeZoneToString(dt.timeZone)
  }

  function DateTimeSerialize(p: Parsers, dt: DateTime): (v: Value)
    ensures v.Str? && v.s == DateTimeToString(p, dt)
  {
    Str(DateTimeToString(p, dt))
  }

  function DateTimeDeserialize(p: Parsers, v: Value): (r: Result<DateTime>)
    requires v.Str? ==> SliceInBounds(v.s, DateTimeLength)
    ensures !v.Str? ==> r.Err?
    ensures v.Str? ==> r == DateTimeFromString(p, v.s)
  {
    var s :- DeserializeString(v);
    DateTimeFromString(p, s)
  }

  /** Printing then reading a date-time gives it back, provided chrono prints its local
      time in the 24 characters the reader takes and reads that text back. */
  lemma DateTimeRoundTrip(p: Parsers, dt: DateTime)
    requires ConsistentOffset(dt)
    requires |p.formatDateTime(dt.inner.local)| == DateTimeLength
    requires p.parseDateTime(p.formatDateTime(dt.inner.local)) == Ok(dt.inner.local)
    ensures SliceInBounds(DateTimeToString(p, dt), DateTimeLength)
    ensures DateTimeFromString(p, DateTimeToString(p, dt)) == Ok(dt)
    ensures DateTimeDeserialize(p, DateTimeSerialize(p, dt)) == Ok(dt)
  {
    var text := p.formatDateTime(dt.inner.local);
    RSplitOnceUnique(text, ' ', TimeZoneToString(dt.timeZone));
    assert text[..DateTimeLength] == text;
  }

  // ----- Date -----

  datatype Date = Date(naive: NaiveDate)

  /** `Date::try_from`: an 11- or 12-character text is first tried as "Jan 6, 2020"; then
      the first ten characters of a text of ten or more as "01/06/2020". */
  function DateTryFrom(p: Parsers, s: string): (r: Result<Date>)
    ensures r.Err? ==> r.error == DateError
    ensures |s| < DateLength ==> r == Err(DateError)
    ensures (|s| == DateWeirdMinLength || |s| == DateWeirdMaxLength) && p.parseDateWeird(s).Ok?
      ==> r == Ok(Date(p.parseDateWeird(s).value))
    ensures !((|s| == DateWeirdMinLength || |s| == DateWeirdMaxLength) && p.parseDateWeird(s).Ok?) && r.Ok?
      ==> ParseMdy(s[..DateLength]) == Some(r.value.naive)
    ensures !((|s| == DateWeirdMinLength || |s| == DateWeirdMaxLength) && p.parseDateWeird(s).Ok?)
      && |s| >= DateLength && ParseMdy(s[..DateLength]).Some?
      ==> r == Ok(Date(ParseMdy(s[..DateLength]).value))
  {
    var n := |s|;
    if (n == DateWeirdMaxLength || n == DateWeirdMinLength) && p.parseDateWeird(s).Ok? then
      Ok(Date(p.parseDateWeird(s).value))
    else if n >= DateLength && ParseMdy(s[..DateLength]).Some? then
      Ok(Date(ParseMdy(s[..DateLength]).value))
    else Err(DateError)
  }

  /** Serialization: "%m/%d/%Y". */
  function DateSerialize(d: Date): (v: Value)
    ensures v.Str? && v.s == FormatMdy(d.naive)
  {
    Str(FormatMdy(d.naive))
  }

  function DateDeserialize(p: Parsers, v: Value): (r: Result<Date>)
    ensures !v.Str? ==> r.Err?
    ensures v.Str? ==> r == DateTryFrom(p, v.s)
  {
    var s :- DeserializeString(v);
    DateTryFrom(p, s)
  }

  /** A serialized date of the years 0 to 9999 deserializes to itself, whatever the
      month-name parser does (ten characters never reach it). */
  lemma DateRoundTrip(p: Parsers, d: Date)
    requires ValidDate(d.naive) && 0 <= d.naive.year <= 9999
    ensures DateTryFrom(p, FormatMdy(d.naive)) == Ok(d)
    ensures DateDeserialize(p, DateSerialize(d)) == Ok(d)
  {
    MdyRoundTrip(d.naive);
    var s := FormatMdy(d.naive);
    assert s[..DateLength] == s;
  }

  /** Beyond twelve characters only the first ten count: "01/06/2020 extra" is a date. */
  lemma DateIgnoresTail(p: Parsers, s: string)
    requires |s| > DateWeirdMaxLength
    ensures DateTryFrom(p, s) == DateTryFrom(p, s[..DateLength])
  {
    assert s[..DateLength][..DateLength] == s[..DateLength];
  }

  /** An 11-character text the month-name reader rejects falls through to its first ten
      characters: "01/06/2020Z" is 6 January 2020. */
  lemma DateShortTailExample(p: Parsers)
    requires p.parseDateWeird("01/06/2020Z").Err?
    ensures DateTryFrom(p, "01/06/2020Z") == Ok(Date(NaiveDate(2020, 1, 6)))
  {
    var s := "01/06/2020Z";
    var mdy := s[..DateLength];
    assert mdy == "01/06/2020";
    assert mdy[..2] == "01" && mdy[3..5] == "06" && mdy[6..] == "2020";
    assert "01"[..1] == "0" && "06"[..1] == "0";
    assert "2020"[..3] == "202" && "202"[..2] == "20" && "20"[..1] == "2";
    assert DigitsValue("01") == 1 && DigitsValue("06") == 6 && DigitsValue("2020") == 2020;
    assert ValidDate(NaiveDate(2020, 1, 6));
    assert ParseMdy(mdy) == Some(NaiveDate(2020, 1, 6));
  }

  // ----- Time -----

  datatype Time = Time(time: NaiveTime, timeZone: Option<TimeZone>)

  /** The full-time reader both constructors share: "%H:%M:%S %p", else "%r". */
  function ParseFullTime(p: Parsers, s: string): (r: Result<NaiveTime>)
    ensures p.parseTimeFullWeird(s).Ok? ==> r == p.parseTimeFullWeird(s)
    ensures p.parseTimeFullWeird(s).Err? ==> r == p.parseTimeFull(s)
  {
    var weird := p.parseTimeFullWeird(s);
    if weird.Ok? then weird else p.parseTimeFull(s)
  }

  /** `Time::from_full_string_with_tz`: the zone after the last space, and the first
      eleven characters read as a full time. */
  function FromFullStringWithTz(p: Parsers, s: string): (r: Result<Time>)
    requires SliceInBounds(s, TimeLength)
    ensures ' ' !in s ==> r == Err(SpacesError)
    ensures ZoneToken(s).Some? && ZoneToken(s).value.1.Err? ==> r == Err(TimeZoneError)
    ensures ZoneToken(s).Some? && ZoneToken(s).value.1.Ok? ==> |s| > TimeLength
    ensures r.Ok? <==> ZoneToken(s).Some? && ZoneToken(s).value.1.Ok? && ParseFullTime(p, s[..TimeLength]).Ok?
    ensures ZoneToken(s).Some? && ZoneToken(s).value.1.Ok? && ParseFullTime(p, s[..TimeLength]).Err?
      ==> r == Err(ParseFullTime(p, s[..TimeLength]).error)
    ensures r.Ok? ==> r.value.timeZone == Some(ZoneToken(s).value.1.value)
    ensures r.Ok? ==> exists before :: s == before + " " + TimeZoneToString(r.value.timeZone.value)
    ensures r.Ok? ==> ParseFullTime(p, s[..TimeLength]) == Ok(r.value.time)
  {
    match RSplitOnce(s, ' ')
    case None => Err(SpacesError)
    case Some((before, after)) =>
      var tz :- TimeZoneFromString(after);
      assert s[..TimeLength] == before[..TimeLength];
      var time :- ParseFullTime(p, before[..TimeLength]);
      Ok(Time(time, Some(tz)))
  }

  /** `Time::from_full_string_without_tz`: the first eleven characters read as a full time. */
  function FromFullStringWithoutTz(p: Parsers, s: string): (r: Result<Time>)
    requires |s| >= TimeLength
    ensures r.Ok? ==> r.value.timeZone.None?
    ensures r.Ok? <==> ParseFullTime(p, s[..TimeLength]).Ok?
    ensures r.Ok? ==> r.value.time == ParseFullTime(p, s[..TimeLength]).value
  {
    var time :- ParseFullTime(p, s[..TimeLength]);
    Ok(Time(time, None))
  }

  /** `Time::from_short_string_without_tz`: the whole text read as "%l:%M %p". */
  function FromShortStringWithoutTz(p: Parsers, s: string): (r: Result<Time>)
    ensures r.Ok? ==> r.value.timeZone.None?
    ensures r.Ok? <==> p.parseTimeShort(s).Ok?
    ensures r.Ok? ==> r.value.time == p.parseTimeShort(s).value
  {
    var time :- p.parseTimeShort(s);
    Ok(Time(time, None))
  }

  /** `Display`: "%r", then a space and the zone when there is one. */
  function TimeToString(t: Time): (r: string)
    ensures ValidTime(t.time) && t.timeZone.None? ==> |r| == TimeLength
    ensures ValidTime(t.time) && t.timeZone.Some? ==> |r| == TimeLength + 4
    ensures ValidTime(t.time) ==> r[..TimeLength] == FormatTimeFull(t.time)
    ensures t.timeZone.Some? ==> |r| >= 4 && r[|r| - 4..] == " " + TimeZoneToString(t.timeZone.value)
  {
    match t.timeZone
    case Some(tz) => FormatTimeFull(t.time) + " " + TimeZoneToString(tz)
    case None => FormatTimeFull(t.time)
  }

  function TimeSerialize(t: Time): (v: Value)
    ensures v.Str? && v.s == TimeToString(t)
  {
    Str(TimeToString(t))
  }

  /** `deserialize_with_tz`. */
  function DeserializeWithTz(p: Parsers, v: Value): (r: Result<Time>)
    requires v.Str? ==> SliceInBounds(v.s, TimeLength)
    ensures !v.Str? ==> r.Err?
    ensures v.Str? ==> r == FromFullStringWithTz(p, v.s)
  {
    var s :- DeserializeString(v);
    FromFullStringWithTz(p, s)
  }

  /** `deserialize_without_tz`: the short form, else the first eleven characters as a full time. */
  function DeserializeWithoutTz(p: Parsers, v: Value): (r: Result<Time>)
    requires v.Str? && p.parseTimeShort(v.s).Err? ==> |v.s| >= TimeLength
    ensures !v.Str? ==> r.Err?
    ensures r.Ok? ==> r.value.timeZone.None?
    ensures v.Str? && p.parseTimeShort(v.s).Ok? ==> r == FromShortStringWithoutTz(p, v.s)
    ensures v.Str? && p.parseTimeShort(v.s).Err? ==> r == FromFullStringWithoutTz(p, v.s)
  {
    var s :- DeserializeString(v);
    var short := FromShortStringWithoutTz(p, s);
    if short.Ok? then short else FromFullStringWithoutTz(p, s)
  }

  /** A time with a zone survives serialization, provided chrono's full-time reader
      reads back what "%r" prints. */
  lemma TimeWithTzRoundTrip(p: Parsers, t: NaiveTime, tz: TimeZone)
    requires ValidTime(t)
    requires ParseFullTime(p, FormatTimeFull(t)) == Ok(t)
    ensures SliceInBounds(TimeToString(Time(t, Some(tz))), TimeLength)
    ensures DeserializeWithTz(p, TimeSerialize(Time(t, Some(tz)))) == Ok(Time(t, Some(tz)))
  {
    var text := FormatTimeFull(t);
    RSplitOnceUnique(text, ' ', TimeZoneToString(tz));
    assert text[..TimeLength] == text;
  }

  /** A time without a zone survives serialization when the short reader rejects the full
      form and the full reader reads it back. */
  lemma TimeWithoutTzRoundTrip(p: Parsers, t: NaiveTime)
    requires ValidTime(t)
    requires p.parseTimeShort(FormatTimeFull(t)).Err?
    requires ParseFullTime(p, FormatTimeFull(t)) == Ok(t)
    ensures DeserializeWithoutTz(p, TimeSerialize(Time(t, None))) == Ok(Time(t, None))
  {
    var text := FormatTimeFull(t);
    assert text[..TimeLength] == text;
  }
}
