# A verified model of the sfbart BART API client

sfbart is a Rust client for the BART (Bay Area Rapid Transit) public API. This
project models in Dafny the part of the client that has logic of its own:

- the code tables of the network's constants: stations, line colours, directions,
  fare types, advisory types and elevator advisory types. Each table has printers,
  parsers, a `TryFrom<String>` fallback and serde (de)serialisation;
- the minutes-until-departure codec ("Leaving" or an `i32`);
- the time zone, date, time and date-time readers and writers built on `chrono`;
- the custom serde field parsers;
- the URL builders of the `arrive`, `etd`, `routeinfo`, `routes` and `stnaccess`
  requests.

Every piece of this is pure. It is modelled as datatypes, functions and lemmas, one
module per source file:

| module | file |
|---|---|
| `Stations` | `station.dfy` |
| `Colors` | `color.dfy` |
| `Directions` | `direction.dfy` |
| `FareTypes` | `fare_type.dfy` |
| `BsaTypes` | `bsa_type.dfy` |
| `ElevTypes` | `elev_type.dfy` |
| `Minutes` | `minutes.dfy` |
| `DateTimes` | `datetime.dfy` |
| `SerdeHelpers` | `serde_helpers.dfy` |
| `Arrive` | `arrive.dfy` |
| `Etd` | `etd.dfy` |
| `RouteInfo` | `routeinfo.dfy` |
| `Routes` | `routes.dfy` |
| `StnAccess` | `stnaccess.dfy` |

Supporting modules:

- `Wrappers`: `Result` and `Option`.
- `Ascii`: case mapping.
- `Decimal`: Rust's `from_str` and `Display` for integers.
- `Chrono`: the parts of `chrono` the client relies on.
- `Lexicographic`: string order, used to show that the tables have no duplicates.
- `Query`: a reader for URL query strings.

Errors are `Result.Err` values that carry the source's own messages.

The station look-ups are Rust `match`es over 48 string literals. They are modelled as
first-match searches (`Stations.Find`) over the arms, in the source's order.

The URL builders are specified against an independent reader, `Query.QueryParams`. It
takes the text after the first '?', cuts it at each '&', and cuts each piece at its
first '='. Each builder is then proved to produce the exact parameter list the service
reads: names, values and order.

The chrono functions that are not modelled exactly are fields of `Chrono.Parsers`, a
parameter of the functions that call them. These are the readers of `%b %e, %Y`,
`%r`, `%H:%M:%S %p` and `%l:%M %p`, and both the reader and the printer of the
date-time format. `%m/%d/%Y` is printed and read exactly. `%r` and `%I:%M+%P` are
printed exactly; the client never reads `%I:%M+%P`.

## Model

| member | source | states |
|---|---|---|
| Stations.ToAbbr | src/client/constants/station.rs:264-315 | every abbreviation is four characters, each a lower-case letter or a digit |
| Stations.ToFull | src/client/constants/station.rs:317-368 | every full name is at least five characters long |
| Stations.Find | src/client/constants/station.rs:156-208 | the result is the first arm from the start position whose code is the key; none means no arm has it |
| Stations.FindNoneNoStation | src/client/constants/station.rs:206 | a search that finds nothing means no station has that code |
| Stations.FromAbbr | src/client/constants/station.rs:156-208 | a success names a station whose abbreviation is the lower-cased input; an error carries "Does not match any station" and no station has that abbreviation |
| Stations.FromFull | src/client/constants/station.rs:210-262 | a success names a station whose full name is exactly the input; an error carries the station error and no station has that name |
| Stations.AbbrIncreasing | src/client/constants/station.rs:5-52 | the 48 abbreviations, listed in a fixed order, are strictly increasing |
| Stations.FullIncreasing | src/client/constants/station.rs:54-101 | the 48 full names, listed in a fixed order, are strictly increasing |
| Stations.ToAbbrInjective | src/client/constants/station.rs:5-52 | distinct stations have distinct abbreviations |
| Stations.ToFullInjective | src/client/constants/station.rs:54-101 | distinct stations have distinct full names |
| Stations.AbbrRoundTrip | src/client/constants/station.rs:156-208 | `from_abbr(to_abbr(s)) == Ok(s)` for every station |
| Stations.FullRoundTrip | src/client/constants/station.rs:210-262 | `from_full(to_full(s)) == Ok(s)` for every station |
| Stations.AbbrHasNoUpper | src/client/constants/station.rs:5-52 | lower-casing leaves every abbreviation unchanged |
| Stations.FromAbbrAnyCase | src/client/constants/station.rs:157 | any string whose lower-casing is a station's abbreviation reads as that station |
| Stations.FromAbbrIgnoresCase | src/client/constants/station.rs:157 | upper- or lower-casing the input does not change the result of `from_abbr` |
| Stations.UpperAbbrRoundTrip | src/client/constants/station.rs:157 | the upper-case abbreviation of every station reads back as that station |
| Stations.FromAbbrExamples | src/client/constants/station.rs:157 | "ANTC" and "AnTc" both read as Antioch |
| Stations.FromFullExample | src/client/constants/station.rs:210-262 | "Antioch" reads as Antioch |
| Stations.LongIsNoAbbr | src/client/constants/station.rs:156-208 | no string longer than four characters is an abbreviation |
| Stations.AbbrAndFullDisjoint | src/client/constants/station.rs:5-101 | no string is both an abbreviation (in any case) and a full name |
| Stations.TryFrom | src/client/constants/station.rs:374-386 | a success names a station whose abbreviation (in any case) or exact full name is the input; an error carries the station error and no station matches either way |
| Stations.TryFromUnique | src/client/constants/station.rs:374-386 | whichever station's abbreviation or full name the input is, `try_from` returns that station |
| Stations.TryFromAbbr | src/client/constants/station.rs:374-386 | an abbreviation in any case is accepted by the first look-up |
| Stations.TryFromFull | src/client/constants/station.rs:374-386 | a full name fails the first look-up and is accepted by the second |
| Stations.TryFromRoundTrip | src/client/constants/station.rs:374-386 | `try_from` accepts every abbreviation and every full name |
| Stations.Serialize | src/client/constants/station.rs:389-395 | serialisation writes the abbreviation |
| Stations.Deserialize | src/client/constants/station.rs:397-404 | a string is read with `try_from`; any success came from a string naming the station |
| Stations.SerdeRoundTrip | src/client/constants/station.rs:389-404 | deserialise(serialise(s)) == s for every station |
| Stations.AbbrIsQuerySafe | src/client/constants/station.rs:5-52 | no abbreviation contains '&', '=' or '?' |
| Colors.ToCode | src/client/constants/color.rs:65-76 | every hex code is '#' and six more characters |
| Colors.ToFull | src/client/constants/color.rs:78-89 | every name is non-empty and starts with a capital |
| Colors.FromCode | src/client/constants/color.rs:37-49 | a success names the colour with exactly that code; an error carries "Does not match any color" and no colour has that code |
| Colors.FromFull | src/client/constants/color.rs:51-63 | a success names the colour with that name, or Purple for the empty name; an error means a non-empty string that names no colour |
| Colors.TryFrom | src/client/constants/color.rs:95-107 | code first, then name; an error carries the name look-up's message and means no code and no name matched |
| Colors.Serialize | src/client/constants/color.rs:110-117 | serialisation writes the hex code |
| Colors.Deserialize | src/client/constants/color.rs:119-127 | only a string is accepted, and it is read with `try_from` |
| Colors.CodeRoundTrip | src/client/constants/color.rs:37-49 | `from_code(to_code(c)) == Ok(c)` for every colour |
| Colors.FullRoundTrip | src/client/constants/color.rs:51-63 | `from_full(to_full(c)) == Ok(c)` for every colour |
| Colors.EmptyNameIsPurple | src/client/constants/color.rs:58 | "" and "PURPLE" both read as Purple, also through `try_from` |
| Colors.Injective | src/client/constants/color.rs:5-22 | distinct colours have distinct codes and distinct names |
| Colors.TryFromRoundTrip | src/client/constants/color.rs:95-107 | `try_from` accepts every code and every name |
| Colors.SerdeRoundTrip | src/client/constants/color.rs:110-127 | deserialise(serialise(c)) == c for every colour |
| Directions.ToCode | src/client/constants/direction.rs:34-39 | every code is one lower-case letter |
| Directions.ToFull | src/client/constants/direction.rs:41-46 | every full name is five characters long |
| Directions.FromCode | src/client/constants/direction.rs:18-24 | a success names the direction with exactly that code; an error carries "Does not match any direction" and no direction has that code |
| Directions.FromFull | src/client/constants/direction.rs:26-32 | the same for full names |
| Directions.TryFrom | src/client/constants/direction.rs:52-64 | code first, then full name; an error means neither matched |
| Directions.Serialize | src/client/constants/direction.rs:67-73 | serialisation writes the code |
| Directions.Deserialize | src/client/constants/direction.rs:75-82 | only a string is accepted, and it is read with `try_from` |
| Directions.RoundTrips | src/client/constants/direction.rs:18-82 | both printers round-trip through their parsers, through `try_from`, and through serde |
| Directions.Injective | src/client/constants/direction.rs:5-9 | distinct directions have distinct codes and distinct full names |
| Directions.CaseMatters | src/client/constants/direction.rs:18-32 | "N", "north" and "NORTH" are rejected |
| Directions.CodeIsQuerySafe | src/client/constants/direction.rs:5-6 | no code contains '&', '=' or '?' |
| FareTypes.ToCode | src/client/constants/fare_type.rs:44-51 | every code is non-empty lower-case letters |
| FareTypes.ToFull | src/client/constants/fare_type.rs:53-60 | every display name is non-empty and starts with a capital |
| FareTypes.FromCode | src/client/constants/fare_type.rs:24-32 | a success names the fare type with exactly that code; an error carries "Does not match any fare type" and no fare type has that code |
| FareTypes.FromFull | src/client/constants/fare_type.rs:34-42 | a success names the fare type with exactly that name; an error carries "Does not match fare type" and no fare type has that name |
| FareTypes.TryFrom | src/client/constants/fare_type.rs:66-78 | code first, then name; an error carries the name look-up's message and means neither matched |
| FareTypes.Serialize | src/client/constants/fare_type.rs:81-88 | serialisation writes the code |
| FareTypes.Deserialize | src/client/constants/fare_type.rs:90-98 | only a string is accepted, and it is read with `try_from` |
| FareTypes.RoundTrips | src/client/constants/fare_type.rs:24-98 | both printers round-trip through their parsers, through `try_from`, and through serde |
| FareTypes.Injective | src/client/constants/fare_type.rs:5-13 | distinct fare types have distinct codes and distinct display names |
| FareTypes.CaseMatters | src/client/constants/fare_type.rs:24-42 | "Clipper" is no code and "clipper" is no name; "CLIPPER" fails with the name error |
| BsaTypes.ToCode | src/client/apis/advisories/bsa/type.rs:23-28 | every code is non-empty capitals |
| BsaTypes.FromCode | src/client/apis/advisories/bsa/type.rs:15-21 | a success names the type with exactly that code; an error carries "Does not match any BSA type" and no type has that code; `try_from` is this function |
| BsaTypes.Serialize | src/client/apis/advisories/bsa/type.rs:39-46 | serialisation writes the code |
| BsaTypes.Deserialize | src/client/apis/advisories/bsa/type.rs:48-56 | only a string is accepted, and it is read with `from_code` |
| BsaTypes.RoundTrips | src/client/apis/advisories/bsa/type.rs:15-56 | `from_code(to_code(t)) == Ok(t)` and the serde round trip, for both types |
| BsaTypes.CaseMatters | src/client/apis/advisories/bsa/type.rs:16-20 | "delay" is rejected |
| ElevTypes.ToCode | src/client/apis/advisories/elev/type.rs:20-24 | the code is non-empty |
| ElevTypes.FromCode | src/client/apis/advisories/elev/type.rs:13-18 | succeeds exactly on the code "ELEVATOR"; an error carries "Does not match any elevator type" |
| ElevTypes.Serialize | src/client/apis/advisories/elev/type.rs:35-42 | serialisation writes the code |
| ElevTypes.Deserialize | src/client/apis/advisories/elev/type.rs:44-52 | only a string is accepted, and it is read with `from_code` |
| ElevTypes.RoundTrips | src/client/apis/advisories/elev/type.rs:13-52 | `from_code(to_code(Elevator)) == Ok(Elevator)` and the serde round trip |
| ElevTypes.CaseMatters | src/client/apis/advisories/elev/type.rs:16 | "elevator" is rejected |
| Minutes.FromNumber | src/client/apis/real_time_estimates/etd/minutes.rs:28-34 | the result is Leaving exactly when the number is at most 0; otherwise it keeps the number |
| Minutes.ToNumber | src/client/apis/real_time_estimates/etd/minutes.rs:36-41 | Leaving counts as 0; a number of minutes is itself |
| Minutes.FromString | src/client/apis/real_time_estimates/etd/minutes.rs:15-26 | succeeds exactly on "Leaving" or an i32 numeral; "Leaving" gives Leaving, a numeral gives `from_number` of its value; an error carries the source's message |
| Minutes.ToString | src/client/apis/real_time_estimates/etd/minutes.rs:44-51 | Leaving prints "Leaving"; a count prints as a signed decimal literal of its value |
| Minutes.TryFrom | src/client/apis/real_time_estimates/etd/minutes.rs:53-59 | `try_from` is `from_string` |
| Minutes.Serialize | src/client/apis/real_time_estimates/etd/minutes.rs:61-68 | serialisation writes the `Display` text |
| Minutes.Deserialize | src/client/apis/real_time_estimates/etd/minutes.rs:70-78 | only a string is accepted, and it is read with `from_string` |
| Minutes.NumberRoundTrip | src/client/apis/real_time_estimates/etd/minutes.rs:28-41 | `to_number(from_number(n))` is n when n > 0 and 0 otherwise |
| Minutes.FromNumberOfToNumber | src/client/apis/real_time_estimates/etd/minutes.rs:28-41 | `from_number(to_number(m)) == m` exactly when m is Leaving or a positive count |
| Minutes.StringRoundTrip | src/client/apis/real_time_estimates/etd/minutes.rs:15-51 | `from_string(to_string(m))` is m normalised by `from_number`, so it is m for every normalised value |
| Minutes.SerdeRoundTrip | src/client/apis/real_time_estimates/etd/minutes.rs:61-78 | deserialise(serialise(m)) is m normalised by `from_number` |
| Minutes.Examples | src/client/apis/real_time_estimates/etd/minutes.rs:15-26 | "Leaving", "0" and "-4" give Leaving, "12" gives 12 minutes, and "leaving" and "" are errors |
| Decimal.ParseIntCorrect | src/client/apis/real_time_estimates/etd/minutes.rs:20 | Rust's radix-10 `from_str` succeeds exactly on an optionally signed digit string whose value is in range, and returns that value |
| Decimal.ParseI32 | src/client/apis/real_time_estimates/etd/minutes.rs:20 | `i32::from_str` succeeds exactly on a literal with a value in the i32 range, and returns that value |
| Decimal.ParseU8 | src/client/serde_helpers/mod.rs:19 | `u8::from_str` succeeds exactly on an unsigned literal below 256, and returns that value |
| Decimal.IntToString | src/client/apis/real_time_estimates/etd/minutes.rs:48 | `Display` of an integer is a literal of that value, with '-' exactly for negatives |
| Decimal.ParseI32OfToString | src/client/apis/real_time_estimates/etd/minutes.rs:20-48 | reading a printed i32 gives it back |
| Decimal.NatToString | src/client/apis/schedule_information/arrive.rs:190-199 | `Display` of a natural number is a non-empty numeral of that value without leading zeros |
| Decimal.ParseU8OfToString | src/client/serde_helpers/mod.rs:19 | reading a printed u8 gives it back |
| Decimal.PadNat | src/client/apis/schedule_information/arrive.rs:187 | a zero-padded numeral has the number's value and the padded width |
| Decimal.NumeralIsQuerySafe | src/client/apis/route_information/routeinfo.rs:67-79 | a numeral contains no '&', '=' or '?' |
| SerdeHelpers.DeserializeString | src/client/serde_helpers/mod.rs:10 | only a string value deserialises as a string, and to its text |
| SerdeHelpers.FromStr | src/client/serde_helpers/mod.rs:4-12 | succeeds exactly when the value is a string that the type's parser accepts, and returns the parse |
| SerdeHelpers.BoolFromNumberStr | src/client/serde_helpers/mod.rs:14-21 | succeeds exactly on an unsigned u8 literal, and is true exactly when its value is not 0 |
| SerdeHelpers.BoolFromNumberStrExamples | src/client/serde_helpers/mod.rs:18-20 | "0" is false, "1" and "+7" are true, "" is the empty-string error, and "-0" is an error |
| SerdeHelpers.DeserializeOption | src/client/serde_helpers/mod.rs:23-32 | never fails; Some of the inner result exactly when the inner deserialiser succeeds |
| SerdeHelpers.ExtractCdataSection | src/client/serde_helpers/mod.rs:34-44 | succeeds exactly on an object with a string under "#cdata-section" or on an array of exactly one string, and returns that string |
| Chrono.DaysInMonth | src/client/constants/datetime.rs:110 | every month has 28 to 31 days, and 29 only in February of a leap year |
| Chrono.FormatYear | src/client/apis/schedule_information/arrive.rs:187 | `%Y` prints years 0 to 9999 as four digits of their value, and other years with a sign |
| Chrono.FormatMdy | src/client/apis/schedule_information/arrive.rs:187 | `%m/%d/%Y` of a valid date in years 0 to 9999 is ten characters with '/' at positions 2 and 5 |
| Chrono.ParseMdy | src/client/constants/datetime.rs:110 | a date read as `%m/%d/%Y` comes from a ten-character text and is a valid calendar date |
| Chrono.MdyRoundTrip | src/client/constants/datetime.rs:110-125 | every valid date in years 0 to 9999 reads back from its `%m/%d/%Y` text |
| Chrono.MdyCanonical | src/client/constants/datetime.rs:110-125 | any text the reader accepts is the printed form of the date it reads |
| Chrono.MdyIsQuerySafe | src/client/apis/schedule_information/arrive.rs:187 | `%m/%d/%Y` text contains no '&' |
| Chrono.Hour12 | src/client/apis/schedule_information/arrive.rs:183 | `%I` is 1 to 12 and agrees with the hour modulo 12 |
| Chrono.Hour12RoundTrip | src/client/apis/schedule_information/arrive.rs:183 | `%I` together with am/pm gives back the 24-hour hour |
| Chrono.FormatTimeFull | src/client/constants/datetime.rs:198 | `%r` of a valid time is eleven characters: two digits, ':', two digits, ':', two digits, a space, and "AM" before noon, "PM" from noon |
| Chrono.TimeFullRoundTrip | src/client/constants/datetime.rs:198 | the digit fields of the `%r` text are the 12-hour clock hour, the minute and the second, and with AM/PM they give the time back |
| Chrono.TimeFullInjective | src/client/constants/datetime.rs:198 | two valid times print the same `%r` text exactly when they are equal |
| Chrono.FormatArriveTime | src/client/apis/schedule_information/arrive.rs:183 | `%I:%M+%P` of a valid time is eight characters: two digits, ':', two digits, '+' and am/pm |
| Chrono.ClockFields | src/client/apis/schedule_information/arrive.rs:183 | where each field of "hh:mm+rest" sits |
| Chrono.ArriveTimeRoundTrip | src/client/apis/schedule_information/arrive.rs:183 | the URL time gives back the hour and the minute |
| Chrono.ArriveTimeInjective | src/client/apis/schedule_information/arrive.rs:183 | two times print the same URL time exactly when they agree to the minute |
| Chrono.ArriveTimeIsQuerySafe | src/client/apis/schedule_information/arrive.rs:183 | the URL time contains no '&' |
| Chrono.West | src/client/constants/datetime.rs:268 | `FixedOffset::west(secs)` is `secs` seconds behind UTC, within a day |
| DateTimes.TimeZoneToString | src/client/constants/datetime.rs:272-279 | a zone prints as three characters without a space |
| DateTimes.TimeZoneFromString | src/client/constants/datetime.rs:244-250 | a success names the zone that prints as exactly the input; an error carries "Does not match any timezone" and no zone prints so |
| DateTimes.TimeZoneToNumber | src/client/constants/datetime.rs:260-265 | PDT is 7 and PST is 8 |
| DateTimes.TimeZoneFromNumber | src/client/constants/datetime.rs:252-258 | succeeds exactly on 7 and 8, naming the zone with that number; other numbers give the zone error |
| DateTimes.ToFixedOffset | src/client/constants/datetime.rs:267-269 | the offset is the zone's number times 3600 seconds west of UTC |
| DateTimes.TimeZoneSerialize | src/client/constants/datetime.rs:281-288 | serialisation writes the `Display` text |
| DateTimes.TimeZoneDeserialize | src/client/constants/datetime.rs:290-298 | only a string is accepted, and it is read with `from_string` |
| DateTimes.TimeZoneRoundTrips | src/client/constants/datetime.rs:244-298 | string, number and serde round trips, for both zones |
| DateTimes.TimeZoneExamples | src/client/constants/datetime.rs:244-269 | "pst" is rejected; PDT is 25200 and PST 28800 seconds behind UTC |
| DateTimes.RSplitOnce | src/client/constants/datetime.rs:38-41 | no result exactly when there is no separator; otherwise the input is the left part, the separator and a right part without it |
| DateTimes.RSplitOnceUnique | src/client/constants/datetime.rs:38 | the split is at the last separator |
| DateTimes.ZoneToken | src/client/constants/datetime.rs:38-42 | there is a split exactly when the text has a space, and the text before the zone is a proper prefix |
| DateTimes.DateTimeFromString | src/client/constants/datetime.rs:37-57 | no space gives the spaces error and a last word that is not a zone the zone error; otherwise it succeeds exactly when the first 24 characters read, and a reader failure is that reader's error; a success carries the named zone and its offset, ends in " " and its zone, and its local time is the parse of the first 24 characters |
| DateTimes.DateTimeBadZone | src/client/constants/datetime.rs:42 | a text whose last word is not PDT or PST gives the zone error |
| DateTimes.DateTimeToString | src/client/constants/datetime.rs:60-69 | the text ends in a space and the zone |
| DateTimes.DateTimeSerialize | src/client/constants/datetime.rs:71-78 | serialisation writes the `Display` text |
| DateTimes.DateTimeDeserialize | src/client/constants/datetime.rs:80-88 | only a string is accepted, and it is read with `from_string` |
| DateTimes.DateTimeRoundTrip | src/client/constants/datetime.rs:37-88 | a date-time whose chrono text is 24 characters and reads back survives printing and reading, and serde |
| DateTimes.DateTryFrom | src/client/constants/datetime.rs:96-117 | under ten characters is an error; an 11- or 12-character text the month-name reader accepts is that date; otherwise it succeeds exactly when the first ten characters read as `%m/%d/%Y`, and then is that date |
| DateTimes.DateSerialize | src/client/constants/datetime.rs:120-127 | serialisation writes `%m/%d/%Y` |
| DateTimes.DateDeserialize | src/client/constants/datetime.rs:129-137 | only a string is accepted, and it is read with `try_from` |
| DateTimes.DateRoundTrip | src/client/constants/datetime.rs:96-137 | every valid date of years 0 to 9999 survives serde, whatever the month-name reader does |
| DateTimes.DateShortTailExample | src/client/constants/datetime.rs:99-114 | "01/06/2020Z", rejected by the month-name reader, is read from its first ten characters as 6 January 2020 |
| DateTimes.DateIgnoresTail | src/client/constants/datetime.rs:108-114 | beyond twelve characters only the first ten matter |
| DateTimes.ParseFullTime | src/client/constants/datetime.rs:152-160 | `%H:%M:%S %p` first, and `%r` when that fails |
| DateTimes.FromFullStringWithTz | src/client/constants/datetime.rs:146-165 | no space gives the spaces error and a last word that is not a zone the zone error; otherwise it succeeds exactly when the first eleven characters read as a full time, and a reader failure is that reader's error; a success has the named zone, the text ends in " " and that zone, and its time is the full-time reading of the first eleven characters |
| DateTimes.FromFullStringWithoutTz | src/client/constants/datetime.rs:167-181 | succeeds exactly when the first eleven characters read as a full time; the result has that time and no zone |
| DateTimes.FromShortStringWithoutTz | src/client/constants/datetime.rs:183-189 | succeeds exactly when the text reads as `%l:%M %p`; the result has that time and no zone |
| DateTimes.TimeToString | src/client/constants/datetime.rs:192-205 | a valid time prints as its eleven-character `%r` text, followed for a zoned time by a space and the zone |
| DateTimes.TimeSerialize | src/client/constants/datetime.rs:207-214 | serialisation writes the `Display` text |
| DateTimes.DeserializeWithTz | src/client/constants/datetime.rs:216-222 | only a string is accepted, and it is read with `from_full_string_with_tz` |
| DateTimes.DeserializeWithoutTz | src/client/constants/datetime.rs:224-235 | the short form when it reads, else the full form; never a zone |
| DateTimes.TimeWithTzRoundTrip | src/client/constants/datetime.rs:146-222 | a time with a zone survives serde when chrono reads back its own `%r` |
| DateTimes.TimeWithoutTzRoundTrip | src/client/constants/datetime.rs:167-235 | a time without a zone survives serde when the short reader rejects the `%r` text and the full reader reads it back |
| Query.KeyOr | src/client/apis/schedule_information/arrive.rs:176-178 | the caller's key when there is one, the public key otherwise |
| Arrive.AsAB | src/client/apis/schedule_information/arrive.rs:137-157 | every option asks for a before in 0..4, an after in 1..4, and at most 6 in all |
| Arrive.FromAB | src/client/apis/schedule_information/arrive.rs:137-157 | a pair has an option exactly when it is allowed, and that option maps back to the pair |
| Arrive.AsABRoundTrip | src/client/apis/schedule_information/arrive.rs:137-157 | the option of an option's pair is the option |
| Arrive.AsABInjective | src/client/apis/schedule_information/arrive.rs:137-157 | distinct options give distinct pairs |
| Arrive.AsABOnto | src/client/apis/schedule_information/arrive.rs:137-157 | every allowed pair is some option's |
| Arrive.DefaultTrips | src/client/apis/schedule_information/arrive.rs:160-164 | the default asks for two before and two after |
| Arrive.Url | src/client/apis/schedule_information/arrive.rs:175-200 | the URL starts with the fixed root "…/sched.aspx?cmd=arrive&json=y&l=1" |
| Arrive.RootParams | src/client/apis/schedule_information/arrive.rs:191 | the root's query is cmd=arrive, json=y, l=1 |
| Arrive.ArriveQuery | src/client/apis/schedule_information/arrive.rs:190-199 | for any values without '&', the query is the root's parameters, then key, orig, dest, time, date, a, b with those values |
| Arrive.UrlParams | src/client/apis/schedule_information/arrive.rs:175-200 | the query is exactly cmd, json, l, then the key (defaulted), the two abbreviations, the time ("now" by default), the date ("today" by default) and the counts of the trip option (the default's when absent) |
| Arrive.UrlDefaults | src/client/apis/schedule_information/arrive.rs:176-189 | without a key the public key is sent; without a time "now"; without a date "today"; without trips a=2 and b=2 |
| Arrive.UrlGiven | src/client/apis/schedule_information/arrive.rs:176-199 | a given key is sent as it is, a time as `%I:%M+%P`, a date as `%m/%d/%Y`, and trips as the option's counts |
| Etd.PlatformNumber | src/client/apis/real_time_estimates/etd/mod.rs:98-103 | a platform number is 1 to 4 |
| Etd.PlatformNumberInjective | src/client/apis/real_time_estimates/etd/mod.rs:98-103 | distinct platforms have distinct numbers |
| Etd.PlatformNumbers | src/client/apis/real_time_estimates/etd/mod.rs:98-104 | the platform number is sent as "1", "2", "3" or "4" |
| Etd.Url | src/client/apis/real_time_estimates/etd/mod.rs:82-109 | every URL starts with the root and "&key=" and the key (defaulted) |
| Etd.RootParams | src/client/apis/real_time_estimates/etd/mod.rs:81 | the root's query is cmd=etd, json=y |
| Etd.WithKeyQuery | src/client/apis/real_time_estimates/etd/mod.rs:83-88 | the prefix's query is cmd, json and key |
| Etd.OriginAllParams | src/client/apis/real_time_estimates/etd/mod.rs:90 | for every station the query is exactly cmd, json, key, orig=ALL |
| Etd.DirectionParams | src/client/apis/real_time_estimates/etd/mod.rs:92-96 | for one station and a direction: cmd, json, key, the abbreviation as orig, and the direction's code as dir |
| Etd.PlatformParams | src/client/apis/real_time_estimates/etd/mod.rs:97-105 | for one station and a platform: cmd, json, key, the abbreviation as orig, and the platform number as plat |
| Etd.DirectionXorPlatform | src/client/apis/real_time_estimates/etd/mod.rs:89-108 | for every station neither dir nor plat is sent; for one station exactly the chosen one of them |
| RouteInfo.DateParam | src/client/apis/route_information/routeinfo.rs:81-84 | the date value contains no '&' |
| RouteInfo.Url | src/client/apis/route_information/routeinfo.rs:66-91 | every URL starts with the root, the route and the key (defaulted) |
| RouteInfo.RootParams | src/client/apis/route_information/routeinfo.rs:64 | the root's query is cmd=routeinfo, json=y |
| RouteInfo.PrefixParams | src/client/apis/route_information/routeinfo.rs:67-90 | without options the query is exactly cmd, json, route, key |
| RouteInfo.ScheduleParams | src/client/apis/route_information/routeinfo.rs:77-79 | a schedule adds exactly sched=<number> after the prefix |
| RouteInfo.DateParams | src/client/apis/route_information/routeinfo.rs:80-86 | a date option adds exactly date=today or date=<mm/dd/yyyy> after the prefix |
| RouteInfo.AtMostOneExtra | src/client/apis/route_information/routeinfo.rs:75-90 | whatever the options, the query starts with the four prefix parameters and has at most one more |
| Routes.DateParam | src/client/apis/route_information/routes.rs:65-68 | the date value contains no '&' |
| Routes.Url | src/client/apis/route_information/routes.rs:53-75 | every URL starts with the root and the key (defaulted) |
| Routes.RootParams | src/client/apis/route_information/routes.rs:52 | the root's query is cmd=routes, json=y |
| Routes.PrefixParams | src/client/apis/route_information/routes.rs:54-74 | without options the query is exactly cmd, json, key |
| Routes.ScheduleParams | src/client/apis/route_information/routes.rs:63 | a schedule adds exactly sched=<number> after the prefix |
| Routes.DateParams | src/client/apis/route_information/routes.rs:64-70 | a date option adds exactly date=today or date=<mm/dd/yyyy> after the prefix |
| Routes.AtMostOneExtra | src/client/apis/route_information/routes.rs:61-74 | whatever the options, the query starts with the three prefix parameters and has at most one more |
| StnAccess.ExtractFillTime | src/client/apis/station_information/stnaccess.rs:10-21 | never an error; Some exactly when the CDATA section is extracted and reads as a short time, and then that time |
| StnAccess.FillTimeHasNoZone | src/client/apis/station_information/stnaccess.rs:15 | a fill time has no zone |
| StnAccess.FillTimeOfSection | src/client/apis/station_information/stnaccess.rs:14-18 | for a well-formed section the fill time is the short reader's time, or None when it fails |
| StnAccess.Url | src/client/apis/station_information/stnaccess.rs:80-87 | the URL starts with the fixed command and the station's abbreviation |
| StnAccess.UrlParams | src/client/apis/station_information/stnaccess.rs:80-87 | the query is exactly cmd=stnaccess, orig=<abbreviation>, key (defaulted), json=y, l=1 |

## Left out

- The `async fn call` of every request is left out: an HTTP GET with reqwest and the JSON decoding of its answer. So are the tests, which call the live API. This is network I/O.
- The response structs (`Leg`, `Trip`, `EtdStation`, `Route`, …) are left out. They are serde field mappings with no behaviour. The same goes for the other URL builders (`stns`, `stninfo`, `version`, the advisory modules), each one fixed `format!` with a defaulted key.
- The older duplicates under src/client/advisories are not part of this model, and neither is the unrelated WebSocket server in src/main.rs.
- The value of `PUBLIC_KEY` is not part of this model. Every URL builder takes it as the parameter `publicKey`.
- The URL lemmas require that the key (the caller's, or the public one) contains no '&'. The client performs no URL encoding, so a key with '&' would split into further parameters. Every other value sent is proved free of '&'.
- `Stations.FromAbbr` lower-cases its input ASCII letter by letter, where Rust's `to_lowercase` is Unicode-wide. The two agree on the ASCII text the API sends.
- `Chrono.Parsers`: the readers of `%b %e, %Y`, `%r`, `%H:%M:%S %p` and `%l:%M %p`, and the date-time format `%a %b %d %Y %I:%M %p` (both reading and printing), are parameters. The `%r` printer is modelled exactly (`Chrono.FormatTimeFull`). The round-trip lemmas that go through a parameter state, as a requirement, what they need of chrono.
- `Chrono.ParseMdy` reads only the fixed-width form of `%m/%d/%Y`: two, two and four digits. chrono also accepts, for example, a one-digit month. A text accepted only by that wider reading is rejected here.
- `Chrono.NaiveTime` counts only to the second. Fractions and leap seconds are not modelled.
- `Chrono.FormatMdy` and `Chrono.FormatYear` print any year, but the lengths and round trips are proved only for years 0 to 9999.
- `DateTimes.DateTimeFromString` does not model `FixedOffset::from_local_datetime`. For a fixed offset it always gives one answer, so the "ambiguous or invalid" branch cannot be taken and has no counterpart.
- `DateTimes.DateTimeFromString`, `DateTimes.FromFullStringWithTz` and `DateTimes.FromFullStringWithoutTz` slice the text before the zone (or the text itself) to 24 or 11 bytes. Rust panics when it is shorter, so these functions require it to be long enough. The panic is not modelled.
- `DateTimes.DateTimeDeserialize`, `DateTimes.DeserializeWithTz` and `DateTimes.DeserializeWithoutTz` carry the same requirement on the string they are handed, because they call those functions. So the panics reachable from the wire are not modelled either. For example, `deserialize_without_tz` on the empty string: the short reader fails, then the full-form reader slices `[0..11]` and panics.
- `SerdeHelpers.ExtractCdataSection` rejects an array with more than one element. The derived `Deserialize` of `CDATASection` itself only reads one element; the rejection of the extra elements is the JSON deserializer's.
- Strings are sequences of characters, not of UTF-8 bytes. The byte-length checks in `Date::try_from` and the slices agree with the model on ASCII text.
