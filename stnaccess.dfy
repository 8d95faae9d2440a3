/** The station access request ("stn.aspx?cmd=stnaccess") and the one field of its
    response that needs custom decoding: the parking lot fill time. */
module StnAccess {
  import opened Wrappers
  import opened Query
  import opened SerdeHelpers
  import Stations
  import Chrono
  import DateTimes

  /** `extract_fill_time`: the CDATA text read as a short time such as "7:45 AM". It never
      fails; a missing section or an unreadable time is `None`. */
  function ExtractFillTime(p: Chrono.Parsers, v: Value): (r: Result<Option<DateTimes.Time>>)
    ensures r.Ok?
    ensures r.value.Some? <==>
      ExtractCdataSection(v).Ok? && DateTimes.FromShortStringWithoutTz(p, ExtractCdataSection(v).value).Ok?
    ensures r.value.Some? ==>
      r.value.value == DateTimes.FromShortStringWithoutTz(p, ExtractCdataSection(v).value).value
  {
    match ExtractCdataSection(v)
    case Ok(timeString) =>
      (match DateTimes.FromShortStringWithoutTz(p, timeString)
       case Ok(time) => Ok(Some(time))
       case Err(_) => Ok(None))
    case Err(_) => Ok(None)
  }

  /** A fill time is a clock time without a time zone. */
  lemma FillTimeHasNoZone(p: Chrono.Parsers, v: Value)
    ensures ExtractFillTime(p, v).value.Some? ==> ExtractFillTime(p, v).value.value.timeZone.None?
  {
  }

  /** The fill time of a well-formed section is the short parser's reading of its text. */
  lemma FillTimeOfSection(p: Chrono.Parsers, text: string)
    ensures var v := Obj(map[CdataKey := Str(text)]);
      ExtractFillTime(p, v) == Ok(
        if p.parseTimeShort(text).Ok? then Some(DateTimes.Time(p.parseTimeShort(text).value, None)) else None)
  {
  }

  const Path := "https://api.bart.gov/api/stn.aspx"

  /** `url`: the fixed command, the station's abbreviation, the key, then "json=y&l=1". */
  function Url(orig: Stations.Station, key: Option<string>, publicKey: string): (r: string)
    ensures Path + "?cmd=stnaccess&orig=" + Stations.ToAbbr(orig) <= r
  {
    Path + "?cmd=stnaccess&orig=" + Stations.ToAbbr(orig) + "&key=" + KeyOr(key, publicKey) + "&json=y&l=1"
  }

  lemma WithOriginShape(orig: string)
    ensures '?' !in Path
    ensures Path + "?cmd=stnaccess&orig=" + orig == Path + "?" + "cmd" + "=" + "stnaccess" + "&" + "orig" + "=" + orig
  {
  }

  lemma WithOriginQuery(orig: string)
    requires IsValue(orig)
    ensures '?' in Path + "?cmd=stnaccess&orig=" + orig
    ensures QueryParams(Path + "?cmd=stnaccess&orig=" + orig) == [("cmd", "stnaccess"), ("orig", orig)]
  {
    WithOriginShape(orig);
    FirstTwoParams(Path, "cmd", "stnaccess", "orig", orig);
  }

  lemma WithKeyQuery(orig: string, key: string)
    requires IsValue(orig) && IsValue(key)
    ensures '?' in Path + "?cmd=stnaccess&orig=" + orig + "&key=" + key
    ensures QueryParams(Path + "?cmd=stnaccess&orig=" + orig + "&key=" + key)
      == [("cmd", "stnaccess"), ("orig", orig), ("key", key)]
  {
    WithOriginQuery(orig);
    AppendParamAs(Path + "?cmd=stnaccess&orig=" + orig, "&key=", "key", key);
  }

  lemma StnAccessQuery(orig: string, key: string)
    requires IsValue(orig) && IsValue(key)
    ensures QueryParams(Path + "?cmd=stnaccess&orig=" + orig + "&key=" + key + "&json=y&l=1")
      == [("cmd", "stnaccess"), ("orig", orig), ("key", key), ("json", "y"), ("l", "1")]
  {
    var withKey := Path + "?cmd=stnaccess&orig=" + orig + "&key=" + key;
    WithKeyQuery(orig, key);
    AppendFixedParam(withKey, "&json=y", "json", "y");
    AppendFixedParam(withKey + "&json=y", "&l=1", "l", "1");
    assert withKey + "&json=y&l=1" == withKey + "&json=y" + "&l=1";
  }

  /** The query the service reads: cmd, orig, key, json and l, in that order. */
  lemma UrlParams(orig: Stations.Station, key: Option<string>, publicKey: string)
    requires IsValue(KeyOr(key, publicKey))
    ensures QueryParams(Url(orig, key, publicKey))
      == [("cmd", "stnaccess"), ("orig", Stations.ToAbbr(orig)), ("key", KeyOr(key, publicKey)),
          ("json", "y"), ("l", "1")]
  {
    Stations.AbbrIsQuerySafe(orig);
    StnAccessQuery(Stations.ToAbbr(orig), KeyOr(key, publicKey));
  }
}
