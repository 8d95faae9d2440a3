/** The route list request ("route.aspx?cmd=routes"): every route, optionally for a
    given schedule number or date. */
module Routes {
  import opened Wrappers
  import opened Decimal
  import opened Query
  import Chrono

  datatype RoutesOptionsDate = Today | Date(date: Chrono.NaiveDate)

  datatype RoutesOptions = Schedule(schedule: u8) | Date(dateOption: RoutesOptionsDate)

  /** The "date" value: "today", or the date as "%m/%d/%Y". */
  function DateParam(d: RoutesOptionsDate): (r: string)
    ensures IsValue(r)
  {
    match d
    case Today => "today"
    case Date(date) =>
      Chrono.MdyIsQuerySafe(date);
      Chrono.FormatMdy(date)
  }

  const Path := "https://api.bart.gov/api/route.aspx"
  const UrlRoot := Path + "?cmd=routes&json=y"

  /** The root followed by the key. */
  function UrlWithKey(key: Option<string>, publicKey: string): string
  {
    UrlRoot + "&key=" + KeyOr(key, publicKey)
  }

  /** `url`: the prefix alone, or the prefix and one "sched" or "date" parameter. */
  function Url(options: Option<RoutesOptions>, key: Option<string>, publicKey: string): (r: string)
    ensures UrlWithKey(key, publicKey) <= r
  {
    var prefix := UrlWithKey(key, publicKey);
    match options
    case None => prefix
    case Some(Schedule(schedule)) => prefix + "&sched=" + NatToString(schedule as nat)
    case Some(Date(d)) => prefix + "&date=" + DateParam(d)
  }

  lemma RootShape()
    ensures '?' !in Path
    ensures UrlRoot == Path + "?" + "cmd" + "=" + "routes" + "&" + "json" + "=" + "y"
  {
  }

  lemma RootParams()
    ensures '?' in UrlRoot
    ensures QueryParams(UrlRoot) == [("cmd", "routes"), ("json", "y")]
  {
    RootShape();
    FirstTwoParams(Path, "cmd", "routes", "json", "y");
  }

  lemma PrefixQuery(key: string)
    requires IsValue(key)
    ensures '?' in UrlRoot + "&key=" + key
    ensures QueryParams(UrlRoot + "&key=" + key) == [("cmd", "routes"), ("json", "y"), ("key", key)]
  {
    RootParams();
    AppendParamAs(UrlRoot, "&key=", "key", key);
  }

  lemma ExtraQuery(key: string, sep: string, name: string, value: string)
    requires sep == "&" + name + "="
    requires IsValue(key) && IsName(name) && IsValue(value)
    ensures QueryParams(UrlRoot + "&key=" + key + sep + value)
      == [("cmd", "routes"), ("json", "y"), ("key", key), (name, value)]
  {
    PrefixQuery(key);
    AppendParamAs(UrlRoot + "&key=" + key, sep, name, value);
  }

  /** The prefix every routes URL starts with, as the service reads it; also the whole
      URL when no options are given. */
  lemma PrefixParams(key: Option<string>, publicKey: string)
    requires IsValue(KeyOr(key, publicKey))
    ensures QueryParams(Url(None, key, publicKey)) == [("cmd", "routes"), ("json", "y"), ("key", KeyOr(key, publicKey))]
  {
    PrefixQuery(KeyOr(key, publicKey));
  }

  /** A schedule number adds exactly "sched=<number>". */
  lemma ScheduleParams(schedule: u8, key: Option<string>, publicKey: string)
    requires IsValue(KeyOr(key, publicKey))
    ensures QueryParams(Url(Some(Schedule(schedule)), key, publicKey))
      == [("cmd", "routes"), ("json", "y"), ("key", KeyOr(key, publicKey)), ("sched", NatToString(schedule as nat))]
  {
    NumeralIsQuerySafe(NatToString(schedule as nat));
    ExtraQuery(KeyOr(key, publicKey), "&sched=", "sched", NatToString(schedule as nat));
  }

  /** A date adds exactly "date=today" or "date=<mm/dd/yyyy>". */
  lemma DateParams(d: RoutesOptionsDate, key: Option<string>, publicKey: string)
    requires IsValue(KeyOr(key, publicKey))
    ensures QueryParams(Url(Some(RoutesOptions.Date(d)), key, publicKey))
      == [("cmd", "routes"), ("json", "y"), ("key", KeyOr(key, publicKey)),
          ("date", if d.Today? then "today" else Chrono.FormatMdy(d.date))]
  {
    ExtraQuery(KeyOr(key, publicKey), "&date=", "date", DateParam(d));
  }

  /** Whatever the options, the prefix comes first and at most one parameter follows it. */
  lemma AtMostOneExtra(options: Option<RoutesOptions>, key: Option<string>, publicKey: string)
    requires IsValue(KeyOr(key, publicKey))
    ensures 3 <= |QueryParams(Url(options, key, publicKey))| <= 4
    ensures QueryParams(Url(options, key, publicKey))[..3]
      == [("cmd", "routes"), ("json", "y"), ("key", KeyOr(key, publicKey))]
  {
    match options
    case None => PrefixParams(key, publicKey);
    case Some(Schedule(schedule)) => ScheduleParams(schedule, key, publicKey);
    case Some(Date(d)) => DateParams(d, key, publicKey);
  }
}
