/** The route details request ("route.aspx?cmd=routeinfo"): one route, optionally
    for a given schedule number or date. */
module RouteInfo {
  import opened Wrappers
  import opened Decimal
  import opened Query
  import Chrono

  datatype RouteInfoOptionsDate = Today | Date(date: Chrono.NaiveDate)

  datatype RouteInfoOptions = Schedule(schedule: u8) | Date(dateOption: RouteInfoOptionsDate)

  /** The "date" value: "today", or the date as "%m/%d/%Y". */
  function DateParam(d: RouteInfoOptionsDate): (r: string)
    ensures IsValue(r)
  {
    match d
    case Today => "today"
    case Date(date) =>
      Chrono.MdyIsQuerySafe(date);
      Chrono.FormatMdy(date)
  }

  const Path := "https://api.bart.gov/api/route.aspx"
  const UrlRoot := Path + "?cmd=routeinfo&json=y"

  /** The root followed by the route number and the key. */
  function UrlWithRouteAndKey(route: u8, key: Option<string>, publicKey: string): string
  {
    UrlRoot + "&route=" + NatToString(route as nat) + "&key=" + KeyOr(key, publicKey)
  }

  /** `url`: the prefix alone, or the prefix and one "sched" or "date" parameter. */
  function Url(route: u8, options: Option<RouteInfoOptions>, key: Option<string>, publicKey: string): (r: string)
    ensures UrlWithRouteAndKey(route, key, publicKey) <= r
  {
    var prefix := UrlWithRouteAndKey(route, key, publicKey);
    match options
    case None => prefix
    case Some(Schedule(schedule)) => prefix + "&sched=" + NatToString(schedule as nat)
    case Some(Date(d)) => prefix + "&date=" + DateParam(d)
  }

  lemma RootShape()
    ensures '?' !in Path
    ensures UrlRoot == Path + "?" + "cmd" + "=" + "routeinfo" + "&" + "json" + "=" + "y"
  {
  }

  lemma RootParams()
    ensures '?' in UrlRoot
    ensures QueryParams(UrlRoot) == [("cmd", "routeinfo"), ("json", "y")]
  {
    RootShape();
    FirstTwoParams(Path, "cmd", "routeinfo", "json", "y");
  }

  lemma PrefixQuery(route: string, key: string)
    requires IsValue(route) && IsValue(key)
    ensures '?' in UrlRoot + "&route=" + route + "&key=" + key
    ensures QueryParams(UrlRoot + "&route=" + route + "&key=" + key)
      == [("cmd", "routeinfo"), ("json", "y"), ("route", route), ("key", key)]
  {
    WithRouteQuery(route);
    AppendParamAs(UrlRoot + "&route=" + route, "&key=", "key", key);
  }

  lemma WithRouteQuery(route: string)
    requires IsValue(route)
    ensures '?' in UrlRoot + "&route=" + route
    ensures QueryParams(UrlRoot + "&route=" + route) == [("cmd", "routeinfo"), ("json", "y"), ("route", route)]
  {
    RootParams();
    AppendParamAs(UrlRoot, "&route=", "route", route);
  }

  lemma ExtraQuery(route: string, key: string, sep: string, name: string, value: string)
    requires sep == "&" + name + "="
    requires IsValue(route) && IsValue(key) && IsName(name) && IsValue(value)
    ensures QueryParams(UrlRoot + "&route=" + route + "&key=" + key + sep + value)
      == [("cmd", "routeinfo"), ("json", "y"), ("route", route), ("key", key), (name, value)]
  {
    PrefixQuery(route, key);
    AppendParamAs(UrlRoot + "&route=" + route + "&key=" + key, sep, name, value);
  }

  /** The prefix every routeinfo URL starts with, as the service reads it; also the whole
      URL when no options are given. */
  lemma PrefixParams(route: u8, key: Option<string>, publicKey: string)
    requires IsValue(KeyOr(key, publicKey))
    ensures QueryParams(Url(route, None, key, publicKey))
      == [("cmd", "routeinfo"), ("json", "y"), ("route", NatToString(route as nat)), ("key", KeyOr(key, publicKey))]
  {
    NumeralIsQuerySafe(NatToString(route as nat));
    PrefixQuery(NatToString(route as nat), KeyOr(key, publicKey));
  }

  /** A schedule number adds exactly "sched=<number>". */
  lemma ScheduleParams(route: u8, schedule: u8, key: Option<string>, publicKey: string)
    requires IsValue(KeyOr(key, publicKey))
    ensures QueryParams(Url(route, Some(Schedule(schedule)), key, publicKey))
      == [("cmd", "routeinfo"), ("json", "y"), ("route", NatToString(route as nat)), ("key", KeyOr(key, publicKey)),
          ("sched", NatToString(schedule as nat))]
  {
    NumeralIsQuerySafe(NatToString(route as nat));
    NumeralIsQuerySafe(NatToString(schedule as nat));
    ExtraQuery(NatToString(route as nat), KeyOr(key, publicKey), "&sched=", "sched", NatToString(schedule as nat));
  }

  /** A date adds exactly "date=today" or "date=<mm/dd/yyyy>". */
  lemma DateParams(route: u8, d: RouteInfoOptionsDate, key: Option<string>, publicKey: string)
    requires IsValue(KeyOr(key, publicKey))
    ensures QueryParams(Url(route, Some(RouteInfoOptions.Date(d)), key, publicKey))
      == [("cmd", "routeinfo"), ("json", "y"), ("route", NatToString(route as nat)), ("key", KeyOr(key, publicKey)),
          ("date", if d.Today? then "today" else Chrono.FormatMdy(d.date))]
  {
    NumeralIsQuerySafe(NatToString(route as nat));
    ExtraQuery(NatToString(route as nat), KeyOr(key, publicKey), "&date=", "date", DateParam(d));
  }

  /** Whatever the options, the prefix comes first and at most one parameter follows it. */
  lemma AtMostOneExtra(route: u8, options: Option<RouteInfoOptions>, key: Option<string>, publicKey: string)
    requires IsValue(KeyOr(key, publicKey))
    ensures 4 <= |QueryParams(Url(route, options, key, publicKey))| <= 5
    ensures QueryParams(Url(route, options, key, publicKey))[..4]
      == [("cmd", "routeinfo"), ("json", "y"), ("route", NatToString(route as nat)), ("key", KeyOr(key, publicKey))]
  {
    match options
    case None => PrefixParams(route, key, publicKey);
    case Some(Schedule(schedule)) => ScheduleParams(route, schedule, key, publicKey);
    case Some(Date(d)) => DateParams(route, d, key, publicKey);
  }
}
