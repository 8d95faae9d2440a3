/** The trip planner request ("sched.aspx?cmd=arrive"): trips arriving at a
    destination by a given time, with the number of trips before and after it. */
module Arrive {
  import opened Wrappers
  import opened Decimal
  import opened Query
  import Stations
  import Chrono

  /** How many trips to list before and after the requested time. */
  datatype ArriveTripsOptions =
    | ZeroBeforeOneAfter
    | ZeroBeforeTwoAfter
    | ZeroBeforeThreeAfter
    | ZeroBeforeFourAfter
    | OneBeforeOneAfter
    | OneBeforeTwoAfter
    | OneBeforeThreeAfter
    | OneBeforeFourAfter
    | TwoBeforeOneAfter
    | TwoBeforeTwoAfter
    | TwoBeforeThreeAfter
    | TwoBeforeFourAfter
    | ThreeBeforeOneAfter
    | ThreeBeforeTwoAfter
    | ThreeBeforeThreeAfter
    | FourBeforeOneAfter
    | FourBeforeTwoAfter

  /** The pairs the 17 options stand for: up to four before, one to four after, six at most in all. */
  predicate Allowed(a: u8, b: u8)
  {
    a <= 4 && 1 <= b <= 4 && a + b <= 6
  }

  /** `as_a_b`: the (before, after) counts an option stands for. */
  function AsAB(t: ArriveTripsOptions): (r: (u8, u8))
    ensures Allowed(r.0, r.1)
  {
    match t
    case ZeroBeforeOneAfter => (0, 1)
    case ZeroBeforeTwoAfter => (0, 2)
    case ZeroBeforeThreeAfter => (0, 3)
    case ZeroBeforeFourAfter => (0, 4)
    case OneBeforeOneAfter => (1, 1)
    case OneBeforeTwoAfter => (1, 2)
    case OneBeforeThreeAfter => (1, 3)
    case OneBeforeFourAfter => (1, 4)
    case TwoBeforeOneAfter => (2, 1)
    case TwoBeforeTwoAfter => (2, 2)
    case TwoBeforeThreeAfter => (2, 3)
    case TwoBeforeFourAfter => (2, 4)
    case ThreeBeforeOneAfter => (3, 1)
    case ThreeBeforeTwoAfter => (3, 2)
    case ThreeBeforeThreeAfter => (3, 3)
    case FourBeforeOneAfter => (4, 1)
    case FourBeforeTwoAfter => (4, 2)
  }

  /** The option for a (before, after) pair, if there is one. */
  function FromAB(a: u8, b: u8): (r: Option<ArriveTripsOptions>)
    ensures r.Some? <==> Allowed(a, b)
    ensures r.Some? ==> AsAB(r.value) == (a, b)
  {
    if a == 0 && 1 <= b <= 4 then
      Some(if b == 1 then ZeroBeforeOneAfter else if b == 2 then ZeroBeforeTwoAfter
           else if b == 3 then ZeroBeforeThreeAfter else ZeroBeforeFourAfter)
    else if a == 1 && 1 <= b <= 4 then
      Some(if b == 1 then OneBeforeOneAfter else if b == 2 then OneBeforeTwoAfter
           else if b == 3 then OneBeforeThreeAfter else OneBeforeFourAfter)
    else if a == 2 && 1 <= b <= 4 then
      Some(if b == 1 then TwoBeforeOneAfter else if b == 2 then TwoBeforeTwoAfter
           else if b == 3 then TwoBeforeThreeAfter else TwoBeforeFourAfter)
    else if a == 3 && 1 <= b <= 3 then
      Some(if b == 1 then ThreeBeforeOneAfter else if b == 2 then ThreeBeforeTwoAfter
           else ThreeBeforeThreeAfter)
    else if a == 4 && 1 <= b <= 2 then
      Some(if b == 1 then FourBeforeOneAfter else FourBeforeTwoAfter)
    else None
  }

  lemma AsABRoundTrip(t: ArriveTripsOptions)
    ensures FromAB(AsAB(t).0, AsAB(t).1) == Some(t)
  {
  }

  /** Distinct options ask for distinct counts. */
  lemma AsABInjective(t1: ArriveTripsOptions, t2: ArriveTripsOptions)
    ensures AsAB(t1) == AsAB(t2) ==> t1 == t2
  {
    AsABRoundTrip(t1);
    AsABRoundTrip(t2);
  }

  /** Every allowed pair is asked for by some option. */
  lemma AsABOnto(a: u8, b: u8)
    requires Allowed(a, b)
    ensures exists t :: AsAB(t) == (a, b)
  {
    assert AsAB(FromAB(a, b).value) == (a, b);
  }

  /** `Default`: two trips before and two after. */
  function DefaultTrips(): (t: ArriveTripsOptions)
    ensures AsAB(t) == (2, 2)
  {
    TwoBeforeTwoAfter
  }

  datatype ArriveOptions = ArriveOptions(
    orig: Stations.Station,
    dest: Stations.Station,
    time: Option<Chrono.NaiveTime>,
    date: Option<Chrono.NaiveDate>,
    trips: Option<ArriveTripsOptions>)

  /** The "time" value: "%I:%M+%P", or "now" when no time is given. */
  function TimeParam(time: Option<Chrono.NaiveTime>): string
  {
    match time
    case Some(t) => Chrono.FormatArriveTime(t)
    case None => "now"
  }

  /** The "date" value: "%m/%d/%Y", or "today" when no date is given. */
  function DateParam(date: Option<Chrono.NaiveDate>): string
  {
    match date
    case Some(d) => Chrono.FormatMdy(d)
    case None => "today"
  }

  /** The trip counts sent, the default's when no option is given. */
  function Trips(trips: Option<ArriveTripsOptions>): ArriveTripsOptions
  {
    match trips
    case Some(t) => t
    case None => DefaultTrips()
  }

  const Path := "https://api.bart.gov/api/sched.aspx"
  const Root := Path + "?cmd=arrive&json=y&l=1"

  /** `url`: the fixed root, then key, orig, dest, time, date, a and b. */
  function Url(options: ArriveOptions, key: Option<string>, publicKey: string): (r: string)
    ensures Root <= r
  {
    var (a, b) := AsAB(Trips(options.trips));
    Root + "&key=" + KeyOr(key, publicKey)
    + "&orig=" + Stations.ToAbbr(options.orig)
    + "&dest=" + Stations.ToAbbr(options.dest)
    + "&time=" + TimeParam(options.time)
    + "&date=" + DateParam(options.date)
    + "&a=" + NatToString(a as nat)
    + "&b=" + NatToString(b as nat)
  }

  lemma RootShape()
    ensures '?' !in Path
    ensures Root == Path + "?" + "cmd" + "=" + "arrive" + "&" + "json" + "=" + "y" + "&l=1"
  {
  }

  lemma RootParams()
    ensures '?' in Root
    ensures QueryParams(Root) == [("cmd", "arrive"), ("json", "y"), ("l", "1")]
  {
    RootShape();
    FirstTwoParams(Path, "cmd", "arrive", "json", "y");
    AppendFixedParam(Path + "?" + "cmd" + "=" + "arrive" + "&" + "json" + "=" + "y", "&l=1", "l", "1");
  }

  lemma SevenParamsShape(url: string, key: string, orig: string, dest: string, time: string, date: string, a: string, b: string)
    ensures url + "&key=" + key + "&orig=" + orig + "&dest=" + dest + "&time=" + time + "&date=" + date + "&a=" + a + "&b=" + b
      == WithParams(url, [("key", key)] + [("orig", orig)] + [("dest", dest)] + [("time", time)]
                         + [("date", date)] + [("a", a)] + [("b", b)])
  {
    var p1 := [("key", key)];
    var p2 := p1 + [("orig", orig)];
    var p3 := p2 + [("dest", dest)];
    var p4 := p3 + [("time", time)];
    var p5 := p4 + [("date", date)];
    var p6 := p5 + [("a", a)];
    var p7 := p6 + [("b", b)];
    assert WithParams(url, p1) == url + "&key=" + key by { assert p1[..0] == []; }
    assert WithParams(url, p2) == WithParams(url, p1) + "&orig=" + orig by { assert p2[..1] == p1; }
    assert WithParams(url, p3) == WithParams(url, p2) + "&dest=" + dest by { assert p3[..2] == p2; }
    assert WithParams(url, p4) == WithParams(url, p3) + "&time=" + time by { assert p4[..3] == p3; }
    assert WithParams(url, p5) == WithParams(url, p4) + "&date=" + date by { assert p5[..4] == p4; }
    assert WithParams(url, p6) == WithParams(url, p5) + "&a=" + a by { assert p6[..5] == p5; }
    assert WithParams(url, p7) == WithParams(url, p6) + "&b=" + b by { assert p7[..6] == p6; }
  }

  lemma SevenParamsSafe(key: string, orig: string, dest: string, time: string, date: string, a: string, b: string)
    requires IsValue(key) && IsValue(orig) && IsValue(dest) && IsValue(time) && IsValue(date) && IsValue(a) && IsValue(b)
    ensures SafeParams([("key", key)] + [("orig", orig)] + [("dest", dest)] + [("time", time)]
                       + [("date", date)] + [("a", a)] + [("b", b)])
  {
    var p1 := [("key", key)];
    var p2 := p1 + [("orig", orig)];
    var p3 := p2 + [("dest", dest)];
    var p4 := p3 + [("time", time)];
    var p5 := p4 + [("date", date)];
    var p6 := p5 + [("a", a)];
    SafeParamsAppend([], "key", key);
    assert [] + p1 == p1;
    SafeParamsAppend(p1, "orig", orig);
    SafeParamsAppend(p2, "dest", dest);
    SafeParamsAppend(p3, "time", time);
    SafeParamsAppend(p4, "date", date);
    SafeParamsAppend(p5, "a", a);
    SafeParamsAppend(p6, "b", b);
  }

  /** The trip planner query for any parameter values without '&'. */
  lemma ArriveQuery(key: string, orig: string, dest: string, time: string, date: string, a: string, b: string)
    requires IsValue(key) && IsValue(orig) && IsValue(dest) && IsValue(time) && IsValue(date) && IsValue(a) && IsValue(b)
    ensures QueryParams(Root + "&key=" + key + "&orig=" + orig + "&dest=" + dest + "&time=" + time
                        + "&date=" + date + "&a=" + a + "&b=" + b)
      == [("cmd", "arrive"), ("json", "y"), ("l", "1"), ("key", key), ("orig", orig), ("dest", dest),
          ("time", time), ("date", date), ("a", a), ("b", b)]
  {
    var ps := [("key", key)] + [("orig", orig)] + [("dest", dest)] + [("time", time)]
              + [("date", date)] + [("a", a)] + [("b", b)];
    SevenParamsSafe(key, orig, dest, time, date, a, b);
    SevenParamsShape(Root, key, orig, dest, time, date, a, b);
    RootParams();
    AppendParams(Root, ps);
  }

  /** The query the service reads: the parameters in the fixed order, with every default applied.
      A key holding '&' would split into further parameters. */
  lemma UrlParams(options: ArriveOptions, key: Option<string>, publicKey: string)
    requires IsValue(KeyOr(key, publicKey))
    ensures QueryParams(Url(options, key, publicKey)) == [
      ("cmd", "arrive"), ("json", "y"), ("l", "1"),
      ("key", KeyOr(key, publicKey)),
      ("orig", Stations.ToAbbr(options.orig)),
      ("dest", Stations.ToAbbr(options.dest)),
      ("time", TimeParam(options.time)),
      ("date", DateParam(options.date)),
      ("a", NatToString(AsAB(Trips(options.trips)).0 as nat)),
      ("b", NatToString(AsAB(Trips(options.trips)).1 as nat))]
  {
    var (a, b) := AsAB(Trips(options.trips));
    Stations.AbbrIsQuerySafe(options.orig);
    Stations.AbbrIsQuerySafe(options.dest);
    if options.time.Some? { Chrono.ArriveTimeIsQuerySafe(options.time.value); }
    if options.date.Some? { Chrono.MdyIsQuerySafe(options.date.value); }
    NumeralIsQuerySafe(NatToString(a as nat));
    NumeralIsQuerySafe(NatToString(b as nat));
    ArriveQuery(KeyOr(key, publicKey), Stations.ToAbbr(options.orig), Stations.ToAbbr(options.dest),
      TimeParam(options.time), DateParam(options.date), NatToString(a as nat), NatToString(b as nat));
  }

  /** The defaults of `url`: without a key of the caller's the public key is sent, without a
      time "now", without a date "today", and without trip counts two before and two after. */
  lemma UrlDefaults(options: ArriveOptions, key: Option<string>, publicKey: string)
    requires IsValue(KeyOr(key, publicKey))
    ensures key.None? ==> ("key", publicKey) in QueryParams(Url(options, key, publicKey))
    ensures options.time.None? ==> ("time", "now") in QueryParams(Url(options, key, publicKey))
    ensures options.date.None? ==> ("date", "today") in QueryParams(Url(options, key, publicKey))
    ensures options.trips.None? ==> ("a", "2") in QueryParams(Url(options, key, publicKey))
    ensures options.trips.None? ==> ("b", "2") in QueryParams(Url(options, key, publicKey))
  {
    UrlParams(options, key, publicKey);
    assert NatToString(2) == "2";
  }

  /** The values a caller gives are sent as they are: the key, the time as "%I:%M+%P"
      (which keeps its hour and minute), the date as "%m/%d/%Y" and the trip counts of
      the option chosen. */
  lemma UrlGiven(options: ArriveOptions, key: Option<string>, publicKey: string)
    requires IsValue(KeyOr(key, publicKey))
    ensures key.Some? ==> ("key", key.value) in QueryParams(Url(options, key, publicKey))
    ensures options.time.Some? ==>
      ("time", Chrono.FormatArriveTime(options.time.value)) in QueryParams(Url(options, key, publicKey))
    ensures options.date.Some? ==>
      ("date", Chrono.FormatMdy(options.date.value)) in QueryParams(Url(options, key, publicKey))
    ensures options.trips.Some? ==>
      ("a", NatToString(AsAB(options.trips.value).0 as nat)) in QueryParams(Url(options, key, publicKey))
      && ("b", NatToString(AsAB(options.trips.value).1 as nat)) in QueryParams(Url(options, key, publicKey))
  {
    UrlParams(options, key, publicKey);
  }
}
