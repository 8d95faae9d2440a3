/** The real-time departures request ("etd.aspx?cmd=etd"): estimates for every
    station, or for one station narrowed to a direction or a platform. */
module Etd {
  import opened Wrappers
  import opened Decimal
  import opened Query
  import Stations
  import Directions

  datatype EtdOptionsPlatform = One | Two | Three | Four

  datatype EtdOptionsDirectionOrPlatform =
    | Direction(direction: Directions.Direction)
    | Platform(platform: EtdOptionsPlatform)

  datatype EtdOptions =
    | OriginAll
    | OriginAndDirectionOrPlatform(station: Stations.Station, directionOrPlatform: EtdOptionsDirectionOrPlatform)

  /** The platform number sent: one to four. */
  function PlatformNumber(p: EtdOptionsPlatform): (n: nat)
    ensures 1 <= n <= 4
  {
    match p
    case One => 1
    case Two => 2
    case Three => 3
    case Four => 4
  }

  /** Distinct platforms are sent as distinct numbers. */
  lemma PlatformNumberInjective(p1: EtdOptionsPlatform, p2: EtdOptionsPlatform)
    ensures PlatformNumber(p1) == PlatformNumber(p2) ==> p1 == p2
  {
  }

  const Path := "https://api.bart.gov/api/etd.aspx"
  const UrlRoot := Path + "?cmd=etd&json=y"

  /** The root followed by the key. */
  function UrlWithKey(key: Option<string>, publicKey: string): string
  {
    UrlRoot + "&key=" + KeyOr(key, publicKey)
  }

  /** `url`: "orig=ALL" for every station; otherwise the station's abbreviation and then
      either a direction code or a platform number. */
  function Url(options: EtdOptions, key: Option<string>, publicKey: string): (r: string)
    ensures UrlWithKey(key, publicKey) <= r
  {
    match options
    case OriginAll => UrlWithKey(key, publicKey) + "&orig=ALL"
    case OriginAndDirectionOrPlatform(station, directionOrPlatform) =>
      var withOrig := UrlWithKey(key, publicKey) + "&orig=" + Stations.ToAbbr(station);
      match directionOrPlatform
      case Direction(direction) => withOrig + "&dir=" + Directions.ToCode(direction)
      case Platform(platform) => withOrig + "&plat=" + NatToString(PlatformNumber(platform))
  }

  lemma RootShape()
    ensures '?' !in Path
    ensures UrlRoot == Path + "?" + "cmd" + "=" + "etd" + "&" + "json" + "=" + "y"
  {
  }

  lemma RootParams()
    ensures '?' in UrlRoot
    ensures QueryParams(UrlRoot) == [("cmd", "etd"), ("json", "y")]
  {
    RootShape();
    FirstTwoParams(Path, "cmd", "etd", "json", "y");
  }

  lemma WithKeyQuery(key: string)
    requires IsValue(key)
    ensures '?' in UrlRoot + "&key=" + key
    ensures QueryParams(UrlRoot + "&key=" + key) == [("cmd", "etd"), ("json", "y"), ("key", key)]
  {
    RootParams();
    AppendParamAs(UrlRoot, "&key=", "key", key);
  }

  lemma WithOriginQuery(key: string, orig: string)
    requires IsValue(key) && IsValue(orig)
    ensures '?' in UrlRoot + "&key=" + key + "&orig=" + orig
    ensures QueryParams(UrlRoot + "&key=" + key + "&orig=" + orig)
      == [("cmd", "etd"), ("json", "y"), ("key", key), ("orig", orig)]
  {
    WithKeyQuery(key);
    AppendParamAs(UrlRoot + "&key=" + key, "&orig=", "orig", orig);
  }

  lemma WithLastQuery(key: string, orig: string, sep: string, name: string, value: string)
    requires sep == "&" + name + "="
    requires IsValue(key) && IsValue(orig) && IsName(name) && IsValue(value)
    ensures QueryParams(UrlRoot + "&key=" + key + "&orig=" + orig + sep + value)
      == [("cmd", "etd"), ("json", "y"), ("key", key), ("orig", orig), (name, value)]
  {
    WithOriginQuery(key, orig);
    AppendParamAs(UrlRoot + "&key=" + key + "&orig=" + orig, sep, name, value);
  }

  /** Every station: the key and "orig=ALL", and no direction or platform. */
  lemma OriginAllParams(key: Option<string>, publicKey: string)
    requires IsValue(KeyOr(key, publicKey))
    ensures QueryParams(Url(OriginAll, key, publicKey))
      == [("cmd", "etd"), ("json", "y"), ("key", KeyOr(key, publicKey)), ("orig", "ALL")]
  {
    WithKeyQuery(KeyOr(key, publicKey));
    AppendFixedParam(UrlRoot + "&key=" + KeyOr(key, publicKey), "&orig=ALL", "orig", "ALL");
  }

  /** One station and a direction: its abbreviation, then the direction's code. */
  lemma DirectionParams(station: Stations.Station, direction: Directions.Direction, key: Option<string>, publicKey: string)
    requires IsValue(KeyOr(key, publicKey))
    ensures QueryParams(Url(OriginAndDirectionOrPlatform(station, Direction(direction)), key, publicKey))
      == [("cmd", "etd"), ("json", "y"), ("key", KeyOr(key, publicKey)),
          ("orig", Stations.ToAbbr(station)), ("dir", Directions.ToCode(direction))]
  {
    Stations.AbbrIsQuerySafe(station);
    Directions.CodeIsQuerySafe(direction);
    WithLastQuery(KeyOr(key, publicKey), Stations.ToAbbr(station), "&dir=", "dir", Directions.ToCode(direction));
  }

  /** One station and a platform: its abbreviation, then the platform's number. */
  lemma PlatformParams(station: Stations.Station, platform: EtdOptionsPlatform, key: Option<string>, publicKey: string)
    requires IsValue(KeyOr(key, publicKey))
    ensures QueryParams(Url(OriginAndDirectionOrPlatform(station, Platform(platform)), key, publicKey))
      == [("cmd", "etd"), ("json", "y"), ("key", KeyOr(key, publicKey)),
          ("orig", Stations.ToAbbr(station)), ("plat", NatToString(PlatformNumber(platform)))]
  {
    Stations.AbbrIsQuerySafe(station);
    NumeralIsQuerySafe(NatToString(PlatformNumber(platform)));
    WithLastQuery(KeyOr(key, publicKey), Stations.ToAbbr(station), "&plat=", "plat", NatToString(PlatformNumber(platform)));
  }

  /** For every station neither "dir" nor "plat" is sent; for one station exactly one of them. */
  lemma DirectionXorPlatform(options: EtdOptions, key: Option<string>, publicKey: string)
    requires IsValue(KeyOr(key, publicKey))
    ensures options.OriginAll? ==>
      forall p :: p in QueryParams(Url(options, key, publicKey)) ==> p.0 != "dir" && p.0 != "plat"
    ensures options.OriginAndDirectionOrPlatform? && options.directionOrPlatform.Direction? ==>
      ("dir", Directions.ToCode(options.directionOrPlatform.direction)) in QueryParams(Url(options, key, publicKey))
      && forall p :: p in QueryParams(Url(options, key, publicKey)) ==> p.0 != "plat"
    ensures options.OriginAndDirectionOrPlatform? && options.directionOrPlatform.Platform? ==>
      ("plat", NatToString(PlatformNumber(options.directionOrPlatform.platform))) in QueryParams(Url(options, key, publicKey))
      && forall p :: p in QueryParams(Url(options, key, publicKey)) ==> p.0 != "dir"
  {
    match options
    case OriginAll => OriginAllParams(key, publicKey);
    case OriginAndDirectionOrPlatform(station, Direction(direction)) => DirectionParams(station, direction, key, publicKey);
    case OriginAndDirectionOrPlatform(station, Platform(platform)) => PlatformParams(station, platform, key, publicKey);
  }

  /** The platform numbers sent are "1" to "4". */
  lemma PlatformNumbers(platform: EtdOptionsPlatform)
    ensures NatToString(PlatformNumber(platform)) in ["1", "2", "3", "4"]
  {
    assert NatToString(1) == "1" && NatToString(2) == "2" && NatToString(3) == "3" && NatToString(4) == "4";
  }
}
