/** Train directions (src/client/constants/direction.rs): a one-letter code used
    in URLs and a full name. */
module Directions {
  import opened Wrappers
  import opened SerdeHelpers

  datatype Direction = Northbound | Southbound

  const DirectionError := "Does not match any direction"

  /** The URL code: a single lower-case letter. */
  function ToCode(d: Direction): (r: string)
    ensures |r| == 1 && 'a' <= r[0] <= 'z'
  {
    match d
    case Northbound => "n"
    case Southbound => "s"
  }

  /** The full name: longer than a code. */
  function ToFull(d: Direction): (r: string)
    ensures |r| == 5
  {
    match d
    case Northbound => "North"
    case Southbound => "South"
  }

  /** `Direction::from_code`, compared exactly. */
  function FromCode(code: string): (r: Result<Direction>)
    ensures r.Ok? ==> ToCode(r.value) == code
    ensures r.Err? ==> r.error == DirectionError && forall d :: ToCode(d) != code
  {
    match code
    case "n" => Ok(Northbound)
    case "s" => Ok(Southbound)
    case _ => Err(DirectionError)
  }

  /** `Direction::from_full`, compared exactly. */
  function FromFull(full: string): (r: Result<Direction>)
    ensures r.Ok? ==> ToFull(r.value) == full
    ensures r.Err? ==> r.error == DirectionError && forall d :: ToFull(d) != full
  {
    match full
    case "North" => Ok(Northbound)
    case "South" => Ok(Southbound)
    case _ => Err(DirectionError)
  }

  /** `TryFrom<String>`: the code, else the full name. */
  function TryFrom(str: string): (r: Result<Direction>)
    ensures r.Ok? ==> ToCode(r.value) == str || ToFull(r.value) == str
    ensures r.Err? ==> r.error == DirectionError && forall d :: ToCode(d) != str && ToFull(d) != str
  {
    var code := FromCode(str);
    if code.Ok? then Ok(code.value)
    else
      var full := FromFull(str);
      if full.Ok? then Ok(full.value)
      else Err(DirectionError)
  }

  /** `Serialize`: the code. */
  function Serialize(d: Direction): (v: Value)
    ensures v.Str? && v.s == ToCode(d)
  {
    Str(ToCode(d))
  }

  /** `Deserialize`: a string, read with `TryFrom`. */
  function Deserialize(v: Value): (r: Result<Direction>)
    ensures !v.Str? ==> r.Err?
    ensures v.Str? ==> r == TryFrom(v.s)
  {
    var str :- DeserializeString(v);
    TryFrom(str)
  }

  lemma RoundTrips(d: Direction)
    ensures FromCode(ToCode(d)) == Ok(d) && FromFull(ToFull(d)) == Ok(d)
    ensures TryFrom(ToCode(d)) == Ok(d) && TryFrom(ToFull(d)) == Ok(d)
    ensures Deserialize(Serialize(d)) == Ok(d)
  {
  }

  /** A code is a safe URL query value. */
  lemma CodeIsQuerySafe(d: Direction)
    ensures '&' !in ToCode(d) && '=' !in ToCode(d) && '?' !in ToCode(d)
  {
  }

  /** Distinct directions have distinct codes and distinct full names. */
  lemma Injective(d1: Direction, d2: Direction)
    ensures ToCode(d1) == ToCode(d2) ==> d1 == d2
    ensures ToFull(d1) == ToFull(d2) ==> d1 == d2
  {
    RoundTrips(d1);
    RoundTrips(d2);
  }

  /** The match is case-sensitive. */
  lemma CaseMatters()
    ensures FromCode("N").Err? && FromFull("north").Err? && TryFrom("NORTH").Err?
  {
  }
}
