/** The kind of an elevator advisory (src/client/apis/advisories/elev/type.rs). */
module ElevTypes {
  import opened Wrappers
  import opened SerdeHelpers

  datatype ElevType = Elevator

  const ElevTypeError := "Does not match any elevator type"

  function ToCode(t: ElevType): (r: string)
    ensures r != []
  {
    "ELEVATOR"
  }

  /** `ElevType::from_code` (and `TryFrom<String>`): only the exact code is accepted. */
  function FromCode(code: string): (r: Result<ElevType>)
    ensures r.Ok? <==> code == ToCode(Elevator)
    ensures r.Err? ==> r.error == ElevTypeError
  {
    match code
    case "ELEVATOR" => Ok(Elevator)
    case _ => Err(ElevTypeError)
  }

  /** `Serialize`: the code. */
  function Serialize(t: ElevType): (v: Value)
    ensures v.Str? && v.s == ToCode(t)
  {
    Str(ToCode(t))
  }

  /** `Deserialize`: a string, read with `from_code`. */
  function Deserialize(v: Value): (r: Result<ElevType>)
    ensures !v.Str? ==> r.Err?
    ensures v.Str? ==> r == FromCode(v.s)
  {
    var str :- DeserializeString(v);
    FromCode(str)
  }

  lemma RoundTrips(t: ElevType)
    ensures FromCode(ToCode(t)) == Ok(t)
    ensures Deserialize(Serialize(t)) == Ok(t)
  {
  }

  /** The match is case-sensitive. */
  lemma CaseMatters()
    ensures FromCode("elevator") == Err(ElevTypeError)
  {
  }
}
