/** The kind of a BART service advisory (src/client/apis/advisories/bsa/type.rs). */
module BsaTypes {
  import opened Wrappers
  import opened SerdeHelpers

  datatype BsaType = Delay | Emergency

  const BsaTypeError := "Does not match any BSA type"

  function ToCode(t: BsaType): (r: string)
    ensures r != [] && forall i :: 0 <= i < |r| ==> 'A' <= r[i] <= 'Z'
  {
    match t
    case Delay => "DELAY"
    case Emergency => "EMERGENCY"
  }

  /** `BsaType::from_code` (and `TryFrom<String>`), compared exactly. */
  function FromCode(code: string): (r: Result<BsaType>)
    ensures r.Ok? ==> ToCode(r.value) == code
    ensures r.Err? ==> r.error == BsaTypeError && forall t :: ToCode(t) != code
  {
    match code
    case "DELAY" => Ok(Delay)
    case "EMERGENCY" => Ok(Emergency)
    case _ => Err(BsaTypeError)
  }

  /** `Serialize`: the code. */
  function Serialize(t: BsaType): (v: Value)
    ensures v.Str? && v.s == ToCode(t)
  {
    Str(ToCode(t))
  }

  /** `Deserialize`: a string, read with `from_code`. */
  function Deserialize(v: Value): (r: Result<BsaType>)
    ensures !v.Str? ==> r.Err?
    ensures v.Str? ==> r == FromCode(v.s)
  {
    var str :- DeserializeString(v);
    FromCode(str)
  }

  lemma RoundTrips(t: BsaType)
    ensures FromCode(ToCode(t)) == Ok(t)
    ensures Deserialize(Serialize(t)) == Ok(t)
  {
  }

  /** The match is case-sensitive. */
  lemma CaseMatters()
    ensures FromCode("delay") == Err(BsaTypeError)
  {
  }
}
