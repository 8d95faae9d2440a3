/** Fare types (src/client/constants/fare_type.rs): a lower-case code and a
    display name. The two look-ups report different errors, and `TryFrom`
    reports the name look-up's. */
module FareTypes {
  import opened Wrappers
  import opened SerdeHelpers

  datatype FareType = Clipper | Cash | RtcClipper | Student

  const CodeError := "Does not match any fare type"
  const FullError := "Does not match fare type"

  /** The code: lower-case letters only. */
  function ToCode(f: FareType): (r: string)
    ensures r != [] && forall i :: 0 <= i < |r| ==> 'a' <= r[i] <= 'z'
  {
    match f
    case Clipper => "clipper"
    case Cash => "cash"
    case RtcClipper => "rtcclipper"
    case Student => "student"
  }

  /** The display name: it starts with a capital, so it is never a code. */
  function ToFull(f: FareType): (r: string)
    ensures r != [] && 'A' <= r[0] <= 'Z'
  {
    match f
    case Clipper => "Clipper"
    case Cash => "BART Blue Ticket"
    case RtcClipper => "Senior/Disabled Clipper"
    case Student => "Youth Clipper"
  }

  /** `FareType::from_code`, compared exactly. */
  function FromCode(code: string): (r: Result<FareType>)
    ensures r.Ok? ==> ToCode(r.value) == code
    ensures r.Err? ==> r.error == CodeError && forall f :: ToCode(f) != code
  {
    match code
    case "clipper" => Ok(Clipper)
    case "cash" => Ok(Cash)
    case "rtcclipper" => Ok(RtcClipper)
    case "student" => Ok(Student)
    case _ => Err(CodeError)
  }

  /** `FareType::from_full`, compared exactly. */
  function FromFull(full: string): (r: Result<FareType>)
    ensures r.Ok? ==> ToFull(r.value) == full
    ensures r.Err? ==> r.error == FullError && forall f :: ToFull(f) != full
  {
    match full
    case "Clipper" => Ok(Clipper)
    case "BART Blue Ticket" => Ok(Cash)
    case "Senior/Disabled Clipper" => Ok(RtcClipper)
    case "Youth Clipper" => Ok(Student)
    case _ => Err(FullError)
  }

  /** `TryFrom<String>`: the code, else the display name, whose error it reports. */
  function TryFrom(str: string): (r: Result<FareType>)
    ensures r.Ok? ==> ToCode(r.value) == str || ToFull(r.value) == str
    ensures r.Err? ==> r.error == FullError && forall f :: ToCode(f) != str && ToFull(f) != str
  {
    var code := FromCode(str);
    if code.Ok? then Ok(code.value)
    else FromFull(str)
  }

  /** `Serialize`: the code. */
  function Serialize(f: FareType): (v: Value)
    ensures v.Str? && v.s == ToCode(f)
  {
    Str(ToCode(f))
  }

  /** `Deserialize`: a string, read with `TryFrom`. */
  function Deserialize(v: Value): (r: Result<FareType>)
    ensures !v.Str? ==> r.Err?
    ensures v.Str? ==> r == TryFrom(v.s)
  {
    var str :- DeserializeString(v);
    TryFrom(str)
  }

  lemma RoundTrips(f: FareType)
    ensures FromCode(ToCode(f)) == Ok(f) && FromFull(ToFull(f)) == Ok(f)
    ensures TryFrom(ToCode(f)) == Ok(f) && TryFrom(ToFull(f)) == Ok(f)
    ensures Deserialize(Serialize(f)) == Ok(f)
  {
  }

  /** The code "clipper" and the name "Clipper" differ only in case; each look-up takes only its own. */
  lemma CaseMatters()
    ensures FromCode("Clipper").Err? && FromFull("clipper").Err?
    ensures TryFrom("CLIPPER") == Err(FullError)
  {
  }

  /** Distinct fare types have distinct codes and distinct display names. */
  lemma Injective(f1: FareType, f2: FareType)
    ensures ToCode(f1) == ToCode(f2) ==> f1 == f2
    ensures ToFull(f1) == ToFull(f2) ==> f1 == f2
  {
    RoundTrips(f1);
    RoundTrips(f2);
  }
}
