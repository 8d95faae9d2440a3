/** Minutes until a departure (src/client/apis/real_time_estimates/etd/minutes.rs):
    the API sends "Leaving" or a number of minutes. */
module Minutes {
  import opened Wrappers
  import opened Decimal
  import opened SerdeHelpers

  datatype EtdEstimateMinutes = Leaving | Minutes(number: i32)

  const LeavingString := "Leaving"
  const LeavingNumber: i32 := 0
  const MinutesError := "Does not match \"Leaving\" or a number"

  /** `from_number`: a count of zero or less means the train is leaving. */
  function FromNumber(number: i32): (m: EtdEstimateMinutes)
    ensures m.Leaving? <==> number <= LeavingNumber
    ensures m.Minutes? ==> m.number == number
  {
    if number <= LeavingNumber then Leaving else Minutes(number)
  }

  /** `to_number`: "Leaving" counts as 0 minutes. */
  function ToNumber(m: EtdEstimateMinutes): (n: i32)
    ensures m.Leaving? ==> n == LeavingNumber
    ensures m.Minutes? ==> n == m.number
  {
    match m
    case Leaving => LeavingNumber
    case Minutes(number) => number
  }

  /** `from_string`: "Leaving", else an i32 numeral read with `from_number`. */
  function FromString(s: string): (r: Result<EtdEstimateMinutes>)
    ensures r.Ok? <==> s == LeavingString || ParseI32(s).Ok?
    ensures s == LeavingString ==> r == Ok(Leaving)
    ensures s != LeavingString && r.Ok? ==> r.value == FromNumber(ParseI32(s).value)
    ensures r.Err? ==> r.error == MinutesError
  {
    if s == LeavingString then Ok(Leaving)
    else
      var minutes := ParseI32(s);
      if minutes.Ok? then Ok(FromNumber(minutes.value))
      else Err(MinutesError)
  }

  /** `Display`: "Leaving", or the number in decimal. */
  function ToString(m: EtdEstimateMinutes): (s: string)
    ensures m.Leaving? ==> s == LeavingString
    ensures m.Minutes? ==> IsLiteral(s, true) && LiteralValue(s, true) == m.number as int
  {
    match m
    case Leaving => LeavingString
    case Minutes(number) => IntToString(number as int)
  }

  /** `TryFrom<String>` is `from_string`. */
  function TryFrom(s: string): (r: Result<EtdEstimateMinutes>)
    ensures r == FromString(s)
  {
    FromString(s)
  }

  /** `Serialize`: the `Display` text. */
  function Serialize(m: EtdEstimateMinutes): (v: Value)
    ensures v.Str? && v.s == ToString(m)
  {
    Str(ToString(m))
  }

  /** `Deserialize`: a string, read with `from_string`. */
  function Deserialize(v: Value): (r: Result<EtdEstimateMinutes>)
    ensures !v.Str? ==> r.Err?
    ensures v.Str? ==> r == FromString(v.s)
  {
    var s :- DeserializeString(v);
    FromString(s)
  }

  /** Numbers past zero survive `from_number`; the rest collapse to 0. */
  lemma NumberRoundTrip(n: i32)
    ensures ToNumber(FromNumber(n)) == if n <= 0 then 0 else n
  {
  }

  /** `from_number` inverts `to_number` on every value it can produce. */
  lemma FromNumberOfToNumber(m: EtdEstimateMinutes)
    ensures FromNumber(ToNumber(m)) == m <==> m.Leaving? || m.number > 0
  {
  }

  /** Printing then reading gives back the value, normalised by `from_number`:
      `Minutes(0)` or a negative count reads back as `Leaving`. */
  lemma StringRoundTrip(m: EtdEstimateMinutes)
    ensures FromString(ToString(m)) == Ok(FromNumber(ToNumber(m)))
  {
    if m.Minutes? {
      var s := IntToString(m.number as int);
      ParseI32OfToString(m.number);
      assert s != LeavingString by { assert s[0] != 'L'; }
    }
  }

  lemma SerdeRoundTrip(m: EtdEstimateMinutes)
    ensures Deserialize(Serialize(m)) == Ok(FromNumber(ToNumber(m)))
  {
    StringRoundTrip(m);
  }

  lemma Examples()
    ensures FromString("Leaving") == Ok(Leaving)
    ensures FromString("0") == Ok(Leaving) && FromString("-4") == Ok(Leaving)
    ensures FromString("12") == Ok(Minutes(12))
    ensures FromString("leaving") == Err(MinutesError) && FromString("") == Err(MinutesError)
  {
    ParseI32OfToString(0);
    ParseI32OfToString(-4);
    ParseI32OfToString(12);
    assert IntToString(0) == "0";
    assert IntToString(-4) == "-4";
    assert IntToString(12) == "12";
    assert !IsLiteral("leaving", true) by { assert Magnitude("leaving", true) == "leaving"; assert !AllDigits("leaving") by { assert "leaving"[0] == 'l'; } }
  }
}
