/** The custom serde field parsers of the client (src/client/serde_helpers), over
    a small model of what a serde `Deserializer` hands over: a string, an object
    (a JSON object, as the XML-as-JSON responses use), an array, or any other value. */
module SerdeHelpers {
  import opened Wrappers
  import opened Decimal

  datatype Value = Str(s: string) | Obj(fields: map<string, Value>) | Seq(items: seq<Value>) | Other

  const CdataKey := "#cdata-section"

  /** `String::deserialize`: only a string value is a string. */
  function DeserializeString(v: Value): (r: Result<string>)
    ensures r.Ok? <==> v.Str?
    ensures r.Ok? ==> r.value == v.s
  {
    match v
    case Str(s) => Ok(s)
    case _ => Err("invalid type: not a string")
  }

  /** `from_str`: deserialize a string, then hand it to the type's `FromStr` (here the `parse` argument). */
  function FromStr<T>(v: Value, parse: string -> Result<T>): (r: Result<T>)
    ensures !v.Str? ==> r.Err?
    ensures v.Str? ==> (r.Ok? <==> parse(v.s).Ok?)
    ensures r.Ok? ==> r == parse(v.s)
  {
    var s :- DeserializeString(v);
    parse(s)
  }

  /** `bool_from_number_str`: a u8 numeral, true when it is not 0. */
  function BoolFromNumberStr(v: Value): (r: Result<bool>)
    ensures r.Ok? <==> v.Str? && IsLiteral(v.s, false) && LiteralValue(v.s, false) < 0x100
    ensures r.Ok? ==> (r.value <==> LiteralValue(v.s, false) != 0)
  {
    var s :- DeserializeString(v);
    var number :- ParseU8(s);
    Ok(number != 0)
  }

  /** `deserialize_option`: a failing inner deserializer yields `None`, never an error. */
  function DeserializeOption<T>(v: Value, deserialize: Value -> Result<T>): (r: Result<Option<T>>)
    ensures r.Ok?
    ensures r.value.Some? <==> deserialize(v).Ok?
    ensures r.value.Some? ==> r.value.value == deserialize(v).value
  {
    var inner := deserialize(v);
    if inner.Ok? then Ok(Some(inner.value)) else Ok(None)
  }

  /** `extract_cdata_section`: the derived `Deserialize` of a one-field struct. Its map
      form is the string stored under "#cdata-section" of an object; other fields are
      ignored, as serde does for a struct without `deny_unknown_fields`. Its sequence
      form is an array of exactly one string (the JSON deserializers reject an array
      with elements left over). */
  function ExtractCdataSection(v: Value): (r: Result<string>)
    ensures r.Ok? <==> (v.Obj? && CdataKey in v.fields && v.fields[CdataKey].Str?)
                       || (v.Seq? && |v.items| == 1 && v.items[0].Str?)
    ensures r.Ok? && v.Obj? ==> r.value == v.fields[CdataKey].s
    ensures r.Ok? && v.Seq? ==> r.value == v.items[0].s
  {
    match v
    case Obj(fields) =>
      if CdataKey !in fields then Err("missing field `#cdata-section`")
      else DeserializeString(fields[CdataKey])
    case Seq(items) =>
      if |items| == 0 then Err("invalid length 0, expected struct CDATASection with 1 element")
      else if |items| > 1 then Err("trailing elements in array")
      else DeserializeString(items[0])
    case _ => Err("invalid type: not a CDATA section")
  }

  lemma BoolFromNumberStrExamples()
    ensures BoolFromNumberStr(Str("0")) == Ok(false)
    ensures BoolFromNumberStr(Str("1")) == Ok(true)
    ensures BoolFromNumberStr(Str("+7")) == Ok(true)
    ensures BoolFromNumberStr(Str("")) == Err(EmptyError)
    ensures BoolFromNumberStr(Str("-0")).Err?
    ensures BoolFromNumberStr(Str("256")) == Err(PosOverflowError)
    ensures BoolFromNumberStr(Str("yes")) == Err(InvalidDigitError)
  {
    assert Magnitude("0", false) == "0";
    assert Magnitude("1", false) == "1";
    assert Magnitude("+7", false) == "7";
    assert DigitsValue("0") == 0;
    assert DigitsValue("1") == 1;
    assert DigitsValue("7") == 7;
    assert "256"[1..] == "56";
    assert "56"[1..] == "6";
    assert "6"[1..] == "";
  }
}
