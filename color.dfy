/** Line colours of the BART network (src/client/constants/color.rs): a hex code
    and an upper-case name. The API reports the purple line with an empty name
    as well as with "PURPLE". */
module Colors {
  import opened Wrappers
  import opened SerdeHelpers

  datatype Color = Yellow | Orange | Green | Red | Blue | Beige | Purple | White

  const ColorError := "Does not match any color"

  /** The hex code: '#' and six lower-case hex digits. */
  function ToCode(c: Color): (r: string)
    ensures |r| == 7 && r[0] == '#'
  {
    match c
    case Yellow => "#ffff33"
    case Orange => "#ff9933"
    case Green => "#339933"
    case Red => "#ff0000"
    case Blue => "#0099cc"
    case Purple => "#c463c5"
    case Beige => "#d5cfa3"
    case White => "#ffffff"
  }

  /** The name: a non-empty word of capitals, so never a hex code. */
  function ToFull(c: Color): (r: string)
    ensures r != [] && 'A' <= r[0] <= 'Z'
  {
    match c
    case Yellow => "YELLOW"
    case Orange => "ORANGE"
    case Green => "GREEN"
    case Red => "RED"
    case Blue => "BLUE"
    case Purple => "PURPLE"
    case Beige => "BEIGE"
    case White => "WHITE"
  }

  /** `Color::from_code`: the colour whose hex code is `code`, compared exactly. */
  function FromCode(code: string): (r: Result<Color>)
    ensures r.Ok? ==> ToCode(r.value) == code
    ensures r.Err? ==> r.error == ColorError && forall c :: ToCode(c) != code
  {
    match code
    case "#ffff33" => Ok(Yellow)
    case "#ff9933" => Ok(Orange)
    case "#339933" => Ok(Green)
    case "#ff0000" => Ok(Red)
    case "#0099cc" => Ok(Blue)
    case "#c463c5" => Ok(Purple)
    case "#d5cfa3" => Ok(Beige)
    case "#ffffff" => Ok(White)
    case _ => Err(ColorError)
  }

  /** `Color::from_full`: the colour named `full`; the empty name also means purple. */
  function FromFull(full: string): (r: Result<Color>)
    ensures r.Ok? ==> ToFull(r.value) == full || (full == "" && r.value == Purple)
    ensures r.Err? ==> r.error == ColorError && full != "" && forall c :: ToFull(c) != full
  {
    match full
    case "YELLOW" => Ok(Yellow)
    case "ORANGE" => Ok(Orange)
    case "GREEN" => Ok(Green)
    case "RED" => Ok(Red)
    case "BLUE" => Ok(Blue)
    case "" => Ok(Purple)
    case "PURPLE" => Ok(Purple)
    case "BEIGE" => Ok(Beige)
    case "WHITE" => Ok(White)
    case _ => Err(ColorError)
  }

  /** `TryFrom<String>`: the hex code, else the name; failing both, the name's error. */
  function TryFrom(str: string): (r: Result<Color>)
    ensures r.Ok? ==> ToCode(r.value) == str || ToFull(r.value) == str || (str == "" && r.value == Purple)
    ensures r.Err? ==> r.error == ColorError
    ensures r.Err? ==> str != "" && forall c :: ToCode(c) != str && ToFull(c) != str
  {
    var code := FromCode(str);
    if code.Ok? then Ok(code.value)
    else FromFull(str)
  }

  /** `Serialize`: the hex code. */
  function Serialize(c: Color): (v: Value)
    ensures v.Str? && v.s == ToCode(c)
  {
    Str(ToCode(c))
  }

  /** `Deserialize`: a string, read with `TryFrom`. */
  function Deserialize(v: Value): (r: Result<Color>)
    ensures !v.Str? ==> r.Err?
    ensures v.Str? ==> r == TryFrom(v.s)
  {
    var str :- DeserializeString(v);
    TryFrom(str)
  }

  lemma CodeRoundTrip(c: Color)
    ensures FromCode(ToCode(c)) == Ok(c)
  {
  }

  lemma FullRoundTrip(c: Color)
    ensures FromFull(ToFull(c)) == Ok(c)
  {
  }

  /** The empty name is purple, and so is "PURPLE". */
  lemma EmptyNameIsPurple()
    ensures FromFull("") == Ok(Purple) && FromFull("PURPLE") == Ok(Purple)
    ensures TryFrom("") == Ok(Purple)
  {
  }

  /** Distinct colours have distinct codes and distinct names. */
  lemma Injective(c1: Color, c2: Color)
    ensures ToCode(c1) == ToCode(c2) ==> c1 == c2
    ensures ToFull(c1) == ToFull(c2) ==> c1 == c2
  {
    CodeRoundTrip(c1);
    CodeRoundTrip(c2);
    FullRoundTrip(c1);
    FullRoundTrip(c2);
  }

  /** `TryFrom` accepts each code and each name. */
  lemma TryFromRoundTrip(c: Color)
    ensures TryFrom(ToCode(c)) == Ok(c)
    ensures TryFrom(ToFull(c)) == Ok(c)
  {
    CodeRoundTrip(c);
    FullRoundTrip(c);
  }

  lemma SerdeRoundTrip(c: Color)
    ensures Deserialize(Serialize(c)) == Ok(c)
  {
    TryFromRoundTrip(c);
  }
}
