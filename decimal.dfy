/** Decimal integers as Rust's standard library reads and writes them:
    `i32::from_str` / `u8::from_str` (radix 10) and `Display` for integers.
    Rust's fixed-width integer types are subset types of `int` here. */
module Decimal {
  import opened Wrappers
  import opened Ascii

  newtype u8 = x: int | 0 <= x < 0x100
  newtype i32 = x: int | -0x8000_0000 <= x < 0x8000_0000

  /** The Display texts of `core::num::ParseIntError`. */
  const EmptyError := "cannot parse integer from empty string"
  const InvalidDigitError := "invalid digit found in string"
  const PosOverflowError := "number too large to fit in target type"
  const NegOverflowError := "number too small to fit in target type"

  predicate AllDigits(s: string) {
    forall i :: 0 <= i < |s| ==> IsDigit(s[i])
  }

  function DigitOf(c: char): (d: nat)
    requires IsDigit(c)
    ensures d < 10
  {
    c as int - '0' as int
  }

  function DigitChar(d: nat): (c: char)
    requires d < 10
    ensures IsDigit(c) && DigitOf(c) == d
  {
    ('0' as int + d) as char
  }

  function Pow10(n: nat): (p: nat)
    ensures p >= 1
  {
    if n == 0 then 1 else 10 * Pow10(n - 1)
  }

  /** The value of a string of digits, read as a base-10 numeral. */
  function DigitsValue(s: string): nat
    requires AllDigits(s)
  {
    if s == [] then 0 else DigitsValue(s[..|s| - 1]) * 10 + DigitOf(s[|s| - 1])
  }

  /** Reading a numeral from the front: the leading digit weighs 10^(remaining digits). */
  lemma {:induction false} DigitsValueCons(c: char, r: string)
    requires IsDigit(c) && AllDigits(r)
    ensures AllDigits([c] + r)
    ensures DigitsValue([c] + r) == DigitOf(c) * Pow10(|r|) + DigitsValue(r)
  {
    var s := [c] + r;
    AllDigitsCons(c, r);
    if r != [] {
      var r' := r[..|r| - 1];
      assert s[..|s| - 1] == [c] + r';
      assert s[|s| - 1] == r[|r| - 1];
      DigitsValueCons(c, r');
      ShiftDigit(DigitOf(c), Pow10(|r'|), DigitsValue(r'), DigitOf(r[|r| - 1]));
    }
  }

  lemma AllDigitsCons(c: char, r: string)
    requires IsDigit(c) && AllDigits(r)
    ensures AllDigits([c] + r)
  {
    var s := [c] + r;
    forall i | 0 <= i < |s| ensures IsDigit(s[i]) {
      if i > 0 { assert s[i] == r[i - 1]; }
    }
  }

  /** One more digit on the right multiplies the weight of the leading digit by ten. */
  lemma ShiftDigit(d: int, p: int, x: int, e: int)
    ensures (d * p + x) * 10 + e == d * (10 * p) + (x * 10 + e)
  {
  }

  // ----- parsing: core::num::from_str_radix with radix 10 -----

  /** The digit loop of `from_str_radix`: each byte is first checked to be a
      digit, then folded into the accumulator with an overflow check. */
  function Accumulate(digits: string, acc: int, positive: bool, min: int, max: int): Result<int>
    decreases |digits|
  {
    if digits == [] then Ok(acc)
    else if !IsDigit(digits[0]) then Err(InvalidDigitError)
    else if positive then
      var next := acc * 10 + DigitOf(digits[0]);
      if next > max then Err(PosOverflowError) else Accumulate(digits[1..], next, positive, min, max)
    else
      var next := acc * 10 - DigitOf(digits[0]);
      if next < min then Err(NegOverflowError) else Accumulate(digits[1..], next, positive, min, max)
  }

  /** `from_str_radix(s, 10)` for an integer type with range [min, max]; `signed`
      says whether a leading '-' is accepted. */
  function ParseInt(s: string, signed: bool, min: int, max: int): Result<int>
  {
    if s == [] then Err(EmptyError)
    else if (s[0] == '+' || s[0] == '-') && |s| == 1 then Err(InvalidDigitError)
    else if s[0] == '+' then Accumulate(s[1..], 0, true, min, max)
    else if s[0] == '-' && signed then Accumulate(s[1..], 0, false, min, max)
    else Accumulate(s, 0, true, min, max)
  }

  /** The digits of a numeral after its optional sign. */
  function Magnitude(s: string, signed: bool): string
  {
    if s != [] && (s[0] == '+' || (signed && s[0] == '-')) then s[1..] else s
  }

  /** The syntax `from_str` accepts: an optional '+' (or '-' when signed), then one or more digits. */
  predicate IsLiteral(s: string, signed: bool)
  {
    var m := Magnitude(s, signed);
    m != [] && AllDigits(m)
  }

  /** The mathematical value of a literal. */
  function LiteralValue(s: string, signed: bool): int
    requires IsLiteral(s, signed)
  {
    var v: int := DigitsValue(Magnitude(s, signed));
    if signed && s[0] == '-' then -v else v
  }

  lemma AllDigitsTail(ds: string)
    requires ds != [] && IsDigit(ds[0])
    ensures AllDigits(ds) <==> AllDigits(ds[1..])
  {
    assert forall i :: 0 <= i < |ds[1..]| ==> ds[1..][i] == ds[i + 1];
  }

  /** Folding the leading digit into the accumulator keeps the value being read. */
  lemma {:induction false} FoldStep(ds: string, acc: int, sign: int)
    requires ds != [] && AllDigits(ds) && (sign == 1 || sign == -1)
    ensures AllDigits(ds[1..])
    ensures acc * Pow10(|ds|) + sign * DigitsValue(ds)
         == (acc * 10 + sign * DigitOf(ds[0])) * Pow10(|ds| - 1) + sign * DigitsValue(ds[1..])
  {
    AllDigitsTail(ds);
    var rest := ds[1..];
    assert ds == [ds[0]] + rest;
    DigitsValueCons(ds[0], rest);
    var d, p, x := DigitOf(ds[0]), Pow10(|rest|), DigitsValue(rest);
    assert Pow10(|ds|) == 10 * p;
    assert DigitsValue(ds) == d * p + x;
    FoldArith(acc, d, p, x, sign);
  }

  lemma FoldArith(acc: int, d: int, p: int, x: int, sign: int)
    requires sign == 1 || sign == -1
    ensures acc * (10 * p) + sign * (d * p + x) == (acc * 10 + sign * d) * p + sign * x
  {
    assert (acc * 10 + sign * d) * p == acc * 10 * p + sign * d * p;
    assert acc * (10 * p) == acc * 10 * p;
    if sign == 1 {
      assert sign * (d * p + x) == d * p + x;
    } else {
      assert sign * (d * p + x) == -(d * p) - x;
      assert sign * d * p == -(d * p);
    }
  }

  lemma MulAtLeast(a: int, p: nat)
    requires a >= 0 && p >= 1
    ensures a * p >= a
  {
  }

  lemma MulAtMost(a: int, p: nat)
    requires a <= 0 && p >= 1
    ensures a * p <= a
  {
  }

  lemma {:induction false} AccumulatePositive(ds: string, acc: int, min: int, max: int)
    requires 0 <= acc <= max
    ensures Accumulate(ds, acc, true, min, max).Ok? <==>
              AllDigits(ds) && acc * Pow10(|ds|) + DigitsValue(ds) <= max
    ensures Accumulate(ds, acc, true, min, max).Ok? ==>
              Accumulate(ds, acc, true, min, max).value == acc * Pow10(|ds|) + DigitsValue(ds)
    decreases |ds|
  {
    if ds != [] && IsDigit(ds[0]) {
      var next := acc * 10 + DigitOf(ds[0]);
      AllDigitsTail(ds);
      if AllDigits(ds) {
        FoldStep(ds, acc, 1);
        MulAtLeast(next, Pow10(|ds| - 1));
      }
      if next <= max {
        AccumulatePositive(ds[1..], next, min, max);
      }
    }
  }

  lemma {:induction false} AccumulateNegative(ds: string, acc: int, min: int, max: int)
    requires min <= acc <= 0
    ensures Accumulate(ds, acc, false, min, max).Ok? <==>
              AllDigits(ds) && acc * Pow10(|ds|) - DigitsValue(ds) >= min
    ensures Accumulate(ds, acc, false, min, max).Ok? ==>
              Accumulate(ds, acc, false, min, max).value == acc * Pow10(|ds|) - DigitsValue(ds)
    decreases |ds|
  {
    if ds != [] && IsDigit(ds[0]) {
      var next := acc * 10 - DigitOf(ds[0]);
      AllDigitsTail(ds);
      if AllDigits(ds) {
        FoldStep(ds, acc, -1);
        MulAtMost(next, Pow10(|ds| - 1));
      }
      if next >= min {
        AccumulateNegative(ds[1..], next, min, max);
      }
    }
  }

  /** `from_str` succeeds exactly on literals whose value is in range, and then returns that value. */
  lemma ParseIntCorrect(s: string, signed: bool, min: int, max: int)
    requires min <= 0 <= max
    ensures ParseInt(s, signed, min, max).Ok? <==> IsLiteral(s, signed) && min <= LiteralValue(s, signed) <= max
    ensures ParseInt(s, signed, min, max).Ok? ==> ParseInt(s, signed, min, max).value == LiteralValue(s, signed)
  {
    if s != [] && !((s[0] == '+' || s[0] == '-') && |s| == 1) {
      var m := Magnitude(s, signed);
      if signed && s[0] == '-' {
        AccumulateNegative(m, 0, min, max);
      } else {
        AccumulatePositive(m, 0, min, max);
        if AllDigits(m) { assert DigitsValue(m) >= 0; }
      }
    }
  }

  function ParseI32(s: string): (r: Result<i32>)
    ensures r.Ok? <==> IsLiteral(s, true) && -0x8000_0000 <= LiteralValue(s, true) < 0x8000_0000
    ensures r.Ok? ==> r.value as int == LiteralValue(s, true)
  {
    ParseIntCorrect(s, true, -0x8000_0000, 0x7FFF_FFFF);
    var v :- ParseInt(s, true, -0x8000_0000, 0x7FFF_FFFF);
    Ok(v as i32)
  }

  function ParseU8(s: string): (r: Result<u8>)
    ensures r.Ok? <==> IsLiteral(s, false) && LiteralValue(s, false) < 0x100
    ensures r.Ok? ==> r.value as int == LiteralValue(s, false)
  {
    ParseIntCorrect(s, false, 0, 0xFF);
    var v :- ParseInt(s, false, 0, 0xFF);
    Ok(v as u8)
  }

  // ----- printing: Display for integers -----

  /** The shortest base-10 numeral of `n`. */
  function NatToString(n: nat): (r: string)
    ensures r != [] && AllDigits(r) && DigitsValue(r) == n
    ensures |r| > 1 ==> r[0] != '0'
  {
    if n < 10 then [DigitChar(n)]
    else
      var init := NatToString(n / 10);
      var r := init + [DigitChar(n % 10)];
      assert r[..|r| - 1] == init;
      r
  }

  /** `Display` for a signed integer: a '-' before the magnitude of a negative number. */
  function IntToString(n: int): (r: string)
    ensures IsLiteral(r, true) && LiteralValue(r, true) == n
    ensures r != [] && (r[0] == '-' <==> n < 0)
  {
    if n < 0 then
      var m := NatToString(-n);
      assert ("-" + m)[1..] == m;
      "-" + m
    else NatToString(n)
  }

  /** Zero-padded numeral of at least `width` digits (Rust's zero-padded width format). */
  function PadNat(n: nat, width: nat): (r: string)
    ensures AllDigits(r) && DigitsValue(r) == n
    ensures |r| == if |NatToString(n)| < width then width else |NatToString(n)|
  {
    var digits := NatToString(n);
    if |digits| >= width then digits else Zeros(width - |digits|, digits)
  }

  function Zeros(k: nat, digits: string): (r: string)
    requires AllDigits(digits)
    ensures AllDigits(r) && DigitsValue(r) == DigitsValue(digits) && |r| == k + |digits|
  {
    if k == 0 then digits
    else
      var r := Zeros(k - 1, digits);
      DigitsValueCons('0', r);
      ['0'] + r
  }

  /** Printing then parsing an i32 gives it back. */
  lemma ParseI32OfToString(n: i32)
    ensures ParseI32(IntToString(n as int)) == Ok(n)
  {
  }

  /** Printing then parsing a u8 gives it back. */
  lemma ParseU8OfToString(n: u8)
    ensures ParseU8(NatToString(n as nat)) == Ok(n)
  {
    var s := NatToString(n as nat);
    assert Magnitude(s, false) == s;
  }

  /** A numeral contains none of the characters that delimit a URL query. */
  lemma NumeralIsQuerySafe(s: string)
    requires AllDigits(s)
    ensures '&' !in s && '=' !in s && '?' !in s
  {
    assert forall i :: 0 <= i < |s| ==> IsDigit(s[i]);
  }

  // ----- fixed-width numerals -----

  /** A numeral of `k` digits is below 10^k. */
  lemma {:induction false} DigitsValueBound(s: string)
    requires AllDigits(s)
    ensures DigitsValue(s) < Pow10(|s|)
  {
    if s != [] {
      DigitsValueBound(s[..|s| - 1]);
    }
  }

  /** Two numerals of the same length and value are the same string. */
  lemma {:induction false} DigitsInjective(a: string, b: string)
    requires AllDigits(a) && AllDigits(b) && |a| == |b|
    requires DigitsValue(a) == DigitsValue(b)
    ensures a == b
  {
    if a != [] {
      var a', b' := a[..|a| - 1], b[..|b| - 1];
      var x, y := DigitOf(a[|a| - 1]), DigitOf(b[|b| - 1]);
      assert DigitsValue(a) == DigitsValue(a') * 10 + x;
      assert DigitsValue(b) == DigitsValue(b') * 10 + y;
      assert x == y && DigitsValue(a') == DigitsValue(b') by {
        DivMod10(DigitsValue(a'), x);
        DivMod10(DigitsValue(b'), y);
      }
      DigitsInjective(a', b');
      assert a == a' + [a[|a| - 1]] && b == b' + [b[|b| - 1]];
    }
  }

  lemma DivMod10(q: nat, d: nat)
    requires d < 10
    ensures (q * 10 + d) % 10 == d && (q * 10 + d) / 10 == q
  {
  }

  /** A number below 10^k prints in at most `k` digits. */
  lemma {:induction false} NatToStringLength(n: nat, k: nat)
    requires 1 <= k && n < Pow10(k)
    ensures |NatToString(n)| <= k
  {
    if n >= 10 {
      assert n / 10 < Pow10(k - 1);
      NatToStringLength(n / 10, k - 1);
    }
  }

  /** A number below 10^w padded to width `w` is exactly `w` digits wide. */
  lemma PadNatWidth(n: nat, width: nat)
    requires 1 <= width && n < Pow10(width)
    ensures |PadNat(n, width)| == width
  {
    NatToStringLength(n, width);
  }

  /** Reading a numeral and printing it back at its own width gives the numeral. */
  lemma PadNatOfDigits(s: string)
    requires s != [] && AllDigits(s)
    ensures PadNat(DigitsValue(s), |s|) == s
  {
    DigitsValueBound(s);
    PadNatWidth(DigitsValue(s), |s|);
    DigitsInjective(PadNat(DigitsValue(s), |s|), s);
  }
}
