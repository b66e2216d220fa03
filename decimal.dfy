/** Decimal octave numerals: the `0|[1-9]\d*` part of scientific notation,
    its conversion to an 8-bit octave, and the decimal rendering of an octave. */
module Decimal {

  import opened Results
  import opened Ascii

  /** The program stores octaves as `u8`. */
  newtype u8 = n: int | 0 <= n < 256

  predicate AllDigits(d: string) {
    forall i | 0 <= i < |d| :: IsDigit(d[i])
  }

  /** The octave shape `0|[1-9]\d*`: digits only, and no leading zero except a lone `0`. */
  predicate IsOctaveLiteral(d: string) {
    |d| > 0 && AllDigits(d) && (d[0] == '0' ==> |d| == 1)
  }

  function DigitValue(ch: char): (n: nat)
    requires IsDigit(ch)
    ensures n < 10
  {
    ch as int - '0' as int
  }

  function DigitChar(n: nat): (ch: char)
    requires n < 10
    ensures IsDigit(ch) && DigitValue(ch) == n
  {
    ('0' as int + n) as char
  }

  /** The number a digit string denotes, most significant digit first. */
  function ValueOf(d: string): nat
    requires AllDigits(d)
  {
    if d == [] then 0 else 10 * ValueOf(d[..|d| - 1]) + DigitValue(d[|d| - 1])
  }

  /** The decimal numeral of `n`, as `u8`'s `Display` writes it: it has the
      octave shape and denotes `n`. */
  function DecimalString(n: nat): (d: string)
    ensures IsOctaveLiteral(d) && ValueOf(d) == n
  {
    if n < 10 then [DigitChar(n)]
    else
      var d := DecimalString(n / 10) + [DigitChar(n % 10)];
      assert d[..|d| - 1] == DecimalString(n / 10);
      d
  }

  /** `str::parse::<u8>` on a digit string: its value, or failure above 255. */
  function ParseU8(d: string): (r: Result<u8>)
    ensures r.Ok? && IsOctaveLiteral(d) ==> DecimalString(r.value as int) == d
  {
    if |d| > 0 && AllDigits(d) && ValueOf(d) <= 255 then
      if IsOctaveLiteral(d) then DecimalStringOfValue(d); Ok(ValueOf(d) as u8)
      else Ok(ValueOf(d) as u8)
    else Err
  }

  /** A numeral whose first digit is not `0` denotes at least 1. */
  lemma {:induction false} LeadingDigitPositive(d: string)
    requires |d| > 0 && AllDigits(d) && d[0] != '0'
    ensures ValueOf(d) >= 1
  {
    if |d| > 1 {
      LeadingDigitPositive(d[..|d| - 1]);
    }
  }

  /** Every octave-shaped numeral is the rendering of its own value: the shape
      admits exactly one numeral per number. */
  lemma {:induction false} DecimalStringOfValue(d: string)
    requires IsOctaveLiteral(d)
    ensures DecimalString(ValueOf(d)) == d
  {
    if |d| > 1 {
      var prefix := d[..|d| - 1];
      LeadingDigitPositive(prefix);
      DecimalStringOfValue(prefix);
      var n := ValueOf(d);
      assert n / 10 == ValueOf(prefix) && n % 10 == DigitValue(d[|d| - 1]);
      assert d == prefix + [d[|d| - 1]];
    }
  }

  /** Decoding the rendering of an octave gives back the octave. */
  lemma ParseU8OfDecimal(n: u8)
    ensures ParseU8(DecimalString(n as int)) == Ok(n)
  {
  }

  /** Numerals above 255 do not fit the octave. */
  lemma ParseU8RejectsAbove255(n: nat)
    requires n > 255
    ensures ParseU8(DecimalString(n)).Err?
  {
  }
}
