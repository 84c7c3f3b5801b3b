/**
 * The parts of the framework's image record that the two plugins look at:
 * the metadata map and the way a metadata value is turned into text.
 */
module ImageRecords {

  /** A metadata value: the reader stores a file path (text) and a page number. */
  datatype MetaValue = Text(s: string) | Number(n: int)

  /** The metadata of an image record, from key to value. */
  type Metadata = map<string, MetaValue>

  /** `has_metadata()`: the record carries at least one metadata entry. */
  predicate HasMetadata(m: Metadata): (has: bool)
    ensures has <==> m.Keys != {}
  {
    |m| > 0
  }

  /** The character for a decimal digit. */
  function Digit(d: nat): (c: char)
    requires d < 10
    ensures '0' <= c <= '9'
    ensures c as int - '0' as int == d
  {
    "0123456789"[d]
  }

  /** The decimal digits of `n`, most significant first, as Python's `str` writes them. */
  function Decimal(n: nat): (r: string)
    ensures |r| >= 1
    ensures IsDigits(r)
    ensures r[0] == '0' ==> n == 0 && r == "0"
  {
    if n < 10 then [Digit(n)] else Decimal(n / 10) + [Digit(n % 10)]
  }

  /** Every character of `s` is a decimal digit. */
  predicate IsDigits(s: string)
  {
    forall i :: 0 <= i < |s| ==> '0' <= s[i] <= '9'
  }

  /** The number a string of decimal digits denotes (the reading direction of `Decimal`). */
  function DigitsValue(s: string): nat
    requires IsDigits(s)
  {
    if s == [] then 0
    else 10 * DigitsValue(s[..|s| - 1]) + (s[|s| - 1] as int - '0' as int)
  }

  /** Reading back the digits `Decimal` writes gives the number written. */
  lemma {:induction false} DecimalRoundTrip(n: nat)
    ensures DigitsValue(Decimal(n)) == n
  {
    if n >= 10 {
      DecimalRoundTrip(n / 10);
      var r := Decimal(n);
      assert r[..|r| - 1] == Decimal(n / 10);
    }
  }

  /** Python's `str` of a metadata value: the text itself, or the decimal form of the number. */
  function Show(v: MetaValue): (r: string)
    ensures v.Text? ==> r == v.s
    ensures v.Number? && v.n >= 0 ==>
      |r| >= 1 && (r[0] == '0' ==> v.n == 0 && r == "0") && IsDigits(r) && DigitsValue(r) == v.n
    ensures v.Number? && v.n < 0 ==>
      |r| >= 2 && r[0] == '-' && r[1] != '0' && IsDigits(r[1..]) && DigitsValue(r[1..]) == -v.n
  {
    match v
    case Text(s) => s
    case Number(n) =>
      if n < 0 then
        DecimalRoundTrip(-n);
        assert ("-" + Decimal(-n))[1..] == Decimal(-n);
        assert ("-" + Decimal(-n))[1] == Decimal(-n)[0];
        "-" + Decimal(-n)
      else
        DecimalRoundTrip(n);
        Decimal(n)
  }
}
