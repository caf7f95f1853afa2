/** The few .NET base-library notions the domain code leans on: nullable
    references, 32-bit integers, String.IsNullOrEmpty and the decimal and
    boolean renderings that String.Format produces. */
module Primitives {

  /** A nullable reference: None is C#'s null. */
  datatype Option<T> = None | Some(value: T)

  /** The exceptions the domain code can raise on its own: dereferencing a
      null value, and reading a dictionary key that is not there. */
  datatype Fault = NullReference | KeyNotFound

  /** The outcome of a call that may throw. */
  datatype Outcome<T> = Ok(value: T) | Thrown(fault: Fault)

  /** System.Int32. */
  newtype int32 = x: int | -0x8000_0000 <= x < 0x8000_0000

  /** A C# string reference, which may be null. */
  type NullableString = Option<string>

  /** String.Length: .NET strings are UTF-16, so a character outside the
      Basic Multilingual Plane takes two code units (a surrogate pair). */
  function Utf16Length(s: string): (n: nat)
    ensures |s| <= n <= 2 * |s|
    ensures (forall i :: 0 <= i < |s| ==> (s[i] as int) < 0x1_0000) ==> n == |s|
  {
    if |s| == 0 then 0
    else Utf16Length(s[..|s| - 1]) + (if (s[|s| - 1] as int) < 0x1_0000 then 1 else 2)
  }

  /** String.IsNullOrEmpty. */
  predicate IsNullOrEmpty(s: NullableString) {
    s.None? || s.value == ""
  }

  /** Boolean.ToString(). */
  function BoolText(b: bool): string {
    if b then "True" else "False"
  }

  predicate IsDigit(c: char) {
    '0' <= c <= '9'
  }

  function DigitChar(d: nat): (c: char)
    requires d < 10
    ensures IsDigit(c) && (c as int) - ('0' as int) == d
  {
    (('0' as int) + d) as char
  }

  /** The decimal digits of a non-negative number, most significant first. */
  function Decimal(n: nat): (s: string)
    ensures |s| >= 1
    ensures forall i :: 0 <= i < |s| ==> IsDigit(s[i])
    ensures s[0] == '0' ==> n == 0
    decreases n
  {
    if n < 10 then [DigitChar(n)] else Decimal(n / 10) + [DigitChar(n % 10)]
  }

  /** The number a string of decimal digits denotes. */
  function DigitsValue(s: string): nat
    requires forall i :: 0 <= i < |s| ==> IsDigit(s[i])
  {
    if |s| == 0 then 0
    else
      assert IsDigit(s[|s| - 1]);
      DigitsValue(s[..|s| - 1]) * 10 + ((s[|s| - 1] as int) - ('0' as int))
  }

  /** Reading back the digits of Decimal(n) gives n. */
  lemma {:induction false} DecimalRoundTrip(n: nat)
    ensures DigitsValue(Decimal(n)) == n
    decreases n
  {
    if n >= 10 {
      var s := Decimal(n);
      DecimalRoundTrip(n / 10);
      assert s[..|s| - 1] == Decimal(n / 10);
    }
  }

  /** Int32.ToString() with an ASCII minus sign, as the invariant culture
      and the usual current cultures write it. */
  function IntText(n: int32): (s: string)
    ensures |s| >= 1
    ensures (s[0] == '-') <==> n < 0
    ensures forall i :: (if n < 0 then 1 else 0) <= i < |s| ==> IsDigit(s[i])
    ensures DigitsValue(s[(if n < 0 then 1 else 0)..]) == (if n < 0 then -(n as int) else n as int)
  {
    if n < 0 then
      DecimalRoundTrip(-(n as int));
      var s := "-" + Decimal(-(n as int));
      assert s[1..] == Decimal(-(n as int));
      s
    else
      DecimalRoundTrip(n as int);
      assert Decimal(n as int)[0..] == Decimal(n as int);
      Decimal(n as int)
  }
}
