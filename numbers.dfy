/**
 * Numbers as the Python program sees them, and how they are turned into text.
 *
 * Reynolds numbers and angles of attack arrive as Python `int` or `float`.
 * `str()` of an integer is modelled exactly; every floating-point conversion
 * (`str()` of a float and the format specs `{:1.2e}`, `{:1.1f}`, `{:1.2f}`)
 * is a function supplied by the caller in a `Formats` value.
 */
module Numbers {

  datatype Num = Int(i: int) | Float(x: real)
  {
    /** The numeric value, as used by `!= 0` and by the float format specs. */
    function Value(): real
    {
      match this
      case Int(i) => i as real
      case Float(x) => x
    }
  }

  /** The floating-point string conversions the program relies on. */
  datatype Formats = Formats(
    floatStr: real -> string,  // str() of a float
    exp2: real -> string,      // '{:1.2e}'
    fixed1: real -> string,    // '{:1.1f}'
    fixed2: real -> string)    // '{:1.2f}'

  predicate IsDigit(c: char)
  {
    '0' <= c <= '9'
  }

  /** Decimal digits of a natural number, most significant first. */
  function Digits(n: nat): (s: string)
    ensures |s| > 0
    ensures forall k :: 0 <= k < |s| ==> IsDigit(s[k])
    decreases n
  {
    var d := [(48 + n % 10) as char];
    if n < 10 then d else Digits(n / 10) + d
  }

  /** Value of a string of decimal digits. */
  function DigitsValue(s: string): nat
    requires forall k :: 0 <= k < |s| ==> IsDigit(s[k])
  {
    if s == [] then 0
    else
      var c := s[|s| - 1];
      assert IsDigit(c);
      10 * DigitsValue(s[..|s| - 1]) + (c as int - '0' as int)
  }

  lemma {:induction false} DigitsRoundTrip(n: nat)
    ensures DigitsValue(Digits(n)) == n
    decreases n
  {
    var s := Digits(n);
    if n >= 10 {
      DigitsRoundTrip(n / 10);
      assert s[..|s| - 1] == Digits(n / 10);
    }
  }

  /** `str(i)` for a Python int. */
  function DecimalString(i: int): (s: string)
    ensures |s| > 0
    ensures s[0] == '-' <==> i < 0
  {
    if i < 0 then "-" + Digits(-i) else Digits(i)
  }

  /** Different integers print differently. */
  lemma DecimalStringInjective(i: int, j: int)
    requires DecimalString(i) == DecimalString(j)
    ensures i == j
  {
    if i < 0 {
      assert Digits(-i) == DecimalString(i)[1..];
      DigitsRoundTrip(-i);
      DigitsRoundTrip(-j);
    } else {
      DigitsRoundTrip(i);
      DigitsRoundTrip(j);
    }
  }

  /** `str(n)` / `'{}'.format(n)`: exact for ints, supplied for floats. */
  function Show(n: Num, fmt: Formats): (s: string)
    ensures n.Int? ==> |s| > 0 && (s[0] == '-' <==> n.i < 0)
    ensures n.Int? && n.i >= 0 ==> (forall k :: 0 <= k < |s| ==> IsDigit(s[k])) && DigitsValue(s) == n.i
    ensures n.Float? ==> s == fmt.floatStr(n.x)
  {
    match n
    case Int(i) =>
      if i >= 0 then DigitsRoundTrip(i); DecimalString(i) else DecimalString(i)
    case Float(x) => fmt.floatStr(x)
  }
}
