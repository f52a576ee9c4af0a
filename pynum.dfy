/** Python's numbers as the filter uses them: `int()` and `float()` on
    text, the exceptions a failed conversion raises, and the values whose
    printed form depends on whether Python holds them as `int` or `float`. */
module PyNum {
  import opened PyStr

  /** The Python exceptions the filter can raise while it runs. */
  datatype PyError =
    | IndexError         // indexing past the end of a string or list
    | ValueError         // int()/float() of malformed text, a failed unpacking
    | KeyError           // a material number missing from the material map
    | TypeError          // arithmetic on None
    | ZeroDivisionError  // overburn on an arc of radius zero
    | UnboundLocalError  // reading a local that was never assigned

  /** A value, or the exception raised while computing it. */
  datatype Result<T> = Ok(value: T) | Raise(error: PyError)

  /** A number Python holds as an `int` or as a `float`; the two print
      differently (`60` against `60.0`). */
  datatype Num = Int(i: int) | Float(r: real) {
    function Value(): real {
      match this
      case Int(i) => i as real
      case Float(r) => r
    }
  }

  /** Floating-point services the filter takes from Python's runtime:
      `math.sqrt`, `math.cos`, `math.sin`, `str()` of a float and the
      fixed-point format `'{:0.Nf}'`. The model leaves them uninterpreted;
      lemmas state what they assume of them. */
  datatype Host = Host(
    sqrt: real -> real,
    cos: real -> real,
    sin: real -> real,
    repr: real -> string,
    fixed: (real, nat) -> string)

  /** `'{}'.format(n)` */
  function Str(n: Num, host: Host): string {
    match n
    case Int(i) => IntToString(i)
    case Float(r) => host.repr(r)
  }

  predicate AllDigits(s: string) {
    forall i :: 0 <= i < |s| ==> IsDigit(s[i])
  }

  function DigitValue(c: char): nat
    requires IsDigit(c)
  {
    c as int - '0' as int
  }

  /** The value of a string of decimal digits (0 for the empty string). */
  function DigitsValue(s: string): nat
    requires AllDigits(s)
  {
    if s == [] then 0 else DigitsValue(s[..|s| - 1]) * 10 + DigitValue(s[|s| - 1])
  }

  function Pow10(n: nat): (r: nat)
    ensures r >= 1
  {
    if n == 0 then 1 else 10 * Pow10(n - 1)
  }

  /** The number of leading decimal digits of `t`. */
  function LeadingDigits(t: string): (n: nat)
    ensures n <= |t| && AllDigits(t[..n])
    ensures n < |t| ==> !IsDigit(t[n])
  {
    if t != [] && IsDigit(t[0]) then
      var n := 1 + LeadingDigits(t[1..]);
      assert t[..n] == [t[0]] + t[1..][..n - 1];
      n
    else 0
  }

  /** `int(s)`: optional surrounding whitespace, an optional sign and at
      least one decimal digit; None where Python raises ValueError. */
  function ParseInt(s: string): (r: Option<int>)
  {
    var t := Strip(s);
    if t != [] && (t[0] == '-' || t[0] == '+') then
      var d := t[1..];
      if d != [] && AllDigits(d) then Some(if t[0] == '-' then 0 - DigitsValue(d) as int else DigitsValue(d) as int)
      else None
    else if t != [] && AllDigits(t) then Some(DigitsValue(t))
    else None
  }

  /** An unsigned decimal: digits, optionally one '.' and more digits, with
      at least one digit in all (`5`, `5.`, `.5`, `5.25`). */
  function ParseDecimal(t: string): (r: Option<real>)
    ensures r.Some? ==> r.value >= 0.0
  {
    var i := LeadingDigits(t);
    if i == |t| then
      if i > 0 then Some(DigitsValue(t) as real) else None
    else if t[i] == '.' && AllDigits(t[i + 1..]) && (i > 0 || i + 1 < |t|) then
      Some(DigitsValue(t[..i]) as real + Fraction(t[i + 1..]))
    else None
  }

  /** The value of the digits after a decimal point. */
  function Fraction(digits: string): (r: real)
    requires AllDigits(digits)
    ensures r >= 0.0
  {
    var a := DigitsValue(digits) as real;
    var b := Pow10(|digits|) as real;
    assert a / b >= 0.0 by {
      assert b >= 1.0 && a >= 0.0;
      assert (a / b) * b == a;
    }
    a / b
  }

  /** `float(s)` for decimal text with optional surrounding whitespace and
      sign; None where Python raises ValueError. */
  function ParseFloat(s: string): (r: Option<real>)
  {
    var t := Strip(s);
    if t != [] && (t[0] == '-' || t[0] == '+') then
      match ParseDecimal(t[1..])
      case None => None
      case Some(v) => Some(if t[0] == '-' then -v else v)
    else ParseDecimal(t)
  }

  lemma {:induction false} DigitsOfNat(n: nat)
    ensures AllDigits(NatToString(n)) && DigitsValue(NatToString(n)) == n
    decreases n
  {
    var s := NatToString(n);
    if n >= 10 {
      DigitsOfNat(n / 10);
      assert s[..|s| - 1] == NatToString(n / 10);
    }
  }

  lemma StripDigits(s: string)
    requires s != [] && forall i :: 1 <= i < |s| ==> IsDigit(s[i])
    requires IsDigit(s[0]) || s[0] == '-'
    ensures Strip(s) == s
  {
  }

  /** `int(str(n)) == n` */
  lemma ParseIntOfString(n: int)
    ensures ParseInt(IntToString(n)) == Some(n)
  {
    if n < 0 {
      ParseMinus(-n);
    } else {
      ParseNatural(n);
    }
  }

  lemma ParseNatural(n: nat)
    ensures ParseInt(IntToString(n)) == Some(n)
  {
    DigitsOfNat(n);
    ParseUnsigned(NatToString(n));
  }

  /** Digits alone read as their value. */
  lemma ParseUnsigned(d: string)
    requires d != [] && AllDigits(d)
    ensures ParseInt(d) == Some(DigitsValue(d))
  {
    StripDigits(d);
  }

  lemma ParseMinus(m: nat)
    ensures ParseInt("-" + NatToString(m)) == Some(0 - m)
  {
    DigitsOfNat(m);
    ParseSigned(NatToString(m));
  }

  /** A minus sign and digits read as the negated value. */
  lemma ParseSigned(d: string)
    requires d != [] && AllDigits(d)
    ensures ParseInt("-" + d) == Some(0 - DigitsValue(d))
  {
    var s := "-" + d;
    assert s[0] == '-' && s[1..] == d;
    assert forall i :: 1 <= i < |s| ==> s[i] == d[i - 1];
    StripDigits(s);
  }
}
