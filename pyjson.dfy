/**
 * The values a JSON configuration document can hold once Python's `json`
 * module has loaded it, and the two conversions the configuration code
 * applies to them: `str(v)` and `int(v)`.
 */
module PyJson {
  import opened Wrappers
  import opened PyStr

  /**
   * A loaded JSON value. Numbers are integers; a list or an object is only
   * seen through the text Python's `str()` gives for it.
   */
  datatype JsonValue =
    | JNull
    | JBool(b: bool)
    | JInt(i: int)
    | JString(s: string)
    | JContainer(text: string)

  function DigitChar(d: nat): (c: char)
    requires d < 10
    ensures IsDigit(c)
  {
    ('0' as int + d) as char
  }

  function DigitValue(c: char): (d: nat)
    requires IsDigit(c)
    ensures d < 10
  {
    c as int - '0' as int
  }

  /** Decimal digits of `n` with no leading zero, as `str(n)` writes them. */
  function NatToString(n: nat): (s: string)
    ensures |s| > 0
    ensures forall k :: 0 <= k < |s| ==> IsDigit(s[k])
    ensures s[0] == '0' <==> n == 0
    decreases n
  {
    if n < 10 then [DigitChar(n)] else NatToString(n / 10) + [DigitChar(n % 10)]
  }

  /** `str(i)` for a Python integer. */
  function IntToString(i: int): (s: string)
    ensures |s| > 0 && IsDigit(s[|s| - 1])
    ensures s[0] == '-' <==> i < 0
    ensures i >= 0 ==> IsDigit(s[0])
  {
    if i < 0 then "-" + NatToString(-i) else NatToString(i)
  }

  /** The value of a string of decimal digits. */
  function NumeralValue(s: string): nat
    requires forall k :: 0 <= k < |s| ==> IsDigit(s[k])
  {
    if s == [] then 0 else NumeralValue(s[..|s| - 1]) * 10 + DigitValue(s[|s| - 1])
  }

  /**
   * A numeral `int()` accepts: ASCII digits, where a single `_` may stand
   * between two digits.
   */
  predicate IsNumeral(s: string) {
    && |s| > 0
    && IsDigit(s[0])
    && (forall k :: 0 <= k < |s| ==> IsDigit(s[k]) || s[k] == '_')
    && (forall k :: 0 <= k < |s| && s[k] == '_' ==> k + 1 < |s| && IsDigit(s[k + 1]))
  }

  /** The digits of a numeral with its separators removed. */
  function DropSeparators(s: string): (r: string)
    requires forall k :: 0 <= k < |s| ==> IsDigit(s[k]) || s[k] == '_'
    ensures forall k :: 0 <= k < |r| ==> IsDigit(r[k])
    ensures (forall k :: 0 <= k < |s| ==> IsDigit(s[k])) ==> r == s
  {
    if s == [] then []
    else if s[0] == '_' then DropSeparators(s[1..])
    else [s[0]] + DropSeparators(s[1..])
  }

  function ParseUnsigned(t: string): Option<nat> {
    if IsNumeral(t) then
      Some(NumeralValue(DropSeparators(t)))
    else
      None
  }

  /**
   * `int(s)` for a string: surrounding whitespace is ignored, one optional
   * sign, then a numeral; `None` stands for the `ValueError` Python raises.
   */
  function ParseInt(s: string): Option<int> {
    var t := Strip(s);
    if |t| > 0 && (t[0] == '-' || t[0] == '+') then
      match ParseUnsigned(t[1..])
      case Some(n) => var i: int := if t[0] == '-' then -(n as int) else n; Some(i)
      case None => None
    else
      ParseUnsigned(t)
  }

  /** `str(v)`. */
  function Str(v: JsonValue): string {
    match v
    case JNull => "None"
    case JBool(b) => if b then "True" else "False"
    case JInt(i) => IntToString(i)
    case JString(s) => s
    case JContainer(text) => text
  }

  /**
   * `int(v)`: a bool is the integer 0 or 1 (it is an `int` subclass in
   * Python), a string is parsed, and `None` stands for the `ValueError` or
   * `TypeError` Python raises for the rest.
   */
  function ToInt(v: JsonValue): (r: Option<int>)
    ensures v.JInt? ==> r == Some(v.i)
    ensures v.JNull? || v.JContainer? ==> r == None
    ensures v.JBool? ==> r == Some(if v.b then 1 else 0)
  {
    match v
    case JNull => None
    case JBool(b) => Some(if b then 1 else 0)
    case JInt(i) => Some(i)
    case JString(s) => ParseInt(s)
    case JContainer(_) => None
  }

  lemma {:induction false} NumeralValueOfNatToString(n: nat)
    ensures NumeralValue(NatToString(n)) == n
    decreases n
  {
    if n >= 10 {
      var s := NatToString(n);
      NumeralValueOfNatToString(n / 10);
      assert s[..|s| - 1] == NatToString(n / 10);
    }
  }

  lemma ParseUnsignedOfNatToString(n: nat)
    ensures ParseUnsigned(NatToString(n)) == Some(n)
  {
    NumeralValueOfNatToString(n);
  }

  /** `int(str(i)) == i`: the decimal text of an integer reads back as that integer. */
  lemma ParseIntOfIntToString(i: int)
    ensures ParseInt(IntToString(i)) == Some(i)
  {
    var s := IntToString(i);
    if i < 0 {
      var digits := NatToString(-i);
      assert s == "-" + digits && s[1..] == digits;
      assert !IsSpace(s[|s| - 1]) by { assert IsDigit(s[|s| - 1]); }
      StripOfTrimmed(s);
      ParseUnsignedOfNatToString(-i);
      assert ParseInt(s) == Some(-(-i));
    } else {
      assert s == NatToString(i) && IsDigit(s[0]) && IsDigit(s[|s| - 1]);
      StripOfTrimmed(s);
      ParseUnsignedOfNatToString(i);
    }
  }

  /** Distinct integers have distinct decimal texts. */
  lemma IntToStringInjective(i: int, j: int)
    requires IntToString(i) == IntToString(j)
    ensures i == j
  {
    ParseIntOfIntToString(i);
    ParseIntOfIntToString(j);
  }
}
