/**
 * The parts of Go's strconv and fmt that the attempt codec relies on:
 * `%d` and `%t` formatting, `strconv.ParseInt(s, 10, 64)` and
 * `strconv.ParseBool`.
 */
module Strconv {
  import opened Wrappers

  const Int64Min: int := -0x8000_0000_0000_0000
  const Int64Max: int := 0x7FFF_FFFF_FFFF_FFFF

  predicate IsInt64(n: int) { Int64Min <= n <= Int64Max }

  predicate IsDigit(c: char) { '0' <= c <= '9' }

  predicate AllDigits(s: string) { forall i :: 0 <= i < |s| ==> IsDigit(s[i]) }

  function DigitChar(d: nat): char
    requires d < 10
  {
    ['0', '1', '2', '3', '4', '5', '6', '7', '8', '9'][d]
  }

  function DigitValue(c: char): nat
    requires IsDigit(c)
  {
    (c as int - '0' as int) as nat
  }

  /** The value of a run of decimal digits, most significant first. */
  function DigitsValue(s: string): nat
    requires AllDigits(s)
  {
    if s == [] then 0 else DigitsValue(s[..|s| - 1]) * 10 + DigitValue(s[|s| - 1])
  }

  /** The shortest decimal spelling of `n`, with no sign and no leading zero. */
  function NatDigits(n: nat): (s: string)
    ensures s != [] && AllDigits(s)
    ensures |s| > 1 ==> s[0] != '0'
  {
    if n < 10 then [DigitChar(n)] else NatDigits(n / 10) + [DigitChar(n % 10)]
  }

  lemma DigitRoundTrip(d: nat)
    requires d < 10
    ensures DigitValue(DigitChar(d)) == d
  {
  }

  /** Reading back the digits of `n` gives `n`. */
  lemma {:induction false} NatDigitsRoundTrip(n: nat)
    ensures DigitsValue(NatDigits(n)) == n
  {
    DigitRoundTrip(n % 10);
    if n >= 10 {
      NatDigitsRoundTrip(n / 10);
      var s := NatDigits(n);
      assert s[..|s| - 1] == NatDigits(n / 10);
    }
  }

  /** `fmt.Sprintf("%d", n)`. */
  function FormatInt(n: int): (s: string)
    ensures s != []
    ensures n < 0 <==> s[0] == '-'
  {
    if n < 0 then "-" + NatDigits(-n) else NatDigits(n)
  }

  /** `fmt.Sprintf("%t", b)`. */
  function FormatBool(b: bool): (s: string)
    ensures s == "true" || s == "false"
  {
    if b then "true" else "false"
  }

  /** `strconv.ParseBool`: the twelve spellings Go accepts, anything else is an error. */
  function ParseBool(s: string): (r: Option<bool>)
    ensures r == Some(true) <==> s in {"1", "t", "T", "TRUE", "true", "True"}
    ensures r == Some(false) <==> s in {"0", "f", "F", "FALSE", "false", "False"}
  {
    if s in {"1", "t", "T", "TRUE", "true", "True"} then Some(true)
    else if s in {"0", "f", "F", "FALSE", "false", "False"} then Some(false)
    else None
  }

  /** The sign a decimal integer may be written with. */
  datatype Sign = NoSign | Plus | Minus

  /** A sign followed by the digits `d`. */
  function Spelled(sign: Sign, d: string): string
  {
    match sign
    case NoSign => d
    case Plus => "+" + d
    case Minus => "-" + d
  }

  /** The value `Spelled(sign, d)` denotes. */
  function Signed(sign: Sign, d: string): int
    requires AllDigits(d)
  {
    if sign == Minus then -(DigitsValue(d) as int) else DigitsValue(d)
  }

  /**
   * `strconv.ParseInt(s, 10, 64)`: an optional sign, then at least one
   * decimal digit (base 10 allows no underscores), and a value inside the
   * int64 range; every other input is an error.
   */
  function ParseInt(s: string): (r: Option<int>)
    ensures r.Some? ==> IsInt64(r.value)
    ensures r.Some? ==> exists sign, d {:trigger Spelled(sign, d)} :: d != [] && AllDigits(d) && s == Spelled(sign, d)
    ensures forall sign, d {:trigger Spelled(sign, d)} :: d != [] && AllDigits(d) && s == Spelled(sign, d) ==>
              r == if IsInt64(Signed(sign, d)) then Some(Signed(sign, d)) else None
  {
    if s == [] then None
    else
      var neg := s[0] == '-';
      var sign := if s[0] == '-' then Minus else if s[0] == '+' then Plus else NoSign;
      var body := if s[0] == '-' || s[0] == '+' then s[1..] else s;
      assert forall sign', d {:trigger Spelled(sign', d)} :: d != [] && AllDigits(d) && s == Spelled(sign', d) ==>
               sign' == sign && d == body by {
        forall sign', d | d != [] && AllDigits(d) && s == Spelled(sign', d) ensures sign' == sign && d == body {
          if sign' == NoSign { assert IsDigit(s[0]); }
          else { assert s[1..] == d; }
        }
      }
      if body == [] || !AllDigits(body) then None
      else
        var v: int := if neg then -(DigitsValue(body) as int) else DigitsValue(body);
        assert s == Spelled(sign, body) && v == Signed(sign, body);
        if IsInt64(v) then Some(v) else None
  }

  lemma FormatBoolRoundTrip(b: bool)
    ensures ParseBool(FormatBool(b)) == Some(b)
  {
  }

  /** A non-empty run of digits, signed or not, parses to its value when that value fits. */
  lemma ParseDigits(d: string, neg: bool)
    requires d != [] && AllDigits(d)
    requires IsInt64(if neg then -(DigitsValue(d) as int) else DigitsValue(d))
    ensures ParseInt(if neg then "-" + d else d) == Some(if neg then -(DigitsValue(d) as int) else DigitsValue(d))
  {
    var s := if neg then "-" + d else d;
    if neg {
      assert s[0] == '-' && s[1..] == d;
    } else {
      assert IsDigit(s[0]);
    }
  }

  /** Every int64 survives `%d` followed by `ParseInt`. */
  lemma FormatIntRoundTrip(n: int)
    requires IsInt64(n)
    ensures ParseInt(FormatInt(n)) == Some(n)
  {
    var m: nat := if n < 0 then -n else n;
    var d := NatDigits(m);
    NatDigitsRoundTrip(m);
    assert DigitsValue(d) == m;
    ParseDigits(d, n < 0);
    assert FormatInt(n) == if n < 0 then "-" + d else d;
  }
}
