/** The JDK text-to-primitive conversions the converter calls: `Integer.parseInt`,
    `Long.parseLong` (radix 10) and `Boolean.parseBoolean`, over ASCII text. */
module Numbers {
  import opened Wrappers

  const INT_MIN: int := -0x8000_0000
  const INT_MAX: int := 0x7fff_ffff
  const LONG_MIN: int := -0x8000_0000_0000_0000
  const LONG_MAX: int := 0x7fff_ffff_ffff_ffff

  /** The message of the NumberFormatException thrown for a null argument. */
  const NULL_INPUT_MESSAGE := "Cannot parse null string: null"

  /** The message of the NumberFormatException thrown for malformed or out-of-range text. */
  function BadInputMessage(s: string): string {
    "For input string: \"" + s + "\""
  }

  predicate IsDigit(c: char) {
    '0' <= c <= '9'
  }

  predicate AllDigits(s: string) {
    forall i :: 0 <= i < |s| ==> IsDigit(s[i])
  }

  function DigitChar(d: nat): (c: char)
    requires d < 10
    ensures IsDigit(c) && c as int - '0' as int == d
  {
    (d + '0' as int) as char
  }

  /** The value of a run of decimal digits, most significant first. */
  function DigitsValue(ds: string): nat
    requires AllDigits(ds)
  {
    if |ds| == 0 then 0
    else 10 * DigitsValue(ds[..|ds| - 1]) + (ds[|ds| - 1] as int - '0' as int)
  }

  /** The digits after an optional leading sign. */
  function Unsigned(s: string): string {
    if |s| > 0 && (s[0] == '-' || s[0] == '+') then s[1..] else s
  }

  /** The syntax the radix-10 parsers accept: an optional sign and at least one digit. */
  predicate IsDecimal(s: string) {
    |Unsigned(s)| > 0 && AllDigits(Unsigned(s))
  }

  function DecimalValue(s: string): int
    requires IsDecimal(s)
  {
    var magnitude: int := DigitsValue(Unsigned(s));
    if s[0] == '-' then -magnitude else magnitude
  }

  /** The canonical decimal rendering of a natural number. */
  function ShowNat(n: nat): (r: string)
    ensures |r| > 0 && AllDigits(r)
  {
    if n < 10 then [DigitChar(n)] else ShowNat(n / 10) + [DigitChar(n % 10)]
  }

  /** `Long.toString(i)`. */
  function ShowInt(i: int): (r: string)
    ensures |r| > 0
  {
    if i < 0 then "-" + ShowNat(-i) else ShowNat(i)
  }

  lemma {:induction false} ShowNatValue(n: nat)
    ensures DigitsValue(ShowNat(n)) == n
  {
    if n >= 10 {
      var s := ShowNat(n);
      assert s[..|s| - 1] == ShowNat(n / 10);
      ShowNatValue(n / 10);
    }
  }

  /** Rendering an integer and reading it back yields the same integer. */
  lemma {:induction false} ShowIntIsDecimal(i: int)
    ensures IsDecimal(ShowInt(i))
    ensures DecimalValue(ShowInt(i)) == i
  {
    var s := ShowInt(i);
    if i < 0 {
      assert Unsigned(s) == ShowNat(-i);
      ShowNatValue(-i);
    } else {
      assert s[0] != '-' && s[0] != '+';
      assert Unsigned(s) == ShowNat(i);
      ShowNatValue(i);
    }
  }

  /** A radix-10 `parseInt`/`parseLong` whose result type spans `lo..hi`. */
  function ParseInteger(v: Option<string>, lo: int, hi: int): (r: Result<int, string>)
    ensures r.Ok? <==> v.Some? && IsDecimal(v.value) && lo <= DecimalValue(v.value) <= hi
    ensures r.Ok? ==> r.value == DecimalValue(v.value)
    ensures v.None? ==> r == Err(NULL_INPUT_MESSAGE)
    ensures v.Some? && r.Err? ==> r == Err(BadInputMessage(v.value))
  {
    match v
    case None => Err(NULL_INPUT_MESSAGE)
    case Some(s) =>
      if IsDecimal(s) && lo <= DecimalValue(s) <= hi then Ok(DecimalValue(s))
      else Err(BadInputMessage(s))
  }

  /** `Integer.parseInt(v)`. */
  function ParseInt(v: Option<string>): Result<int, string> {
    ParseInteger(v, INT_MIN, INT_MAX)
  }

  /** `Long.parseLong(v)`. */
  function ParseLong(v: Option<string>): Result<int, string> {
    ParseInteger(v, LONG_MIN, LONG_MAX)
  }

  /** Every 32-bit (resp. 64-bit) integer survives rendering and parsing, and nothing
      outside that range does. */
  lemma {:induction false} ParseShowRoundTrip(i: int)
    ensures ParseInt(Some(ShowInt(i))) == (if INT_MIN <= i <= INT_MAX then Ok(i) else Err(BadInputMessage(ShowInt(i))))
    ensures ParseLong(Some(ShowInt(i))) == (if LONG_MIN <= i <= LONG_MAX then Ok(i) else Err(BadInputMessage(ShowInt(i))))
  {
    ShowIntIsDecimal(i);
  }

  function LowerAscii(c: char): char {
    if 'A' <= c <= 'Z' then (c as int + 32) as char else c
  }

  /** `"true".equalsIgnoreCase(s)`, folding ASCII letters only. */
  predicate IsTrueIgnoringCase(s: string) {
    |s| == 4 && LowerAscii(s[0]) == 't' && LowerAscii(s[1]) == 'r'
    && LowerAscii(s[2]) == 'u' && LowerAscii(s[3]) == 'e'
  }

  /** `Boolean.parseBoolean(v)`: never throws; true only for "true" in any letter case. */
  function ParseBoolean(v: Option<string>): (b: bool)
    ensures v.None? ==> !b
  {
    v.Some? && IsTrueIgnoringCase(v.value)
  }

  /** Java's rendering of a boolean parses back to itself, and upper case is accepted. */
  lemma ParseBooleanExamples(b: bool)
    ensures ParseBoolean(Some(if b then "true" else "false")) == b
    ensures ParseBoolean(Some("TRUE")) && ParseBoolean(Some("True"))
    ensures !ParseBoolean(Some("yes")) && !ParseBoolean(Some("1")) && !ParseBoolean(Some(""))
  {
  }
}
