/** Shared vocabulary of the plugins: optional values, the error taxonomy and
    result type, string prefix/suffix tests, the map shapes handed to the
    output-format plugins, and decimal number text. */
module Common {

  datatype Option<+T> = None | Some(value: T)

  /** The closed error taxonomy the plugins report through. */
  datatype ErrorCode =
    | NotFound
    | ApiUnavailable
    | ParseError
    | InvalidArgument
    | OutOfMemory
    | InternalError
    | PlatformSpecific
    | PermissionDenied
    | NotSupported
    | Other

  datatype Error = Error(code: ErrorCode, message: string)

  datatype Result<+T> = Ok(value: T) | Err(error: Error)

  predicate StartsWith(s: string, prefix: string) {
    |prefix| <= |s| && s[..|prefix|] == prefix
  }

  predicate EndsWith(s: string, suffix: string) {
    |suffix| <= |s| && s[|s| - |suffix|..] == suffix
  }

  /** The flat key/value data every output-format plugin receives. */
  type StringMap = map<string, string>

  /** One plugin's fields, in the iteration order of the source's ordered map. */
  type Fields = seq<(string, string)>

  /** The per-plugin field maps, in the iteration order of the source's ordered map. */
  type PluginData = seq<(string, Fields)>

  /** The keys of an ordered map are distinct. */
  predicate DistinctKeys<V>(entries: seq<(string, V)>) {
    forall i, j :: 0 <= i < j < |entries| ==> entries[i].0 != entries[j].0
  }

  /** A key that is present with a non-empty value. */
  function NonEmptyValue(data: StringMap, key: string): (r: Option<string>)
    ensures r.Some? <==> key in data && data[key] != ""
    ensures r.Some? ==> r.value == data[key]
  {
    if key in data && data[key] != "" then Some(data[key]) else None
  }

  // ---------------------------------------------------------------------
  // Decimal number text
  // ---------------------------------------------------------------------

  predicate IsDigit(c: char) {
    '0' <= c <= '9'
  }

  predicate AllDigits(s: string) {
    forall i :: 0 <= i < |s| ==> IsDigit(s[i])
  }

  function DigitValue(c: char): nat
    requires IsDigit(c)
  {
    c as int - '0' as int
  }

  function DigitChar(d: nat): (c: char)
    requires d < 10
    ensures IsDigit(c) && DigitValue(c) == d
  {
    ('0' as int + d) as char
  }

  /** The value of a string of decimal digits, most significant first. */
  function DigitsValue(s: string): nat
    requires AllDigits(s)
  {
    if |s| == 0 then 0 else DigitsValue(s[..|s| - 1]) * 10 + DigitValue(s[|s| - 1])
  }

  /** Shortest decimal text of a natural number (std::to_string of an unsigned value). */
  function NatToString(n: nat): (r: string)
    ensures |r| > 0 && AllDigits(r)
    ensures |r| > 1 ==> r[0] != '0'
  {
    if n < 10 then [DigitChar(n)] else NatToString(n / 10) + [DigitChar(n % 10)]
  }

  /** Decimal text of a signed integer (std::format "{}" of an integer). */
  function IntToString(i: int): (r: string)
    ensures |r| > 0
    ensures (i < 0) <==> r[0] == '-'
  {
    if i < 0 then "-" + NatToString(-i) else NatToString(i)
  }

  lemma {:induction false} NatToStringValue(n: nat)
    ensures DigitsValue(NatToString(n)) == n
  {
    if n >= 10 {
      var s := NatToString(n);
      assert s[..|s| - 1] == NatToString(n / 10);
      NatToStringValue(n / 10);
    }
  }

  const U32_MODULUS: nat := 0x1_0000_0000
  const U64_MODULUS: nat := 0x1_0000_0000_0000_0000
  const I64_MIN: int := -0x8000_0000_0000_0000
  const I64_MAX: int := 0x7FFF_FFFF_FFFF_FFFF

  /** std::stoull on a decimal digit string: no text, no value; a value above
      the 64-bit range is out_of_range, which the callers catch as a failure. */
  function ParseU64(s: string): Option<nat> {
    if s != "" && AllDigits(s) && DigitsValue(s) < U64_MODULUS then Some(DigitsValue(s)) else None
  }

  /** std::stoll on an optionally negative decimal digit string, range-checked to 64 bits. */
  function ParseI64(s: string): Option<int> {
    if |s| > 1 && s[0] == '-' && AllDigits(s[1..]) && -(DigitsValue(s[1..]) as int) >= I64_MIN then
      Some(-(DigitsValue(s[1..]) as int))
    else if s != "" && AllDigits(s) && DigitsValue(s) <= I64_MAX then
      Some(DigitsValue(s))
    else
      None
  }

  /** Every unsigned 64-bit value survives printing and re-parsing. */
  lemma ParseU64RoundTrip(n: nat)
    requires n < U64_MODULUS
    ensures ParseU64(NatToString(n)) == Some(n)
  {
    NatToStringValue(n);
  }

  /** Every signed 64-bit value survives printing and re-parsing. */
  lemma ParseI64RoundTrip(i: int)
    requires I64_MIN <= i <= I64_MAX
    ensures ParseI64(IntToString(i)) == Some(i)
  {
    if i < 0 {
      var s := IntToString(i);
      assert s[1..] == NatToString(-i);
      NatToStringValue(-i);
    } else {
      NatToStringValue(i);
    }
  }
}
