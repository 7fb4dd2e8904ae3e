/**
 * JavaScript strings as the browser stores them: sequences of UTF-16 code
 * units. `length`, `substring` and `trim` all count and index code units, so
 * the title cut at 40 and the trimming of user input are stated on this type.
 * The source's string literals appear in the model as sequences of code units,
 * each with its text in a comment; a character outside the Basic Multilingual
 * Plane (the topic emoji) takes two units, a surrogate pair.
 */
module JsText {

  /** One UTF-16 code unit. */
  type CodeUnit = u: int | 0 <= u < 0x1_0000

  /** A JavaScript string value. */
  type JsString = seq<CodeUnit>

  // ---------------------------------------------------------------------------
  // String.prototype.trim
  // ---------------------------------------------------------------------------

  /** The units `trim` removes: ECMAScript WhiteSpace (TAB, VT, FF, ZWNBSP and
    * every space separator) and LineTerminator (LF, CR, LS, PS). */
  predicate IsJsWhitespace(u: CodeUnit)
  {
    || u == 0x09 || u == 0x0A || u == 0x0B || u == 0x0C || u == 0x0D
    || u == 0x20 || u == 0xA0 || u == 0x1680
    || (0x2000 <= u <= 0x200A)
    || u == 0x2028 || u == 0x2029 || u == 0x202F || u == 0x205F
    || u == 0x3000 || u == 0xFEFF
  }

  /** All units of s are whitespace. */
  predicate IsBlank(s: JsString)
  {
    forall i :: 0 <= i < |s| ==> IsJsWhitespace(s[i])
  }

  /** The number of whitespace units at the front of s. */
  function LeadingSpace(s: JsString): (k: nat)
    ensures k <= |s|
    ensures forall i :: 0 <= i < k ==> IsJsWhitespace(s[i])
    ensures k < |s| ==> !IsJsWhitespace(s[k])
  {
    if s != [] && IsJsWhitespace(s[0]) then 1 + LeadingSpace(s[1..]) else 0
  }

  /** The length of s without its whitespace tail. */
  function TrailingEnd(s: JsString): (j: nat)
    ensures j <= |s|
    ensures forall i :: j <= i < |s| ==> IsJsWhitespace(s[i])
    ensures 0 < j ==> !IsJsWhitespace(s[j - 1])
  {
    if s != [] && IsJsWhitespace(s[|s| - 1]) then TrailingEnd(s[..|s| - 1]) else |s|
  }

  /** `s.trim()`: the slice of s between its leading and its trailing whitespace. */
  function Trim(s: JsString): (r: JsString)
    ensures LeadingSpace(s) + |r| <= |s|
    ensures r == s[LeadingSpace(s)..LeadingSpace(s) + |r|]
    ensures forall i :: LeadingSpace(s) + |r| <= i < |s| ==> IsJsWhitespace(s[i])
    ensures r != [] ==> !IsJsWhitespace(r[0]) && !IsJsWhitespace(r[|r| - 1])
  {
    var t := s[LeadingSpace(s)..];
    t[..TrailingEnd(t)]
  }

  /** Trimming yields the empty string exactly for blank input. */
  lemma TrimEmptyIffBlank(s: JsString)
    ensures Trim(s) == [] <==> IsBlank(s)
  {
    var k := LeadingSpace(s);
    if Trim(s) == [] {
      assert k + |Trim(s)| == k;
    }
    if IsBlank(s) {
      assert k == |s|;
    }
  }

  /** A string with no whitespace at either end is its own trim. */
  lemma TrimFixed(s: JsString)
    requires s == [] || (!IsJsWhitespace(s[0]) && !IsJsWhitespace(s[|s| - 1]))
    ensures Trim(s) == s
  {
    if s != [] {
      assert LeadingSpace(s) == 0;
      assert !IsJsWhitespace(s[|s| - 1]);
    }
  }

  /** Trimming twice is trimming once. */
  lemma TrimIdempotent(s: JsString)
    ensures Trim(Trim(s)) == Trim(s)
  {
    TrimFixed(Trim(s));
  }

  // ---------------------------------------------------------------------------
  // Number to decimal string (template literals and `+` on a non-negative integer)
  // ---------------------------------------------------------------------------

  predicate IsDigit(u: CodeUnit)
  {
    '0' as int <= u <= '9' as int
  }

  predicate AllDigits(s: JsString)
  {
    forall i :: 0 <= i < |s| ==> IsDigit(s[i])
  }

  /** `String(n)` for a non-negative integer: its decimal digits, no leading zero. */
  function NatToDecimal(n: nat): (r: JsString)
    ensures r != [] && AllDigits(r)
    ensures r[0] == '0' as int ==> n == 0
  {
    if n < 10 then ['0' as int + n]
    else NatToDecimal(n / 10) + ['0' as int + n % 10]
  }

  /** The number a string of decimal digits denotes. */
  function DecimalValue(s: JsString): nat
    requires AllDigits(s)
  {
    if s == [] then 0 else 10 * DecimalValue(s[..|s| - 1]) + (s[|s| - 1] - '0' as int)
  }

  /** Reading back the printed number gives the number. */
  lemma {:induction false} DecimalRoundTrip(n: nat)
    ensures DecimalValue(NatToDecimal(n)) == n
  {
    if n >= 10 {
      var r := NatToDecimal(n);
      assert r[..|r| - 1] == NatToDecimal(n / 10);
      DecimalRoundTrip(n / 10);
    }
  }
}
