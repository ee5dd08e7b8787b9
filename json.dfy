/**
 * The part of Python's value model that the request handlers rely on: a decoded
 * JSON body, `str(v)`, `int(v)`, `float(v)` and `str.strip()`.
 */
module Json {
  import opened Wrappers

  /** A value as `json.loads` decodes it. */
  datatype Value =
    | JNull
    | JBool(b: bool)
    | JInt(i: int)
    | JFloat(x: real)
    | JString(s: string)
    | JArray(items: seq<Value>)
    | JObject(fields: map<string, Value>)

  /** A decoded request body that is a JSON object. */
  type Payload = map<string, Value>

  /**
   * The Python conversions this model does not spell out: `int(s)` on a string,
   * `float(v)` on any value, and `str(v)` on a float, a list or a dict.
   * `None` stands for the TypeError or ValueError the conversion raises.
   * `floatOf` stands only for values that `float()` reads as a finite number:
   * Python's `nan` and `inf` have no `real` counterpart.
   */
  datatype Coercion = Coercion(
    intOfString: string -> Option<int>,
    floatOf: Value -> Option<real>,
    render: Value -> string)

  // ---------------------------------------------------------------------------
  // Whitespace and str.strip()
  // ---------------------------------------------------------------------------

  /** The characters for which Python's `str.isspace()` holds. */
  predicate IsSpace(c: char)
  {
    var n := c as int;
    || (0x09 <= n <= 0x0D) || (0x1C <= n <= 0x20)
    || n == 0x85 || n == 0xA0 || n == 0x1680
    || (0x2000 <= n <= 0x200A)
    || n == 0x2028 || n == 0x2029 || n == 0x202F || n == 0x205F || n == 0x3000
  }

  /** True when every character of `s` is whitespace (in particular when `s` is empty). */
  predicate Blank(s: string)
  {
    forall i :: 0 <= i < |s| ==> IsSpace(s[i])
  }

  /** The first index at or after `i` that does not hold whitespace, or `|s|`. */
  function SkipSpaces(s: string, i: nat): (k: nat)
    requires i <= |s|
    ensures i <= k <= |s|
    ensures forall j :: i <= j < k ==> IsSpace(s[j])
    ensures k == |s| || !IsSpace(s[k])
    decreases |s| - i
  {
    if i < |s| && IsSpace(s[i]) then SkipSpaces(s, i + 1) else i
  }

  /** The end of `s[lo..e]` once its trailing whitespace is dropped. */
  function SkipSpacesBack(s: string, lo: nat, e: nat): (k: nat)
    requires lo <= e <= |s|
    ensures lo <= k <= e
    ensures forall j :: k <= j < e ==> IsSpace(s[j])
    ensures k == lo || !IsSpace(s[k - 1])
    decreases e
  {
    if lo < e && IsSpace(s[e - 1]) then SkipSpacesBack(s, lo, e - 1) else e
  }

  /**
   * Python's `s.strip()`. It is empty exactly when `s` is blank; otherwise it
   * starts and ends with a non-space character (StripSlice adds that it is the
   * slice of `s` left once the whitespace at both ends is cut away).
   */
  function Strip(s: string): (r: string)
    ensures r == [] <==> Blank(s)
    ensures r != [] ==> !IsSpace(r[0]) && !IsSpace(r[|r| - 1])
  {
    var b := SkipSpaces(s, 0);
    var e := SkipSpacesBack(s, b, |s|);
    assert Blank(s) ==> b == |s|;
    s[b..e]
  }

  /** What `strip()` keeps is a slice of its input with only whitespace on either side. */
  lemma StripSlice(s: string)
    ensures var b, r := SkipSpaces(s, 0), Strip(s);
      && b + |r| <= |s| && r == s[b..b + |r|]
      && (forall i :: 0 <= i < b ==> IsSpace(s[i]))
      && (forall i :: b + |r| <= i < |s| ==> IsSpace(s[i]))
  {
  }

  /** Stripping twice is stripping once. */
  lemma StripIdempotent(s: string)
    ensures Strip(Strip(s)) == Strip(s)
  {
    var r := Strip(s);
    if r != [] {
      assert SkipSpaces(r, 0) == 0;
      assert SkipSpacesBack(r, 0, |r|) == |r|;
    }
  }

  // ---------------------------------------------------------------------------
  // Decimal digits: str.isdigit(), int(digits) and str(n)
  // ---------------------------------------------------------------------------

  /** An ASCII decimal digit (Unicode digits outside ASCII are not modelled). */
  predicate IsDigit(c: char)
  {
    '0' <= c <= '9'
  }

  /** `s.isdigit()`: non-empty and made of digits only. */
  predicate IsDigits(s: string)
  {
    |s| > 0 && forall i :: 0 <= i < |s| ==> IsDigit(s[i])
  }

  function DigitChar(d: nat): (c: char)
    requires d < 10
    ensures IsDigit(c) && (c as int) - ('0' as int) == d
  {
    (('0' as int) + d) as char
  }

  /** `int(s)` for a string of decimal digits (leading zeros allowed). */
  function DigitsValue(s: string): nat
    requires forall i :: 0 <= i < |s| ==> IsDigit(s[i])
  {
    if s == [] then 0
    else
      assert IsDigit(s[|s| - 1]);
      DigitsValue(s[..|s| - 1]) * 10 + ((s[|s| - 1] as int) - ('0' as int))
  }

  /** `str(n)` for a natural number: its decimal digits, most significant first. */
  function DecimalString(n: nat): (r: string)
    ensures IsDigits(r)
    ensures |r| > 1 ==> r[0] != '0'
  {
    if n < 10 then [DigitChar(n)] else DecimalString(n / 10) + [DigitChar(n % 10)]
  }

  /** Reading back the digits `str(n)` prints gives `n`. */
  lemma {:induction false} DecimalRoundTrip(n: nat)
    ensures DigitsValue(DecimalString(n)) == n
  {
    if n >= 10 {
      var s := DecimalString(n);
      assert s[..|s| - 1] == DecimalString(n / 10);
      DecimalRoundTrip(n / 10);
    }
  }

  /** Leading zeros do not change the value `int()` reads. */
  lemma {:induction false} LeadingZeros(s: string)
    requires forall i :: 0 <= i < |s| ==> IsDigit(s[i])
    ensures DigitsValue("0" + s) == DigitsValue(s)
  {
    if s != [] {
      var t := "0" + s;
      assert t[..|t| - 1] == "0" + s[..|s| - 1];
      LeadingZeros(s[..|s| - 1]);
    }
  }

  // ---------------------------------------------------------------------------
  // str(v), int(v), float(v)
  // ---------------------------------------------------------------------------

  /** `str(i)` for any integer. */
  function IntString(i: int): string
  {
    if i < 0 then "-" + DecimalString(-i) else DecimalString(i)
  }

  /** Python's `str(v)`. */
  function Str(conv: Coercion, v: Value): string
  {
    match v
    case JNull => "None"
    case JBool(b) => if b then "True" else "False"
    case JInt(i) => IntString(i)
    case JString(s) => s
    case _ => conv.render(v)
  }

  /** `int(x)` for a float: truncation toward zero. */
  function Truncate(x: real): (r: int)
    ensures x >= 0.0 ==> 0 <= r && r as real <= x < r as real + 1.0
    ensures x < 0.0 ==> r <= 0 && r as real - 1.0 < x <= r as real
  {
    if x >= 0.0 then x.Floor else -((-x).Floor)
  }

  /**
   * Python's `int(v)`; `None` is the TypeError (null, list, dict) or the
   * ValueError (a string that is not an integer literal) it raises.
   */
  function ToInt(conv: Coercion, v: Value): Option<int>
  {
    match v
    case JNull => None
    case JBool(b) => Some(if b then 1 else 0)
    case JInt(i) => Some(i)
    case JFloat(x) => Some(Truncate(x))
    case JString(s) => conv.intOfString(s)
    case JArray(_) => None
    case JObject(_) => None
  }

  /** `payload.get(key, "")`. */
  function Field(p: Payload, key: string): Value
  {
    if key in p then p[key] else JString("")
  }

  /** `str(payload.get(key, ""))`: a missing key reads as the empty string, a string as itself. */
  function Text(conv: Coercion, p: Payload, key: string): (t: string)
    ensures key !in p ==> t == ""
    ensures key in p && p[key].JString? ==> t == p[key].s
  {
    var v := Field(p, key);
    assert key !in p ==> v == JString("");
    Str(conv, v)
  }

  /** `str(payload.get(key, "")).strip()`. */
  function StrippedField(conv: Coercion, p: Payload, key: string): (r: string)
    ensures key !in p ==> r == ""
    ensures key in p && p[key].JString? ==> r == Strip(p[key].s)
    ensures r == [] <==> Blank(Text(conv, p, key))
    ensures r != [] ==> !IsSpace(r[0]) && !IsSpace(r[|r| - 1])
  {
    Strip(Text(conv, p, key))
  }
}
