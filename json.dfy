/** `JSON.stringify` and `JSON.parse` over the modelled value domain (null, booleans,
    integers, strings), with string escaping as section 7 of RFC 8259 and ECMA-262's
    QuoteJSONString describe it, and `Number()` over the texts the cache stores. */
module Json {
  import opened Wrappers
  import opened Decimal
  import opened JsValues
  import Hex

  /** The JSON text of one string character. */
  function QuoteChar(c: char): string {
    if c == '"' then "\\\""
    else if c == '\\' then "\\\\"
    else if c as int == 8 then "\\b"
    else if c as int == 9 then "\\t"
    else if c as int == 10 then "\\n"
    else if c as int == 12 then "\\f"
    else if c as int == 13 then "\\r"
    else if (c as int) < 0x20 then "\\u00" + [Hex.Digit(c as int / 16), Hex.Digit(c as int % 16)]
    else [c]
  }

  function Escape(s: string): string
    decreases |s|
  {
    if s == [] then "" else QuoteChar(s[0]) + Escape(s[1..])
  }

  /** `JSON.stringify(s)` for a string. */
  function Quote(s: string): string {
    "\"" + Escape(s) + "\""
  }

  /** `JSON.stringify(v)`: a string, or `undefined` for `undefined` (NaN prints as "null"). */
  function Stringify(v: Value): (r: Value)
    ensures r == Undefined <==> v == Undefined
    ensures r != Undefined ==> r.Str?
  {
    match v
    case Undefined => Undefined
    case Null => Str("null")
    case Bool(b) => Str(if b then "true" else "false")
    case Int(i) => Str(IntToString(i))
    case NaN => Str("null")
    case Str(s) => Str(Quote(s))
  }

  /** The values `JSON.stringify` prints and `JSON.parse` gives back unchanged. */
  predicate IsJsonValue(v: Value) {
    v.Null? || v.Bool? || v.Int? || v.Str?
  }

  /** Reading of the escape `\c` for the one-letter escapes of RFC 8259. */
  function SimpleUnescape(c: char): Option<char> {
    if c == '"' then Some('"')
    else if c == '\\' then Some('\\')
    else if c == '/' then Some('/')
    else if c == 'b' then Some(8 as char)
    else if c == 'f' then Some(12 as char)
    else if c == 'n' then Some(10 as char)
    else if c == 'r' then Some(13 as char)
    else if c == 't' then Some(9 as char)
    else None
  }

  /** Reads the rest of a JSON string after its opening quote; succeeds only when the
      closing quote is the last character of `t`. */
  function ParseStringTail(t: string): (r: Option<string>)
    ensures r.Some? ==> |t| >= 1 && t[|t| - 1] == '"'
    decreases |t|
  {
    if |t| == 0 then None
    else if t[0] == '"' then (if |t| == 1 then Some("") else None)
    else if t[0] == '\\' then
      if |t| >= 2 && SimpleUnescape(t[1]).Some? then
        Prepend(SimpleUnescape(t[1]).value, ParseStringTail(t[2..]))
      else if |t| >= 6 && t[1] == 'u' && Hex.IsDigit(t[2]) && Hex.IsDigit(t[3]) && Hex.IsDigit(t[4]) && Hex.IsDigit(t[5]) then
        var code := Hex.DigitValue(t[2]) * 4096 + Hex.DigitValue(t[3]) * 256 + Hex.DigitValue(t[4]) * 16 + Hex.DigitValue(t[5]);
        if 0xD800 <= code < 0xE000 then None
        else Prepend(code as char, ParseStringTail(t[6..]))
      else None
    else if (t[0] as int) < 0x20 then None
    else Prepend(t[0], ParseStringTail(t[1..]))
  }

  /** A JSON integer numeral: digits without a leading zero (except "0" itself). */
  predicate IsJsonDigits(d: string) {
    |d| > 0 && AllDigits(d) && (d[0] == '0' ==> |d| == 1)
  }

  /** `JSON.parse(t)` on texts that are a JSON null, boolean, integer or string. */
  function Parse(t: string): (r: Option<Value>)
    ensures r.Some? ==> IsJsonValue(r.value)
    ensures r == Some(Null) <==> t == "null"
    ensures r.Some? && r.value.Str? ==> |t| >= 2 && t[0] == '"' && t[|t| - 1] == '"'
  {
    if t == "null" then Some(Null)
    else if t == "true" then Some(Bool(true))
    else if t == "false" then Some(Bool(false))
    else if |t| > 0 && t[0] == '"' then
      match ParseStringTail(t[1..])
      case Some(s) => Some(Str(s))
      case None => None
    else if |t| > 0 && t[0] == '-' && IsJsonDigits(t[1..]) then Some(Int(-(DigitsValue(t[1..]) as int)))
    else if IsJsonDigits(t) then Some(Int(DigitsValue(t)))
    else None
  }

  /** `Number(v)` for the values the cache hands to it. A text is read as an optionally
      signed run of digits, or the empty text as 0; any other text as NaN. */
  function NumberText(t: string): Value {
    if t == "" then Int(0)
    else if t[0] == '-' && |t| > 1 && AllDigits(t[1..]) then Int(-(DigitsValue(t[1..]) as int))
    else if t[0] == '+' && |t| > 1 && AllDigits(t[1..]) then Int(DigitsValue(t[1..]))
    else if AllDigits(t) then Int(DigitsValue(t))
    else NaN
  }

  function ToNumber(v: Value): (r: Value)
    ensures r.Int? || r.NaN?
    ensures v.Int? ==> r == v
    ensures v.Str? && v.s != "" && !IsDigit(v.s[0]) && v.s[0] != '-' && v.s[0] != '+' ==> r == NaN
  {
    match v
    case Undefined => NaN
    case Null => Int(0)
    case Bool(b) => Int(if b then 1 else 0)
    case Int(i) => Int(i)
    case NaN => NaN
    case Str(s) => NumberText(s)
  }

  // ---------------------------------------------------------------------------
  // Round trips

  /** Reading back the escape of one character yields that character. */
  lemma ParseQuoteChar(c: char, t: string)
    ensures ParseStringTail(QuoteChar(c) + t) == Prepend(c, ParseStringTail(t))
  {
    var u := QuoteChar(c) + t;
    if c == '"' || c == '\\' || c as int in {8, 9, 10, 12, 13} {
      assert u[0] == '\\' && u[2..] == t;
    } else if (c as int) < 0x20 {
      var hi, lo := c as int / 16, c as int % 16;
      Hex.DigitRoundTrip(hi);
      Hex.DigitRoundTrip(lo);
      assert u[0] == '\\' && u[1] == 'u' && u[2] == '0' && u[3] == '0';
      assert u[4] == Hex.Digit(hi) && u[5] == Hex.Digit(lo) && u[6..] == t;
      assert SimpleUnescape('u') == None;
      assert Hex.DigitValue(u[2]) * 4096 + Hex.DigitValue(u[3]) * 256 + Hex.DigitValue(u[4]) * 16 + Hex.DigitValue(u[5]) == c as int;
    } else {
      assert u[0] == c && u[1..] == t;
    }
  }

  lemma {:induction false} ParseEscape(s: string)
    ensures ParseStringTail(Escape(s) + "\"") == Some(s)
    decreases |s|
  {
    if s == [] {
      assert Escape(s) + "\"" == "\"";
    } else {
      ParseEscape(s[1..]);
      assert Escape(s) + "\"" == QuoteChar(s[0]) + (Escape(s[1..]) + "\"");
      ParseQuoteChar(s[0], Escape(s[1..]) + "\"");
      assert [s[0]] + s[1..] == s;
    }
  }

  /** `JSON.parse(JSON.stringify(v))` gives `v` back for null, booleans, integers and strings. */
  lemma ParseStringify(v: Value)
    requires IsJsonValue(v)
    ensures Stringify(v).Str? && Parse(Stringify(v).s) == Some(v)
  {
    match v
    case Null =>
    case Bool(b) =>
    case Int(i) =>
      var t := IntToString(i);
      if i < 0 {
        NatToStringRoundTrip(-i);
        assert t[1..] == NatToString(-i);
      } else {
        NatToStringRoundTrip(i);
      }
    case Str(s) =>
      var t := Quote(s);
      assert t[0] == '"' && t[1..] == Escape(s) + "\"";
      ParseEscape(s);
      assert t != "null" && t != "true" && t != "false";
  }

  /** `Number(JSON.stringify(i))` is `i`. */
  lemma NumberOfStringifiedInt(i: int)
    ensures ToNumber(Stringify(Int(i))) == Int(i)
  {
    var t := IntToString(i);
    if i < 0 {
      NatToStringRoundTrip(-i);
      assert t[1..] == NatToString(-i);
    } else {
      NatToStringRoundTrip(i);
    }
  }

  /** `JSON.stringify` of a string always starts with a quote, so `Number()` of it is NaN. */
  lemma NumberOfStringifiedString(s: string)
    ensures ToNumber(Stringify(Str(s))) == NaN
  {
    var t := Quote(s);
    assert t[0] == '"' && !IsDigit(t[0]);
  }
}
