/** The `@encode(method)` directive (src/directives/encode.ts): the method is checked on
    every resolution, before delegating; a string result is re-encoded from its UTF-8
    bytes with that Node `Buffer` encoding; any other result passes through. */
module EncodeDirective {
  import opened Wrappers
  import opened JsValues
  import opened Errors
  import opened Schema
  import opened DirectiveUtils
  import Utf8
  import Hex
  import Base64

  /** The encoding names `Buffer.isEncoding` accepts, compared in lower case. */
  const NodeEncodings: set<string> :=
    {"utf8", "utf-8", "ucs2", "ucs-2", "utf16le", "utf-16le", "latin1", "binary",
     "base64", "base64url", "hex", "ascii"}

  const InvalidMethodMessage: string := "Invalid Encoding Method!"

  function LowerAscii(s: string): (r: string)
    ensures |r| == |s|
    decreases |s|
  {
    if s == [] then ""
    else [if 'A' <= s[0] <= 'Z' then (s[0] as int + 32) as char else s[0]] + LowerAscii(s[1..])
  }

  /** `Buffer.isEncoding(encoding)`: a non-empty string naming a Node encoding, in any case. */
  predicate IsEncoding(encoding: Value)
    ensures IsEncoding(encoding) ==> encoding.Str?
    ensures encoding.Str? && LowerAscii(encoding.s) == encoding.s ==> (IsEncoding(encoding) <==> encoding.s in NodeEncodings)
  {
    encoding.Str? && |encoding.s| > 0 && LowerAscii(encoding.s) in NodeEncodings
  }

  /** `Buffer.from(s).toString(encoding)`. Hex and base64 are given here, and their text
      decodes back to the bytes and so to `s`; the other Node encodings are the `foreign`
      function, handed the lower-cased name and the UTF-8 bytes. */
  function EncodeText(encoding: string, s: string, foreign: (string, seq<Utf8.Byte>) -> string): (t: string)
    ensures LowerAscii(encoding) == "hex" ==>
      |t| == 2 * |Utf8.Encode(s)| && Hex.Decode(t).Some? && Utf8.Decode(Hex.Decode(t).value) == Some(s)
    ensures LowerAscii(encoding) == "base64" ==>
      |t| == 4 * ((|Utf8.Encode(s)| + 2) / 3) && Base64.Decode(t).Some? && Utf8.Decode(Base64.Decode(t).value) == Some(s)
    ensures LowerAscii(encoding) !in {"hex", "base64"} ==> t == foreign(LowerAscii(encoding), Utf8.Encode(s))
  {
    var name := LowerAscii(encoding);
    var bytes := Utf8.Encode(s);
    Utf8.DecodeEncode(s);
    if name == "hex" then
      Hex.EncodeShape(bytes);
      Hex.DecodeEncode(bytes);
      Hex.Encode(bytes)
    else if name == "base64" then
      Base64.EncodeLength(bytes);
      Base64.DecodeEncode(bytes);
      Base64.Encode(bytes)
    else foreign(name, bytes)
  }

  /** The check that runs before the inner resolver is invoked. */
  function Guard(encoding: Value): (r: Option<Error>)
    ensures r.None? <==> IsEncoding(encoding)
    ensures r.Some? ==> r.value == GraphQLError(InvalidMethodMessage)
  {
    if IsEncoding(encoding) then None else Some(GraphQLError(InvalidMethodMessage))
  }

  /** What the wrapper returns once the inner resolver has settled. */
  function Settle(encoding: Value, inner: Outcome, foreign: (string, seq<Utf8.Byte>) -> string): (r: Outcome)
    requires IsEncoding(encoding)
    ensures inner.Err? ==> r == inner
    ensures inner.Ok? && !inner.value.Str? ==> r == inner
    ensures inner.Ok? && inner.value.Str? ==> r == Ok(Str(EncodeText(encoding.s, inner.value.s, foreign)))
  {
    match inner
    case Ok(Str(s)) => Ok(Str(EncodeText(encoding.s, s, foreign)))
    case _ => inner
  }

  /** The hex encoding gives two lower-case digits per UTF-8 byte, in byte order, and
      decodes back to the string's bytes. */
  lemma HexEncoding(s: string, foreign: (string, seq<Utf8.Byte>) -> string)
    ensures var t := EncodeText("hex", s, foreign);
      |t| == 2 * |Utf8.Encode(s)| &&
      (forall i :: 0 <= i < |t| ==> '0' <= t[i] <= '9' || 'a' <= t[i] <= 'f') &&
      Hex.Decode(t) == Some(Utf8.Encode(s))
  {
    assert LowerAscii("hex") == "hex";
    var bs := Utf8.Encode(s);
    assert EncodeText("hex", s, foreign) == Hex.Encode(bs);
    Hex.EncodeShape(bs);
    Hex.DecodeEncode(bs);
  }

  /** Two method names that differ only in the case of their letters are accepted
      alike and encode alike; so "HEX" is hex. */
  lemma MethodCaseInsensitive(m1: string, m2: string, s: string, foreign: (string, seq<Utf8.Byte>) -> string)
    requires LowerAscii(m1) == LowerAscii(m2)
    ensures IsEncoding(Str(m1)) <==> IsEncoding(Str(m2))
    ensures EncodeText(m1, s, foreign) == EncodeText(m2, s, foreign)
    ensures IsEncoding(Str("HEX")) && EncodeText("HEX", s, foreign) == EncodeText("hex", s, foreign)
  {
    assert LowerAscii("HEX") == "hex" == LowerAscii("hex");
  }

  lemma EddieInHex(foreign: (string, seq<Utf8.Byte>) -> string)
    ensures EncodeText("hex", "Eddie", foreign) == "4564646965"
  {
    Utf8.EncodeAscii("Eddie");
    assert LowerAscii("hex") == "hex";
    var bs := Utf8.Encode("Eddie");
    assert bs == [69, 100, 100, 105, 101];
    assert Hex.Encode(bs) == "4564646965";
  }

  lemma ThuoInBase64(foreign: (string, seq<Utf8.Byte>) -> string)
    ensures EncodeText("base64", "Thuo", foreign) == "VGh1bw=="
  {
    Utf8.EncodeAscii("Thuo");
    assert LowerAscii("base64") == "base64";
    var bs := Utf8.Encode("Thuo");
    assert bs == [84, 104, 117, 111];
    assert bs[3..] == [111];
    assert Base64.Encode(bs) == Base64.Group(84, 104, 117) + Base64.Encode([111]);
  }

  /** The OBJECT_FIELD mapper: a field whose first `@name` instance is truthy gets its
      resolver wrapped, with the `method` argument read now but not checked now. */
  function Mapper(name: string, cfg: FieldConfig): Option<FieldConfig> {
    var d := FirstInstance(cfg, name);
    if Truthy(d) then Some(WithResolver(cfg, EncodeWrapper(Property(d, "method"), CurrentResolver(cfg)))) else None
  }

  /** `encodingDirectiveTransformer`: every annotated field is wrapped whatever its encoding,
      valid or not; other config entries and unannotated fields are untouched. */
  function Transform(name: string, s: Schema): (r: Schema)
    ensures r.Keys == s.Keys
    ensures forall f | f in s :: !Truthy(FirstInstance(s[f], name)) ==> r[f] == s[f]
    ensures forall f | f in s :: Truthy(FirstInstance(s[f], name)) ==>
      r[f] == WithResolver(s[f], EncodeWrapper(Property(FirstInstance(s[f], name), "method"), CurrentResolver(s[f])))
  {
    MapSchema(s, cfg => Mapper(name, cfg))
  }
}
