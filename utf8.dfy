/** UTF-8 as RFC 3629 defines it: what `Buffer.from(s)` produces from a string. */
module Utf8 {
  import opened Wrappers

  type Byte = b: int | 0 <= b < 256

  predicate IsContinuation(b: Byte) {
    0x80 <= b < 0xC0
  }

  /** The one to four bytes of a code point. */
  function EncodeChar(c: char): (bs: seq<Byte>)
    ensures 1 <= |bs| <= 4
    ensures |bs| == 1 <==> (c as int) < 0x80
    ensures forall k :: 1 <= k < |bs| ==> IsContinuation(bs[k])
  {
    var cp := c as int;
    if cp < 0x80 then [cp]
    else if cp < 0x800 then [0xC0 + cp / 64, 0x80 + cp % 64]
    else if cp < 0x10000 then [0xE0 + cp / 4096, 0x80 + (cp / 64) % 64, 0x80 + cp % 64]
    else [0xF0 + cp / 262144, 0x80 + (cp / 4096) % 64, 0x80 + (cp / 64) % 64, 0x80 + cp % 64]
  }

  function Encode(s: string): (bs: seq<Byte>)
    ensures |bs| >= |s|
    decreases |s|
  {
    if s == [] then [] else EncodeChar(s[0]) + Encode(s[1..])
  }

  predicate IsScalar(cp: int) {
    0 <= cp < 0xD800 || 0xE000 <= cp < 0x110000
  }

  /** Strict decoding: rejects overlong forms, surrogates, code points past U+10FFFF
      and truncated or stray continuation bytes. */
  function Decode(bs: seq<Byte>): Option<string>
    decreases |bs|
  {
    if bs == [] then Some("")
    else
      var b0 := bs[0];
      if b0 < 0x80 then Prepend(b0 as char, Decode(bs[1..]))
      else if 0xC2 <= b0 < 0xE0 && |bs| >= 2 && IsContinuation(bs[1]) then
        var cp := (b0 as int - 0xC0) * 64 + (bs[1] as int - 0x80);
        Prepend(cp as char, Decode(bs[2..]))
      else if 0xE0 <= b0 < 0xF0 && |bs| >= 3 && IsContinuation(bs[1]) && IsContinuation(bs[2]) then
        var cp := (b0 as int - 0xE0) * 4096 + (bs[1] as int - 0x80) * 64 + (bs[2] as int - 0x80);
        if 0x800 <= cp && IsScalar(cp) then Prepend(cp as char, Decode(bs[3..])) else None
      else if 0xF0 <= b0 < 0xF5 && |bs| >= 4 && IsContinuation(bs[1]) && IsContinuation(bs[2]) && IsContinuation(bs[3]) then
        var cp := (b0 as int - 0xF0) * 262144 + (bs[1] as int - 0x80) * 4096 + (bs[2] as int - 0x80) * 64 + (bs[3] as int - 0x80);
        if 0x10000 <= cp < 0x110000 then Prepend(cp as char, Decode(bs[4..])) else None
      else None
  }

  lemma SplitBy64(x: nat)
    ensures x == (x / 64) * 64 + x % 64
  {
  }

  lemma SplitBy4096(x: nat)
    ensures x / 64 == (x / 4096) * 64 + (x / 64) % 64
  {
    var q := x / 64;
    assert q / 64 == x / 4096;
  }

  lemma SplitBy262144(x: nat)
    ensures x / 4096 == (x / 262144) * 64 + (x / 4096) % 64
  {
    var q := x / 4096;
    assert q / 64 == x / 262144;
  }

  lemma DecodeEncodeChar(c: char, rest: seq<Byte>)
    ensures Decode(EncodeChar(c) + rest) == Prepend(c, Decode(rest))
  {
    var cp := c as int;
    var bs := EncodeChar(c) + rest;
    if cp < 0x80 {
      assert bs[1..] == rest;
    } else if cp < 0x800 {
      assert bs[2..] == rest;
      SplitBy64(cp);
      assert (bs[0] as int - 0xC0) * 64 + (bs[1] as int - 0x80) == cp;
    } else if cp < 0x10000 {
      assert bs[3..] == rest;
      SplitBy64(cp);
      SplitBy4096(cp);
      assert (bs[0] as int - 0xE0) * 4096 + (bs[1] as int - 0x80) * 64 + (bs[2] as int - 0x80) == cp;
    } else {
      assert bs[4..] == rest;
      SplitBy64(cp);
      SplitBy4096(cp);
      SplitBy262144(cp);
      assert (bs[0] as int - 0xF0) * 262144 + (bs[1] as int - 0x80) * 4096 + (bs[2] as int - 0x80) * 64 + (bs[3] as int - 0x80) == cp;
    }
  }

  /** Decoding what `Encode` produced gives the original string back. */
  lemma {:induction false} DecodeEncode(s: string)
    ensures Decode(Encode(s)) == Some(s)
    decreases |s|
  {
    if s != [] {
      DecodeEncode(s[1..]);
      DecodeEncodeChar(s[0], Encode(s[1..]));
      assert [s[0]] + s[1..] == s;
    }
  }

  /** ASCII text encodes byte for byte. */
  lemma {:induction false} EncodeAscii(s: string)
    requires forall i :: 0 <= i < |s| ==> (s[i] as int) < 0x80
    ensures |Encode(s)| == |s|
    ensures forall i :: 0 <= i < |s| ==> Encode(s)[i] == s[i] as int
    decreases |s|
  {
    if s != [] {
      EncodeAscii(s[1..]);
    }
  }
}
