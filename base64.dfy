/** Base 64 as section 4 of RFC 4648, with `=` padding: what Node's `'base64'` emits. */
module Base64 {
  import opened Wrappers
  import opened Utf8

  type Index = i: int | 0 <= i < 64

  /** The base 64 alphabet of RFC 4648, section 4, Table 1. */
  function Char(i: Index): char {
    if i < 26 then ('A' as int + i) as char
    else if i < 52 then ('a' as int + i - 26) as char
    else if i < 62 then ('0' as int + i - 52) as char
    else if i == 62 then '+'
    else '/'
  }

  predicate IsChar(c: char) {
    'A' <= c <= 'Z' || 'a' <= c <= 'z' || '0' <= c <= '9' || c == '+' || c == '/'
  }

  function IndexOf(c: char): Index
    requires IsChar(c)
  {
    if 'A' <= c <= 'Z' then c as int - 'A' as int
    else if 'a' <= c <= 'z' then c as int - 'a' as int + 26
    else if '0' <= c <= '9' then c as int - '0' as int + 52
    else if c == '+' then 62
    else 63
  }

  lemma CharIndex(i: Index)
    ensures IsChar(Char(i)) && IndexOf(Char(i)) == i
  {
  }

  /** The four characters of a whole group of three bytes. */
  function Group(b0: Byte, b1: Byte, b2: Byte): string {
    [Char(b0 / 4), Char((b0 % 4) * 16 + b1 / 16), Char((b1 % 16) * 4 + b2 / 64), Char(b2 % 64)]
  }

  /** Each group of three bytes gives four characters; a final group of one or two bytes
      gives two or three characters with the low bits zero, padded with `=` to four. */
  function Encode(bs: seq<Byte>): (s: string)
    decreases |bs|
  {
    if |bs| == 0 then ""
    else if |bs| == 1 then [Char(bs[0] / 4), Char((bs[0] % 4) * 16), '=', '=']
    else if |bs| == 2 then [Char(bs[0] / 4), Char((bs[0] % 4) * 16 + bs[1] / 16), Char((bs[1] % 16) * 4), '=']
    else Group(bs[0], bs[1], bs[2]) + Encode(bs[3..])
  }

  /** Strict decoding: whole groups of four, padding only in the last group, and the
      unused low bits of a padded group zero. */
  function Decode(s: string): Option<seq<Byte>>
    decreases |s|
  {
    if |s| == 0 then Some([])
    else if |s| < 4 || !IsChar(s[0]) || !IsChar(s[1]) then None
    else
      var i0, i1 := IndexOf(s[0]), IndexOf(s[1]);
      if |s| == 4 && s[2] == '=' && s[3] == '=' then
        if i1 % 16 == 0 then Some([i0 * 4 + i1 / 16]) else None
      else if !IsChar(s[2]) then None
      else
        var i2 := IndexOf(s[2]);
        if |s| == 4 && s[3] == '=' then
          if i2 % 4 == 0 then Some([i0 * 4 + i1 / 16, (i1 % 16) * 16 + i2 / 4]) else None
        else if !IsChar(s[3]) then None
        else
          var i3 := IndexOf(s[3]);
          match Decode(s[4..])
          case Some(rest) => Some([i0 * 4 + i1 / 16, (i1 % 16) * 16 + i2 / 4, (i2 % 4) * 64 + i3] + rest)
          case None => None
  }

  /** Four characters for every started group of three bytes. */
  lemma {:induction false} EncodeLength(bs: seq<Byte>)
    ensures |Encode(bs)| == 4 * ((|bs| + 2) / 3)
    decreases |bs|
  {
    if |bs| > 2 {
      EncodeLength(bs[3..]);
      assert (|bs| + 2) / 3 == (|bs[3..]| + 2) / 3 + 1;
    }
  }

  lemma RegroupOne(b0: Byte)
    ensures (b0 / 4) * 4 + ((b0 % 4) * 16) / 16 == b0
    ensures ((b0 % 4) * 16) % 16 == 0
  {
  }

  lemma RegroupTwo(b0: Byte, b1: Byte)
    ensures (b0 / 4) * 4 + ((b0 % 4) * 16 + b1 / 16) / 16 == b0
    ensures (((b0 % 4) * 16 + b1 / 16) % 16) * 16 + ((b1 % 16) * 4) / 4 == b1
    ensures ((b1 % 16) * 4) % 4 == 0
  {
  }

  lemma RegroupThree(b1: Byte, b2: Byte)
    ensures (((b1 % 16) * 4 + b2 / 64) % 4) * 64 + b2 % 64 == b2
    ensures ((b1 % 16) * 4 + b2 / 64) / 4 == b1 % 16
  {
  }

  lemma DecodeOne(b0: Byte)
    ensures Decode(Encode([b0])) == Some([b0])
  {
    CharIndex(b0 / 4);
    CharIndex((b0 % 4) * 16);
    RegroupOne(b0);
  }

  lemma DecodeTwo(b0: Byte, b1: Byte)
    ensures Decode(Encode([b0, b1])) == Some([b0, b1])
  {
    var s := Encode([b0, b1]);
    CharIndex(b0 / 4);
    CharIndex((b0 % 4) * 16 + b1 / 16);
    CharIndex((b1 % 16) * 4);
    RegroupTwo(b0, b1);
    assert |s| == 4 && s[2] != '=' && s[3] == '=';
    var i0: int, i1: int, i2: int := IndexOf(s[0]), IndexOf(s[1]), IndexOf(s[2]);
    assert i0 == b0 / 4 && i1 == (b0 % 4) * 16 + b1 / 16 && i2 == (b1 % 16) * 4;
    assert [i0 * 4 + i1 / 16, (i1 % 16) * 16 + i2 / 4] == [b0, b1];
  }

  lemma DecodeGroup(b0: Byte, b1: Byte, b2: Byte, t: string)
    ensures Decode(Group(b0, b1, b2) + t) ==
      match Decode(t)
      case Some(rest) => Some([b0, b1, b2] + rest)
      case None => None
  {
    var s := Group(b0, b1, b2) + t;
    var i0: int, i1: int, i2: int, i3: int := b0 / 4, (b0 % 4) * 16 + b1 / 16, (b1 % 16) * 4 + b2 / 64, b2 % 64;
    CharIndex(i0);
    CharIndex(i1);
    CharIndex(i2);
    CharIndex(i3);
    RegroupTwo(b0, b1);
    RegroupThree(b1, b2);
    assert s[2] != '=' && s[3] != '=';
    assert s[4..] == t;
    assert IndexOf(s[0]) == i0 && IndexOf(s[1]) == i1 && IndexOf(s[2]) == i2 && IndexOf(s[3]) == i3;
    assert [i0 * 4 + i1 / 16, (i1 % 16) * 16 + i2 / 4, (i2 % 4) * 64 + i3] == [b0, b1, b2];
  }

  /** Decoding the base 64 text gives the bytes back. */
  lemma {:induction false} DecodeEncode(bs: seq<Byte>)
    ensures Decode(Encode(bs)) == Some(bs)
    decreases |bs|
  {
    if |bs| == 1 {
      assert bs == [bs[0]];
      DecodeOne(bs[0]);
    } else if |bs| == 2 {
      assert bs == [bs[0], bs[1]];
      DecodeTwo(bs[0], bs[1]);
    } else if |bs| > 2 {
      DecodeEncode(bs[3..]);
      DecodeGroup(bs[0], bs[1], bs[2], Encode(bs[3..]));
      assert [bs[0], bs[1], bs[2]] + bs[3..] == bs;
    }
  }
}
