/** Base 16 as section 8 of RFC 4648, with the lower-case digits Node's `'hex'` emits. */
module Hex {
  import opened Wrappers
  import opened Utf8

  function Digit(d: nat): (c: char)
    requires d < 16
    ensures '0' <= c <= '9' || 'a' <= c <= 'f'
  {
    if d < 10 then ('0' as int + d) as char else ('a' as int + d - 10) as char
  }

  predicate IsDigit(c: char) {
    '0' <= c <= '9' || 'a' <= c <= 'f' || 'A' <= c <= 'F'
  }

  function DigitValue(c: char): (d: nat)
    requires IsDigit(c)
    ensures d < 16
  {
    if '0' <= c <= '9' then c as int - '0' as int
    else if 'a' <= c <= 'f' then c as int - 'a' as int + 10
    else c as int - 'A' as int + 10
  }

  lemma DigitRoundTrip(d: nat)
    requires d < 16
    ensures IsDigit(Digit(d)) && DigitValue(Digit(d)) == d
  {
  }

  /** Two digits per byte, high nibble first, in byte order. */
  function Encode(bs: seq<Byte>): (s: string)
    decreases |bs|
  {
    if bs == [] then "" else [Digit(bs[0] / 16), Digit(bs[0] % 16)] + Encode(bs[1..])
  }

  function Decode(s: string): Option<seq<Byte>>
    decreases |s|
  {
    if s == [] then Some([])
    else if |s| >= 2 && IsDigit(s[0]) && IsDigit(s[1]) then
      match Decode(s[2..])
      case Some(rest) => Some([DigitValue(s[0]) * 16 + DigitValue(s[1])] + rest)
      case None => None
    else None
  }

  /** Length, lower-case digits and position of each byte's two digits. */
  lemma {:induction false} EncodeShape(bs: seq<Byte>)
    ensures |Encode(bs)| == 2 * |bs|
    ensures forall i :: 0 <= i < |bs| ==>
      Encode(bs)[2 * i] == Digit(bs[i] / 16) && Encode(bs)[2 * i + 1] == Digit(bs[i] % 16)
    ensures forall j :: 0 <= j < |Encode(bs)| ==> '0' <= Encode(bs)[j] <= '9' || 'a' <= Encode(bs)[j] <= 'f'
    decreases |bs|
  {
    if bs != [] {
      EncodeShape(bs[1..]);
      forall i | 0 <= i < |bs|
        ensures Encode(bs)[2 * i] == Digit(bs[i] / 16) && Encode(bs)[2 * i + 1] == Digit(bs[i] % 16)
      {
        if i > 0 {
          assert Encode(bs)[2 * i] == Encode(bs[1..])[2 * (i - 1)];
          assert Encode(bs)[2 * i + 1] == Encode(bs[1..])[2 * (i - 1) + 1];
        }
      }
    }
  }

  /** Decoding the hex text gives the bytes back. */
  lemma {:induction false} DecodeEncode(bs: seq<Byte>)
    ensures Decode(Encode(bs)) == Some(bs)
    decreases |bs|
  {
    if bs != [] {
      DecodeEncode(bs[1..]);
      var s := Encode(bs);
      assert s[2..] == Encode(bs[1..]);
      assert DigitValue(s[0]) * 16 + DigitValue(s[1]) == bs[0];
      assert [bs[0]] + bs[1..] == bs;
    }
  }
}
