/**
 * UTF-8 as `Buffer.from(s, 'utf8')` produces it (RFC 3629, section 3), with a
 * strict decoder as its inverse. The signature check compares the UTF-8
 * bytes of two strings, and the round trip proved here is what makes "the
 * bytes are equal" mean "the strings are equal".
 */
module Utf8 {
  import opened Js

  type byte = x: int | 0 <= x < 0x100

  /** The one to four bytes that encode a Unicode scalar value. */
  function EncodeChar(c: char): (bs: seq<byte>)
    ensures 1 <= |bs| <= 4
  {
    var cp := c as int;
    if cp < 0x80 then [cp]
    else if cp < 0x800 then [0xC0 + cp / 0x40, 0x80 + cp % 0x40]
    else if cp < 0x1_0000 then [0xE0 + cp / 0x1000, 0x80 + cp / 0x40 % 0x40, 0x80 + cp % 0x40]
    else [0xF0 + cp / 0x4_0000, 0x80 + cp / 0x1000 % 0x40, 0x80 + cp / 0x40 % 0x40, 0x80 + cp % 0x40]
  }

  function Encode(s: string): (bs: seq<byte>)
    ensures |s| <= |bs| <= 4 * |s|
  {
    if s == [] then [] else EncodeChar(s[0]) + Encode(s[1..])
  }

  /** How many bytes a sequence starting with `lead` has; 0 when `lead` cannot start one. */
  function SequenceLength(lead: byte): nat {
    if lead < 0x80 then 1
    else if 0xC2 <= lead < 0xE0 then 2
    else if 0xE0 <= lead < 0xF0 then 3
    else if 0xF0 <= lead < 0xF5 then 4
    else 0
  }

  predicate IsContinuation(b: byte) {
    0x80 <= b < 0xC0
  }

  /** The scalar value encoded by one complete, well-formed byte sequence. */
  function DecodeChar(bs: seq<byte>): Option<char>
    requires 1 <= |bs| <= 4
  {
    if |bs| == 1 then
      if bs[0] < 0x80 then Some(bs[0] as char) else None
    else if exists i :: 1 <= i < |bs| && !IsContinuation(bs[i]) then None
    else
      var b := seq(|bs|, i requires 0 <= i < |bs| => bs[i] as int);
      var cp :=
        if |bs| == 2 then (b[0] - 0xC0) * 0x40 + (b[1] - 0x80)
        else if |bs| == 3 then (b[0] - 0xE0) * 0x1000 + (b[1] - 0x80) * 0x40 + (b[2] - 0x80)
        else (b[0] - 0xF0) * 0x4_0000 + (b[1] - 0x80) * 0x1000 + (b[2] - 0x80) * 0x40 + (b[3] - 0x80);
      var least := if |bs| == 2 then 0x80 else if |bs| == 3 then 0x800 else 0x1_0000;
      if least <= cp < 0xD800 || (0xE000 <= cp < 0x11_0000 && least <= cp) then Some(cp as char) else None
  }

  /** Strict decoding: None on any ill-formed, overlong or surrogate sequence. */
  function Decode(bs: seq<byte>): Option<string>
    decreases |bs|
  {
    if bs == [] then Some([])
    else
      var n := SequenceLength(bs[0]);
      if n == 0 || |bs| < n then None
      else
        match DecodeChar(bs[..n])
        case None => None
        case Some(c) =>
          match Decode(bs[n..])
          case None => None
          case Some(rest) => Some([c] + rest)
  }

  lemma EncodeCharDecodes(c: char)
    ensures SequenceLength(EncodeChar(c)[0]) == |EncodeChar(c)|
    ensures DecodeChar(EncodeChar(c)) == Some(c)
  {
    var cp := c as int;
    if cp < 0x80 {
    } else if cp < 0x800 {
      TwoByteDecodes(c);
    } else if cp < 0x1_0000 {
      ThreeByteDecodes(c);
    } else {
      FourByteDecodes(c);
    }
  }

  lemma TwoByteDecodes(c: char)
    requires 0x80 <= c as int < 0x800
    ensures SequenceLength(EncodeChar(c)[0]) == 2
    ensures DecodeChar(EncodeChar(c)) == Some(c)
  {
  }

  lemma ThreeByteDecodes(c: char)
    requires 0x800 <= c as int < 0x1_0000
    ensures SequenceLength(EncodeChar(c)[0]) == 3
    ensures DecodeChar(EncodeChar(c)) == Some(c)
  {
  }

  lemma FourByteDecodes(c: char)
    requires 0x1_0000 <= c as int
    ensures SequenceLength(EncodeChar(c)[0]) == 4
    ensures DecodeChar(EncodeChar(c)) == Some(c)
  {
  }

  /** Decoding undoes encoding. */
  lemma {:induction false} DecodeEncode(s: string)
    ensures Decode(Encode(s)) == Some(s)
  {
    if s != [] {
      var head := EncodeChar(s[0]);
      var bs := Encode(s);
      EncodeCharDecodes(s[0]);
      assert bs[..|head|] == head;
      assert bs[|head|..] == Encode(s[1..]);
      DecodeEncode(s[1..]);
      assert [s[0]] + s[1..] == s;
    }
  }

  /** Two strings with the same UTF-8 bytes are the same string. */
  lemma EncodeInjective(s: string, t: string)
    ensures Encode(s) == Encode(t) <==> s == t
  {
    DecodeEncode(s);
    DecodeEncode(t);
  }
}
