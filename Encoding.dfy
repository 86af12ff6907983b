/** Bytes and the UTF-8 encoding applied to an inbound websocket text message
    (QString::toUtf8 in RemoteIPC::onTextMessageReceivedWS). */
module Encoding {

  newtype byte = x: int | 0 <= x < 256

  /** The continuation byte 10xxxxxx carrying the lowest six bits of `bits`. */
  function Continuation(bits: nat): (b: byte)
    ensures 0x80 <= b < 0xC0
  {
    (0x80 + bits % 64) as byte
  }

  /** The UTF-8 encoding of one Unicode scalar value. */
  function EncodeChar(ch: char): (r: seq<byte>)
    ensures 1 <= |r| <= 4
    ensures (|r| == 1) <==> (ch as int < 0x80)
    ensures |r| == 1 ==> r[0] as int == ch as int
    ensures |r| > 1 ==> forall k :: 1 <= k < |r| ==> 0x80 <= r[k] < 0xC0
  {
    var c := ch as int;
    if c < 0x80 then [c as byte]
    else if c < 0x800 then [(0xC0 + c / 64) as byte, Continuation(c)]
    else if c < 0x10000 then [(0xE0 + c / 4096) as byte, Continuation(c / 64), Continuation(c)]
    else [(0xF0 + c / 262144) as byte, Continuation(c / 4096), Continuation(c / 64), Continuation(c)]
  }

  /** The UTF-8 encoding of a string: at least one and at most four bytes per character. */
  function Utf8(s: string): (r: seq<byte>)
    ensures |s| <= |r| <= 4 * |s|
    ensures r == [] <==> s == []
  {
    if s == [] then [] else EncodeChar(s[0]) + Utf8(s[1..])
  }

  /** A string of ASCII characters encodes to one byte per character, with the same value. */
  lemma {:induction false} Utf8OfAscii(s: string)
    requires forall i :: 0 <= i < |s| ==> s[i] as int < 0x80
    ensures |Utf8(s)| == |s|
    ensures forall i :: 0 <= i < |s| ==> Utf8(s)[i] as int == s[i] as int
  {
    if s != [] {
      Utf8OfAscii(s[1..]);
      assert Utf8(s) == [s[0] as int as byte] + Utf8(s[1..]);
    }
  }
}
