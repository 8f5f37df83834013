/** UTF-8 encoding of text, as `new TextEncoder().encode(s)` produces it. A Dafny
    `char` is a Unicode scalar value, so every character has an encoding. */
module Utf8 {
  import opened Hex

  predicate IsAscii(s: string) {
    forall i :: 0 <= i < |s| ==> (s[i] as int) < 0x80
  }

  predicate IsContinuation(b: byte) {
    0x80 <= b < 0xC0
  }

  /** One to four bytes: a leading byte whose high bits give the length, then
      continuation bytes of the form 10xxxxxx. */
  function EncodeChar(c: char): (bs: seq<byte>)
    ensures 1 <= |bs| <= 4
    ensures |bs| == 1 <==> (c as int) < 0x80
    ensures |bs| == 2 <==> 0x80 <= (c as int) < 0x800
    ensures |bs| == 3 <==> 0x800 <= (c as int) < 0x10000
    ensures |bs| == 1 ==> bs[0] == c as int
    ensures |bs| == 2 ==> 0xC0 <= bs[0] < 0xE0
    ensures |bs| == 3 ==> 0xE0 <= bs[0] < 0xF0
    ensures |bs| == 4 ==> 0xF0 <= bs[0] < 0xF8
    ensures forall i :: 1 <= i < |bs| ==> IsContinuation(bs[i])
    // The payload bits, high to low, spell the code point.
    ensures |bs| == 2 ==> (bs[0] as int - 0xC0) * 0x40 + (bs[1] as int - 0x80) == c as int
    ensures |bs| == 3 ==>
      (bs[0] as int - 0xE0) * 0x1000 + (bs[1] as int - 0x80) * 0x40 + (bs[2] as int - 0x80) == c as int
    ensures |bs| == 4 ==>
      (bs[0] as int - 0xF0) * 0x40000 + (bs[1] as int - 0x80) * 0x1000
      + (bs[2] as int - 0x80) * 0x40 + (bs[3] as int - 0x80) == c as int
  {
    var cp := c as int;
    if cp < 0x80 then
      [cp]
    else
      // Six payload bits at a time, low bits first.
      var low, q1 := cp % 0x40, cp / 0x40;
      if cp < 0x800 then
        [0xC0 + q1, 0x80 + low]
      else
        var mid, q2 := q1 % 0x40, q1 / 0x40;
        if cp < 0x10000 then
          [0xE0 + q2, 0x80 + mid, 0x80 + low]
        else
          [0xF0 + q2 / 0x40, 0x80 + q2 % 0x40, 0x80 + mid, 0x80 + low]
  }

  function Encode(s: string): (bs: seq<byte>)
    ensures |s| <= |bs| <= 4 * |s|
  {
    if |s| == 0 then [] else EncodeChar(s[0]) + Encode(s[1..])
  }

  /** Encoding a concatenation is concatenating the encodings, so the encoded
      preimage is the four encoded parts in a row. */
  lemma {:induction false} EncodeAppend(a: string, b: string)
    ensures Encode(a + b) == Encode(a) + Encode(b)
  {
    if |a| == 0 {
      assert a + b == b;
    } else {
      assert (a + b)[0] == a[0];
      assert (a + b)[1..] == a[1..] + b;
      EncodeAppend(a[1..], b);
    }
  }

  /** ASCII text (decimal digits, a currency code, a uuid) encodes to its own
      code points, one byte per character. */
  lemma {:induction false} EncodeAscii(s: string)
    requires IsAscii(s)
    ensures |Encode(s)| == |s|
    ensures forall i :: 0 <= i < |s| ==> Encode(s)[i] == s[i] as int
  {
    if |s| > 0 {
      EncodeAscii(s[1..]);
    }
  }
}
