/** Lowercase hexadecimal text of a digest: each byte printed with
    `b.toString(16).padStart(2, '0')` and the pieces joined with no separator. */
module Hex {
  import opened Exceptions

  type byte = x: int | 0 <= x < 256

  predicate IsLowerHexDigit(c: char) {
    ('0' <= c <= '9') || ('a' <= c <= 'f')
  }

  predicate IsLowerHex(s: string) {
    forall i :: 0 <= i < |s| ==> IsLowerHexDigit(s[i])
  }

  function HexDigit(d: nat): (c: char)
    requires d < 16
    ensures IsLowerHexDigit(c)
  {
    if d < 10 then (('0' as int) + d) as char else (('a' as int) + d - 10) as char
  }

  function HexValue(c: char): Option<nat> {
    if '0' <= c <= '9' then Some((c as int) - ('0' as int))
    else if 'a' <= c <= 'f' then Some((c as int) - ('a' as int) + 10)
    else None
  }

  lemma HexValueOfDigit(d: nat)
    requires d < 16
    ensures HexValue(HexDigit(d)) == Some(d)
  {
  }

  /** `n.toString(16)`: base-16 digits, lowercase, without leading zeros. */
  function ToRadix16(n: nat): (s: string)
    ensures 1 <= |s|
    ensures n < 16 ==> |s| == 1
    decreases n
  {
    if n < 16 then [HexDigit(n)] else ToRadix16(n / 16) + [HexDigit(n % 16)]
  }

  /** `s.padStart(width, fill)`. */
  function PadStart(s: string, width: nat, fill: char): (r: string)
    ensures |r| == if |s| >= width then |s| else width
  {
    if |s| >= width then s else seq(width - |s|, _ => fill) + s
  }

  /** One byte becomes exactly two lowercase hex digits, high nibble first:
      the padding supplies the '0' that `toString(16)` drops below 16. */
  function ByteToHex(b: byte): (s: string)
    ensures s == [HexDigit(b / 16), HexDigit(b % 16)]
  {
    if b < 16 then
      assert ToRadix16(b) == [HexDigit(b)];
      PadStart(ToRadix16(b), 2, '0')
    else
      assert ToRadix16(b / 16) == [HexDigit(b / 16)];
      PadStart(ToRadix16(b), 2, '0')
  }

  /** `bytes.map(ByteToHex).join('')`. */
  function Encode(bytes: seq<byte>): (s: string)
    ensures |s| == 2 * |bytes|
    ensures IsLowerHex(s)
    ensures forall i :: 0 <= i < |bytes| ==> s[2 * i] == HexDigit(bytes[i] / 16) && s[2 * i + 1] == HexDigit(bytes[i] % 16)
  {
    if |bytes| == 0 then [] else ByteToHex(bytes[0]) + Encode(bytes[1..])
  }

  /** Reads pairs of lowercase hex digits back into bytes. */
  function Decode(s: string): Option<seq<byte>>
    decreases |s|
  {
    if |s| == 0 then Some([])
    else if |s| == 1 then None
    else
      match (HexValue(s[0]), HexValue(s[1]), Decode(s[2..]))
      case (Some(hi), Some(lo), Some(rest)) => Some([(hi * 16 + lo) as byte] + rest)
      case _ => None
  }

  /** The hex text decodes back to the digest it was made from. */
  lemma {:induction false} RoundTrip(bytes: seq<byte>)
    ensures Decode(Encode(bytes)) == Some(bytes)
  {
    if |bytes| > 0 {
      var b := bytes[0];
      var s := Encode(bytes);
      assert s[2..] == Encode(bytes[1..]);
      HexValueOfDigit(b / 16);
      HexValueOfDigit(b % 16);
      RoundTrip(bytes[1..]);
      assert [b] + bytes[1..] == bytes;
    }
  }

  /** Distinct digests give distinct signatures. */
  lemma EncodeInjective(a: seq<byte>, b: seq<byte>)
    requires Encode(a) == Encode(b)
    ensures a == b
  {
    RoundTrip(a);
    RoundTrip(b);
  }
}
