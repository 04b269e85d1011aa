/**
 * Bytes and Go's `hex.EncodeToString`: lowercase base16 (section 8 of
 * RFC 4648), two characters per byte, high nibble first.
 */
module GoHex {
  import opened Wrappers

  type byte = x: int | 0 <= x < 256
  type Bytes = seq<byte>

  predicate IsLowerHex(c: char) {
    '0' <= c <= '9' || 'a' <= c <= 'f'
  }

  /** The alphabet "0123456789abcdef", indexed by nibble value. */
  function HexChar(nibble: nat): (c: char)
    requires nibble < 16
    ensures IsLowerHex(c)
  {
    if nibble < 10 then ('0' as int + nibble) as char else ('a' as int + nibble - 10) as char
  }

  /** The nibble a lowercase hex character stands for. */
  function HexValue(c: char): (v: nat)
    requires IsLowerHex(c)
    ensures v < 16 && HexChar(v) == c
  {
    if c <= '9' then c as int - '0' as int else c as int - 'a' as int + 10
  }

  lemma HexCharValue(nibble: nat)
    requires nibble < 16
    ensures HexValue(HexChar(nibble)) == nibble
  {
  }

  /** `hex.EncodeToString`. */
  function EncodeToString(bs: Bytes): (r: string)
    ensures |r| == 2 * |bs|
    ensures forall i :: 0 <= i < |r| ==> IsLowerHex(r[i])
  {
    if bs == [] then "" else [HexChar(bs[0] / 16), HexChar(bs[0] % 16)] + EncodeToString(bs[1..])
  }

  /** Reads a string of lowercase hex pairs back into bytes; `None` on anything else. */
  function DecodeString(s: string): Option<Bytes>
    decreases |s|
  {
    if s == [] then Some([])
    else if |s| < 2 || !IsLowerHex(s[0]) || !IsLowerHex(s[1]) then None
    else match DecodeString(s[2..])
      case None => None
      case Some(rest) => Some([HexValue(s[0]) * 16 + HexValue(s[1])] + rest)
  }

  /** Decoding undoes encoding. */
  lemma {:induction false} DecodeEncode(bs: Bytes)
    ensures DecodeString(EncodeToString(bs)) == Some(bs)
  {
    if bs != [] {
      var s := EncodeToString(bs);
      assert s[2..] == EncodeToString(bs[1..]);
      DecodeEncode(bs[1..]);
      var b := bs[0];
      assert s[0] == HexChar(b / 16) && s[1] == HexChar(b % 16);
      HexCharValue(b / 16);
      HexCharValue(b % 16);
      assert HexValue(s[0]) * 16 + HexValue(s[1]) == b;
      assert [b] + bs[1..] == bs;
    }
  }

  /** Different byte strings never share a hex encoding. */
  lemma EncodeInjective(a: Bytes, b: Bytes)
    requires EncodeToString(a) == EncodeToString(b)
    ensures a == b
  {
    DecodeEncode(a);
    DecodeEncode(b);
  }
}
