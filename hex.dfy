/** Bytes and Python's `binascii.hexlify`: two lowercase hex digits per byte, high nibble first. */
module Hex {
  import opened Wrappers

  type byte = x: int | 0 <= x < 256
  type bytes = seq<byte>

  predicate IsLowerHexDigit(c: char) {
    '0' <= c <= '9' || 'a' <= c <= 'f'
  }

  function DigitChar(n: int): (c: char)
    requires 0 <= n < 16
    ensures IsLowerHexDigit(c)
  {
    if n < 10 then ('0' as int + n) as char else ('a' as int + n - 10) as char
  }

  function DigitValue(c: char): (v: Option<int>)
    ensures v.Some? <==> IsLowerHexDigit(c)
    ensures v.Some? ==> 0 <= v.value < 16 && DigitChar(v.value) == c
  {
    if '0' <= c <= '9' then Some(c as int - '0' as int)
    else if 'a' <= c <= 'f' then Some(c as int - 'a' as int + 10)
    else None
  }

  function Hexlify(bs: bytes): (h: string)
    ensures |h| == 2 * |bs|
    ensures forall i :: 0 <= i < |h| ==> IsLowerHexDigit(h[i])
  {
    if |bs| == 0 then "" else [DigitChar(bs[0] / 16), DigitChar(bs[0] % 16)] + Hexlify(bs[1..])
  }

  /** The inverse of `Hexlify` (Python's `binascii.unhexlify`, lowercase digits only). */
  function Unhexlify(h: string): Option<bytes>
    decreases |h|
  {
    if |h| == 0 then Some([])
    else if |h| == 1 then None
    else
      match (DigitValue(h[0]), DigitValue(h[1]), Unhexlify(h[2..]))
      case (Some(hi), Some(lo), Some(rest)) => Some([hi * 16 + lo] + rest)
      case _ => None
  }

  /** Position `2i` and `2i+1` of the hex text spell byte `i`. */
  lemma {:induction false} HexlifyAt(bs: bytes, i: int)
    requires 0 <= i < |bs|
    ensures Hexlify(bs)[2 * i] == DigitChar(bs[i] / 16)
    ensures Hexlify(bs)[2 * i + 1] == DigitChar(bs[i] % 16)
  {
    if i > 0 {
      HexlifyAt(bs[1..], i - 1);
    }
  }

  lemma {:induction false} UnhexlifyHexlify(bs: bytes)
    ensures Unhexlify(Hexlify(bs)) == Some(bs)
  {
    if |bs| > 0 {
      var h := Hexlify(bs);
      assert h[2..] == Hexlify(bs[1..]);
      UnhexlifyHexlify(bs[1..]);
      assert [bs[0]] + bs[1..] == bs;
    }
  }

  lemma HexlifyInjective(a: bytes, b: bytes)
    requires Hexlify(a) == Hexlify(b)
    ensures a == b
  {
    UnhexlifyHexlify(a);
    UnhexlifyHexlify(b);
  }
}
