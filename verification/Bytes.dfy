/**
 * Unsigned bytes and little-endian integers. SimpleSmartCtl works on Kotlin's
 * signed `Byte`, but every read masks it with `and 0xFF`, so a byte is
 * modelled directly as its unsigned value 0..255.
 */
module Bytes {

  type byte = x: int | 0 <= x < 256

  /** 256^n: the number of values that n bytes can hold. */
  function Pow256(n: nat): (r: nat)
    ensures r >= 1
  {
    if n == 0 then 1 else 256 * Pow256(n - 1)
  }

  /** The n-byte little-endian encoding of v (bytes beyond v's width are 0). */
  function LittleEndian(v: nat, n: nat): (r: seq<byte>)
    ensures |r| == n
  {
    if n == 0 then [] else [v % 256] + LittleEndian(v / 256, n - 1)
  }

  /** The unsigned value of a little-endian byte sequence. */
  function FromLittleEndian(s: seq<byte>): nat
  {
    if s == [] then 0 else s[0] + 256 * FromLittleEndian(s[1..])
  }

  /** A little-endian value of n bytes is below 256^n. */
  lemma {:induction false} FromLittleEndianBound(s: seq<byte>)
    ensures FromLittleEndian(s) < Pow256(|s|)
  {
    if s != [] {
      FromLittleEndianBound(s[1..]);
    }
  }

  /** Splitting a byte off the bottom of a + 256 * x. */
  lemma ByteDivMod(a: byte, x: nat)
    ensures (a + 256 * x) % 256 == a && (a + 256 * x) / 256 == x
  {
  }

  /** Decoding an encoding gives the value back when it fits in n bytes. */
  lemma {:induction false} FromLittleEndianOfLittleEndian(v: nat, n: nat)
    requires v < Pow256(n)
    ensures FromLittleEndian(LittleEndian(v, n)) == v
  {
    if n > 0 {
      FromLittleEndianOfLittleEndian(v / 256, n - 1);
      assert LittleEndian(v, n)[1..] == LittleEndian(v / 256, n - 1);
    }
  }

  /** Encoding a decoded sequence at its own width gives the sequence back. */
  lemma {:induction false} LittleEndianOfFromLittleEndian(s: seq<byte>)
    ensures LittleEndian(FromLittleEndian(s), |s|) == s
  {
    if s != [] {
      LittleEndianOfFromLittleEndian(s[1..]);
      ByteDivMod(s[0], FromLittleEndian(s[1..]));
    }
  }

  /**
   * Accumulating from the low byte upwards: the value of the first k+1 bytes
   * is the value of the first k plus byte k shifted left by 8*k bits. This is
   * the step of SimpleSmartCtl's `raw += (b and 0xFF) shl (8 * k)` loop.
   */
  lemma {:induction false} FromLittleEndianSnoc(s: seq<byte>, k: nat)
    requires k < |s|
    ensures FromLittleEndian(s[..k + 1]) == FromLittleEndian(s[..k]) + s[k] * Pow256(k)
  {
    if k > 0 {
      var t := s[1..];
      FromLittleEndianSnoc(t, k - 1);
      assert s[..k + 1][1..] == t[..k];
      assert s[..k][1..] == t[..k - 1];
      var a, b := FromLittleEndian(t[..k - 1]), t[k - 1] * Pow256(k - 1);
      calc {
        FromLittleEndian(s[..k + 1]);
        s[0] + 256 * FromLittleEndian(t[..k]);
        s[0] + 256 * (a + b);
        { assert 256 * (a + b) == 256 * a + 256 * b; }
        s[0] + 256 * a + 256 * b;
        { assert 256 * b == s[k] * (256 * Pow256(k - 1)); }
        FromLittleEndian(s[..k]) + s[k] * Pow256(k);
      }
    }
  }

  /** The Kotlin `Int` x as the 32-bit pattern `ByteBuffer.putInt` writes. */
  function Int32Bits(x: int): (r: nat)
    ensures r < 0x1_0000_0000
    ensures (x - r) % 0x1_0000_0000 == 0
  {
    x % 0x1_0000_0000
  }
}
