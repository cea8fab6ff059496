/** Bytes, little-endian integers and the bitwise operations of the cipher layer. */
module Bytes {

  type byte = b: int | 0 <= b < 256
  type bytes = seq<byte>

  /** 256 to the power of n, the number of values an n-byte field holds. */
  function Radix(n: nat): (r: nat)
    ensures r > 0
  {
    if n == 0 then 1 else 256 * Radix(n - 1)
  }

  /** The n low-order bytes of v, least significant first. */
  function ToLittleEndian(v: nat, n: nat): (r: bytes)
    ensures |r| == n
  {
    if n == 0 then [] else [v % 256] + ToLittleEndian(v / 256, n - 1)
  }

  /** The integer a little-endian byte string stands for. */
  function FromLittleEndian(data: bytes): nat {
    if data == [] then 0 else data[0] + 256 * FromLittleEndian(data[1..])
  }

  /** Writing a value that fits its field and reading it back is the identity. */
  lemma {:induction false} LittleEndianRoundTrip(v: nat, n: nat)
    requires v < Radix(n)
    ensures FromLittleEndian(ToLittleEndian(v, n)) == v
  {
    if n != 0 {
      LittleEndianRoundTrip(v / 256, n - 1);
      assert ToLittleEndian(v, n)[1..] == ToLittleEndian(v / 256, n - 1);
    }
  }

  /** Digit i of a number to base 256, the lowest first. */
  function Digit(v: nat, i: nat): byte {
    if i == 0 then v % 256 else Digit(v / 256, i - 1)
  }

  /** The field holds the digits of the value, the lowest first. */
  lemma {:induction false} LittleEndianDigits(v: nat, n: nat, i: nat)
    requires i < n
    ensures ToLittleEndian(v, n)[i] == Digit(v, i)
  {
    if i > 0 {
      LittleEndianDigits(v / 256, n - 1, i - 1);
    }
  }

  lemma DigitAndRest(digit: byte, rest: nat)
    ensures (digit + 256 * rest) % 256 == digit && (digit + 256 * rest) / 256 == rest
  {
  }

  /** Every field reads as a value that fits it, and writing that value gives the field back. */
  lemma {:induction false} LittleEndianCanonical(data: bytes)
    ensures FromLittleEndian(data) < Radix(|data|)
    ensures ToLittleEndian(FromLittleEndian(data), |data|) == data
  {
    if data != [] {
      LittleEndianCanonical(data[1..]);
      var rest := FromLittleEndian(data[1..]);
      DigitAndRest(data[0], rest);
      assert FromLittleEndian(data) == data[0] + 256 * rest && Radix(|data|) == 256 * Radix(|data| - 1);
      assert ToLittleEndian(data[0] + 256 * rest, |data|) == [data[0]] + ToLittleEndian(rest, |data| - 1);
      hide FromLittleEndian, ToLittleEndian, Radix;
      assert data == [data[0]] + data[1..];
    }
  }

  /** Four bytes read one after another are the front of what they were read from, and n more come right behind. */
  lemma FourRead(data: bytes, header: bytes, afterA: bytes, afterB: bytes, afterC: bytes, rest: bytes, n: nat)
    requires |header| == 4 && data == [header[0]] + afterA && afterA == [header[1]] + afterB
    requires afterB == [header[2]] + afterC && afterC == [header[3]] + rest
    ensures |data| == 4 + |rest| && data[..4] == header
    ensures n <= |rest| ==> data[4..4 + n] == rest[..n]
  {
  }

  /** Exclusive or of the n low-order bits of a and b. */
  function XorBits(a: nat, b: nat, n: nat): (r: nat) {
    if n == 0 then 0
    else (if a % 2 == b % 2 then 0 else 1) + 2 * XorBits(a / 2, b / 2, n - 1)
  }

  function Power2(n: nat): (r: nat)
    ensures r > 0
  {
    if n == 0 then 1 else 2 * Power2(n - 1)
  }

  lemma {:induction false} XorBitsFits(a: nat, b: nat, n: nat)
    ensures XorBits(a, b, n) < Power2(n)
  {
    if n != 0 {
      XorBitsFits(a / 2, b / 2, n - 1);
    }
  }

  lemma {:induction false} XorBitsCancels(a: nat, b: nat, n: nat)
    requires a < Power2(n)
    ensures XorBits(XorBits(a, b, n), b, n) == a
  {
    if n != 0 {
      XorBitsCancels(a / 2, b / 2, n - 1);
      var bit, rest := if a % 2 == b % 2 then 0 else 1, XorBits(a / 2, b / 2, n - 1);
      BitAndRest(bit, rest);
      assert XorBits(a, b, n) == bit + 2 * rest;
      assert XorBits(bit + 2 * rest, b, n) == (if bit == b % 2 then 0 else 1) + 2 * XorBits(rest, b / 2, n - 1);
    }
  }

  lemma BitAndRest(bit: nat, rest: nat)
    requires bit < 2
    ensures (bit + 2 * rest) % 2 == bit && (bit + 2 * rest) / 2 == rest
  {
  }

  /** Bit k of a number, the lowest first. */
  function Bit(a: nat, k: nat): (r: nat)
    ensures r < 2
  {
    if k == 0 then a % 2 else Bit(a / 2, k - 1)
  }

  /** A bit of the outcome is set exactly when it is set in one of the two and not in the other. */
  lemma {:induction false} XorBit(a: nat, b: nat, n: nat, k: nat)
    ensures Bit(XorBits(a, b, n), k) == if k < n && Bit(a, k) != Bit(b, k) then 1 else 0
  {
    if n == 0 {
      if k > 0 {
        XorBit(a, b, 0, k - 1);
      }
    } else {
      var bit, rest := if a % 2 == b % 2 then 0 else 1, XorBits(a / 2, b / 2, n - 1);
      BitAndRest(bit, rest);
      if k > 0 {
        XorBit(a / 2, b / 2, n - 1, k - 1);
      }
    }
  }

  /** Flipping the n bits of a number takes it from the largest one. */
  lemma {:induction false} XorOnes(a: nat, n: nat)
    requires a < Power2(n)
    ensures XorBits(a, Power2(n) - 1, n) == Power2(n) - 1 - a
  {
    if n != 0 {
      XorOnes(a / 2, n - 1);
      BitAndRest(1, Power2(n - 1) - 1);
    }
  }

  /** Bits flipped before an exclusive or come out flipped. */
  lemma {:induction false} XorFlipped(a: nat, b: nat, n: nat)
    requires a < Power2(n)
    ensures XorBits(Power2(n) - 1 - a, b, n) == Power2(n) - 1 - XorBits(a, b, n)
  {
    if n != 0 {
      var x := Power2(n - 1) - 1 - a / 2;
      BitAndRest(1 - a % 2, x);
      assert Power2(n) - 1 - a == 1 - a % 2 + 2 * x;
      XorFlipped(a / 2, b / 2, n - 1);
    }
  }

  function XorByte(a: byte, b: byte): byte {
    XorBitsFits(a, b, 8);
    assert Power2(8) == 256 by { assert Power2(4) == 16; }
    XorBits(a, b, 8)
  }

  lemma XorByteCancels(a: byte, b: byte)
    ensures XorByte(XorByte(a, b), b) == a
  {
    assert Power2(8) == 256 by { assert Power2(4) == 16; }
    XorBitsCancels(a, b, 8);
  }

  lemma XorByteBit(a: byte, b: byte, k: nat)
    requires k < 8
    ensures Bit(XorByte(a, b), k) == if Bit(a, k) != Bit(b, k) then 1 else 0
  {
    XorBit(a, b, 8, k);
  }

  lemma XorByteFlips(a: byte, b: byte)
    ensures XorByte(a, 0xFF) == 255 - a
    ensures XorByte(255 - a, b) == 255 - XorByte(a, b)
  {
    assert Power2(8) == 256 by { assert Power2(4) == 16; }
    XorOnes(a, 8);
    XorFlipped(a, b, 8);
  }

  /** Byte-by-byte exclusive or of two strings of one length. */
  function XorBytes(a: bytes, b: bytes): (r: bytes)
    requires |a| == |b|
    ensures |r| == |a|
  {
    seq(|a|, i requires 0 <= i < |a| => XorByte(a[i], b[i]))
  }

  lemma XorBytesCancels(a: bytes, b: bytes)
    requires |a| == |b|
    ensures XorBytes(XorBytes(a, b), b) == a
  {
    forall i | 0 <= i < |a|
      ensures XorBytes(XorBytes(a, b), b)[i] == a[i]
    {
      XorByteCancels(a[i], b[i]);
    }
  }
}
