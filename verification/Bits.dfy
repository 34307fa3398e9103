/**
 Bytes, bit strings and their little-endian values.

 A HID report is a string of bits, least significant bit of the first byte first; every multi-bit value
 in it is stored least significant bit first (Device Class Definition for HID 1.11, section 5.8).
 */
module Bits {

  type byte = x: int | 0 <= x < 256
  type uint16 = x: int | 0 <= x < 0x10000
  type int16 = x: int | -0x8000 <= x < 0x8000

  function Pow2(n: nat): (r: nat)
    ensures r >= 1
  {
    if n == 0 then 1 else 2 * Pow2(n - 1)
  }

  /** The value of a bit string, least significant bit first. */
  function Nat(bits: seq<bool>): (r: nat) {
    if bits == [] then 0 else (if bits[0] then 1 else 0) + 2 * Nat(bits[1..])
  }

  /** The `width` low bits of `n`, least significant bit first. */
  function ToBits(n: nat, width: nat): (bits: seq<bool>)
    ensures |bits| == width
  {
    if width == 0 then [] else [n % 2 == 1] + ToBits(n / 2, width - 1)
  }

  function LittleEndian(bytes: seq<byte>): (r: nat) {
    if bytes == [] then 0 else bytes[0] + 256 * LittleEndian(bytes[1..])
  }

  function ByteBits(bytes: seq<byte>): (bits: seq<bool>)
    ensures |bits| == 8 * |bytes|
  {
    if bytes == [] then [] else ToBits(bytes[0], 8) + ByteBits(bytes[1..])
  }

  function U16(lo: byte, hi: byte): (r: uint16) {
    lo + 256 * hi
  }

  function S16(lo: byte, hi: byte): (r: int16) {
    if hi >= 0x80 then U16(lo, hi) - 0x10000 else U16(lo, hi)
  }

  /** Two's complement reading of a `width`-bit value. */
  function Signed(raw: nat, width: nat): (r: int) {
    if width > 0 && raw >= Pow2(width - 1) then raw - Pow2(width) else raw
  }

  lemma {:induction false} NatBound(bits: seq<bool>)
    ensures Nat(bits) < Pow2(|bits|)
  {
    if bits == [] {
    } else {
      NatBound(bits[1..]);
    }
  }

  lemma {:induction false} NatOfToBits(n: nat, width: nat)
    requires n < Pow2(width)
    ensures Nat(ToBits(n, width)) == n
  {
    if width == 0 {
    } else {
      NatOfToBits(n / 2, width - 1);
      assert ToBits(n, width)[1..] == ToBits(n / 2, width - 1);
    }
  }

  lemma {:induction false} ToBitsOfNat(bits: seq<bool>)
    ensures ToBits(Nat(bits), |bits|) == bits
  {
    if bits == [] {
    } else {
      ToBitsOfNat(bits[1..]);
    }
  }

  lemma {:induction false} NatConcat(a: seq<bool>, b: seq<bool>)
    ensures Nat(a + b) == Nat(a) + Pow2(|a|) * Nat(b)
  {
    if a == [] {
      assert a + b == b;
    } else {
      NatConcat(a[1..], b);
      assert (a + b)[1..] == a[1..] + b;
      assert Pow2(|a|) * Nat(b) == 2 * (Pow2(|a| - 1) * Nat(b));
    }
  }

  /** Bit `k` of the binary expansion is the parity of the quotient by 2^k. */
  lemma {:induction false} ToBitsAt(n: nat, width: nat, k: nat)
    requires k < width
    ensures ToBits(n, width)[k] == ((n / Pow2(k)) % 2 == 1)
  {
    if k == 0 {
    } else {
      ToBitsAt(n / 2, width - 1, k - 1);
      DivTwice(n, Pow2(k - 1));
    }
  }

  lemma DivTwice(n: nat, m: nat)
    requires m > 0
    ensures (n / 2) / m == n / (2 * m)
  {
    var q, s := (n / 2) / m, (n / 2) % m;
    TwiceProduct(m, q);
    QuotientIs(n, 2 * m, q, 2 * s + n % 2);
  }

  lemma TwiceProduct(m: nat, q: nat)
    ensures 2 * m * q == 2 * (m * q)
  {
  }

  lemma QuotientIs(n: nat, m: nat, q: nat, r: nat)
    requires m > 0 && r < m && n == m * q + r
    ensures n / m == q
  {
    var d := n / m - q;
    assert m * d == r - n % m;
    assert d <= 0 || m * d >= m;
    assert d >= 0 || m * d <= -(m as int);
  }

  lemma SliceAfter(head: seq<bool>, tail: seq<bool>, a: nat, b: nat)
    requires a <= b <= |tail|
    ensures (head + tail)[|head| + a..|head| + b] == tail[a..b]
  {
  }

  /** The bits after byte `i`, and those before it. */
  lemma {:induction false} ByteBitsDrop(bytes: seq<byte>, i: nat)
    requires i <= |bytes|
    ensures ByteBits(bytes)[8 * i..] == ByteBits(bytes[i..])
  {
    if i == 0 {
      assert bytes[0..] == bytes;
    } else {
      ByteBitsDrop(bytes[1..], i - 1);
      assert bytes[1..][i - 1..] == bytes[i..];
      SliceAfter(ToBits(bytes[0], 8), ByteBits(bytes[1..]), 8 * (i - 1), |ByteBits(bytes[1..])|);
    }
  }

  lemma {:induction false} ByteBitsTake(bytes: seq<byte>, j: nat)
    requires j <= |bytes|
    ensures ByteBits(bytes)[..8 * j] == ByteBits(bytes[..j])
  {
    if j == 0 {
      assert bytes[..0] == [];
    } else {
      ByteBitsTake(bytes[1..], j - 1);
      assert bytes[..j][1..] == bytes[1..][..j - 1];
      var head, tail := ToBits(bytes[0], 8), ByteBits(bytes[1..]);
      assert (head + tail)[..8 * j] == head + tail[..8 * (j - 1)];
    }
  }

  /** A byte-aligned slice of the bit string is the bit string of the byte slice. */
  lemma {:induction false} ByteBitsSlice(bytes: seq<byte>, i: nat, j: nat)
    requires i <= j <= |bytes|
    ensures ByteBits(bytes)[8 * i..8 * j] == ByteBits(bytes[i..j])
  {
    ByteBitsTake(bytes, j);
    ByteBitsDrop(bytes[..j], i);
    assert bytes[..j][i..] == bytes[i..j];
    assert ByteBits(bytes)[8 * i..8 * j] == ByteBits(bytes)[..8 * j][8 * i..];
  }

  lemma {:induction false} NatOfByteBits(bytes: seq<byte>)
    ensures Nat(ByteBits(bytes)) == LittleEndian(bytes)
  {
    if bytes == [] {
    } else {
      NatOfByteBits(bytes[1..]);
      NatConcat(ToBits(bytes[0], 8), ByteBits(bytes[1..]));
      NatOfToBits(bytes[0], 8);
    }
  }

  lemma SixteenBits()
    ensures Pow2(15) == 0x8000 && Pow2(16) == 0x10000
  {
    assert Pow2(4) == 16;
    assert Pow2(8) == 256;
    assert Pow2(12) == 4096;
    assert Pow2(15) == 0x8000;
  }

  lemma WordValue(lo: byte, hi: byte)
    ensures LittleEndian([lo, hi]) == U16(lo, hi)
  {
    assert [lo, hi][1..] == [hi];
    assert LittleEndian([hi]) == hi;
  }

  /** The two bytes at `i`, as a slice of the bit string and as a number. */
  lemma {:induction false} WordAt(bytes: seq<byte>, i: nat)
    requires i + 2 <= |bytes|
    ensures Nat(ByteBits(bytes)[8 * i..8 * i + 16]) == U16(bytes[i], bytes[i + 1])
  {
    ByteBitsSlice(bytes, i, i + 2);
    assert bytes[i..i + 2] == [bytes[i], bytes[i + 1]];
    NatOfByteBits(bytes[i..i + 2]);
    WordValue(bytes[i], bytes[i + 1]);
  }

  /** Bit `n` of the two bytes at `i`. */
  lemma {:induction false} BitAt(bytes: seq<byte>, i: nat, n: nat)
    requires i + 2 <= |bytes| && n < 16
    ensures ByteBits(bytes)[8 * i + n] == (U16(bytes[i], bytes[i + 1]) / Pow2(n) % 2 == 1)
  {
    var word := ByteBits(bytes)[8 * i..8 * i + 16];
    WordAt(bytes, i);
    ToBitsOfNat(word);
    ToBitsAt(U16(bytes[i], bytes[i + 1]), 16, n);
    assert word[n] == ByteBits(bytes)[8 * i + n];
  }
}
