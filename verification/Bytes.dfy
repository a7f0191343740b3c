/** Bytes, little-endian words and the FNV-1a 64-bit checksum shared by the framed
    protocol and the durable-state file.  Words are modelled as bounded integers, so
    every shift and mask of the C++ code is a division or remainder here. */
module Bytes {

  type byte = x: int | 0 <= x < 256

  const TWO_32: int := 0x1_0000_0000
  const TWO_64: int := 0x1_0000_0000_0000_0000

  type u32 = x: int | 0 <= x < 0x1_0000_0000
  type u64 = x: int | 0 <= x < 0x1_0000_0000_0000_0000

  // ---- little-endian words ---------------------------------------------------

  ghost function Pow256(n: nat): (p: nat)
    ensures p >= 1
  {
    if n == 0 then 1 else 256 * Pow256(n - 1)
  }

  lemma Pow256Words()
    ensures Pow256(1) == 256
    ensures Pow256(4) == TWO_32
    ensures Pow256(8) == TWO_64
  {
    assert Pow256(2) == 65536;
    assert Pow256(3) == 256 * Pow256(2);
    assert Pow256(4) == 256 * Pow256(3);
    assert Pow256(5) == 256 * Pow256(4);
    assert Pow256(6) == 256 * Pow256(5);
    assert Pow256(7) == 256 * Pow256(6);
    assert Pow256(8) == 256 * Pow256(7);
  }

  /** The low `n` bytes of `x`, least significant first. */
  function Le(n: nat, x: nat): (b: seq<byte>)
    ensures |b| == n
  {
    if n == 0 then [] else [x % 256] + Le(n - 1, x / 256)
  }

  /** The word a little-endian byte string denotes. */
  function UnLe(b: seq<byte>): (x: nat)
  {
    if b == [] then 0 else b[0] + 256 * UnLe(b[1..])
  }

  lemma {:induction false} UnLeBound(b: seq<byte>)
    ensures UnLe(b) < Pow256(|b|)
  {
    if b != [] { UnLeBound(b[1..]); }
  }

  lemma {:induction false} UnLeOfLe(n: nat, x: nat)
    requires x < Pow256(n)
    ensures UnLe(Le(n, x)) == x
  {
    if n > 0 {
      assert x / 256 < Pow256(n - 1);
      UnLeOfLe(n - 1, x / 256);
      assert Le(n, x)[1..] == Le(n - 1, x / 256);
    }
  }

  lemma {:induction false} LeOfUnLe(b: seq<byte>)
    ensures Le(|b|, UnLe(b)) == b
  {
    if b != [] {
      LeOfUnLe(b[1..]);
      assert UnLe(b) % 256 == b[0] && UnLe(b) / 256 == UnLe(b[1..]);
      assert b == [b[0]] + b[1..];
    }
  }

  function GetU32(b: seq<byte>): (x: u32)
    requires |b| == 4
    ensures Le(4, x) == b
  {
    UnLeBound(b); Pow256Words(); LeOfUnLe(b);
    UnLe(b)
  }

  function GetU64(b: seq<byte>): (x: u64)
    requires |b| == 8
    ensures Le(8, x) == b
  {
    UnLeBound(b); Pow256Words(); LeOfUnLe(b);
    UnLe(b)
  }

  lemma GetU32OfLe(x: u32)
    ensures GetU32(Le(4, x)) == x
  {
    Pow256Words(); UnLeOfLe(4, x);
  }

  lemma GetU64OfLe(x: u64)
    ensures GetU64(Le(8, x)) == x
  {
    Pow256Words(); UnLeOfLe(8, x);
  }

  // ---- FNV-1a ----------------------------------------------------------------

  const FNV_OFFSET: u64 := 0xcbf2_9ce4_8422_2325
  const FNV_PRIME: u64 := 0x100_0000_01b3
  // FNV_PRIME * FNV_INVERSE == 1 + FNV_QUOTIENT * 2^64
  const FNV_INVERSE: u64 := 0xce96_5057_aff6_957b
  const FNV_QUOTIENT: u64 := 887285111055

  ghost function Pow2(n: nat): (p: nat)
    ensures p >= 1
  {
    if n == 0 then 1 else 2 * Pow2(n - 1)
  }

  /** Exclusive or of the low `n` bits. */
  function XorBits(n: nat, a: nat, b: nat): (x: nat)
  {
    if n == 0 then 0 else (if a % 2 == b % 2 then 0 else 1) + 2 * XorBits(n - 1, a / 2, b / 2)
  }

  lemma {:induction false} XorBound(n: nat, a: nat, b: nat)
    ensures XorBits(n, a, b) < Pow2(n)
  {
    if n > 0 { XorBound(n - 1, a / 2, b / 2); }
  }

  lemma XorStep(n: nat, a: nat, b: nat)
    requires n > 0
    ensures XorBits(n, a, b) / 2 == XorBits(n - 1, a / 2, b / 2)
    ensures XorBits(n, a, b) % 2 == if a % 2 == b % 2 then 0 else 1
  {
  }

  /** Xor is injective in each operand, bit by bit. */
  lemma {:induction false} XorCancels(n: nat, a: nat, a': nat, b: nat)
    requires a < Pow2(n) && a' < Pow2(n)
    ensures XorBits(n, a, b) == XorBits(n, b, a)
    ensures XorBits(n, a, b) == XorBits(n, a', b) ==> a == a'
  {
    if n > 0 {
      XorStep(n, a, b); XorStep(n, a', b);
      assert a / 2 < Pow2(n - 1) && a' / 2 < Pow2(n - 1);
      XorCancels(n - 1, a / 2, a' / 2, b / 2);
    }
  }

  lemma XorByteBound(h: u64, b: byte)
    ensures h / 256 * 256 + XorBits(8, h % 256, b) < TWO_64
  {
    XorBound(8, h % 256, b); Pow2Byte();
  }

  lemma Pow2Byte()
    ensures Pow2(8) == 256
  {
    assert Pow2(4) == 16;
    assert Pow2(5) == 2 * Pow2(4);
    assert Pow2(6) == 2 * Pow2(5);
    assert Pow2(7) == 2 * Pow2(6);
  }

  /** `h ^ b` for a 64-bit word and a byte: only the low byte changes. */
  function XorByte(h: u64, b: byte): (x: u64)
  {
    XorByteBound(h, b);
    h / 256 * 256 + XorBits(8, h % 256, b)
  }

  function MulPrime(h: u64): (x: u64)
  {
    h * FNV_PRIME % TWO_64
  }

  function Mix(h: u64, b: byte): (x: u64)
  {
    MulPrime(XorByte(h, b))
  }

  /** FNV-1a over a byte string, from the left. */
  function Fnv(d: seq<byte>): (h: u64)
  {
    if d == [] then FNV_OFFSET else Mix(Fnv(d[..|d| - 1]), d[|d| - 1])
  }

  lemma LowByte(q: nat, x: byte)
    ensures (q * 256 + x) % 256 == x && (q * 256 + x) / 256 == q
  {
  }

  lemma XorByteParts(h: u64, b: byte)
    ensures XorByte(h, b) % 256 == XorBits(8, h % 256, b)
    ensures XorByte(h, b) / 256 == h / 256
  {
    XorBound(8, h % 256, b); Pow2Byte();
    LowByte(h / 256, XorBits(8, h % 256, b));
  }

  lemma XorByteInjective(h: u64, h': u64, b: byte, b': byte)
    ensures b == b' && h != h' ==> XorByte(h, b) != XorByte(h', b')
    ensures h == h' && b != b' ==> XorByte(h, b) != XorByte(h', b')
  {
    Pow2Byte();
    XorByteParts(h, b); XorByteParts(h', b');
    XorCancels(8, h % 256, h' % 256, b);
    XorCancels(8, b, b', h % 256);
    XorCancels(8, b', b, h % 256);
  }

  /** Multiplication by the odd FNV prime is a bijection modulo 2^64. */
  lemma MulPrimeInvertible(h: u64)
    ensures MulPrime(h) * FNV_INVERSE % TWO_64 == h
  {
    var q := h * FNV_PRIME / TWO_64;
    assert MulPrime(h) == h * FNV_PRIME - q * TWO_64;
    assert FNV_PRIME * FNV_INVERSE == 1 + FNV_QUOTIENT * TWO_64;
    assert MulPrime(h) * FNV_INVERSE == h + (h * FNV_QUOTIENT - q * FNV_INVERSE) * TWO_64;
    ModUnique(MulPrime(h) * FNV_INVERSE, h, h * FNV_QUOTIENT - q * FNV_INVERSE);
  }

  lemma ModUnique(x: int, r: u64, k: int)
    requires x == r + k * TWO_64
    ensures x % TWO_64 == r
  {
  }

  lemma MixInjective(h: u64, h': u64, b: byte, b': byte)
    ensures b == b' && h != h' ==> Mix(h, b) != Mix(h', b')
    ensures h == h' && b != b' ==> Mix(h, b) != Mix(h', b')
  {
    XorByteInjective(h, h', b, b');
    MulPrimeInvertible(XorByte(h, b));
    MulPrimeInvertible(XorByte(h', b'));
  }

  /** Changing exactly one byte always changes the checksum. */
  lemma {:induction false} FnvDetectsOneByte(d: seq<byte>, i: nat, b: byte)
    requires i < |d| && d[i] != b
    ensures Fnv(d[i := b]) != Fnv(d)
  {
    var n := |d| - 1;
    var d' := d[i := b];
    if i == n {
      assert d'[..n] == d[..n];
      MixInjective(Fnv(d[..n]), Fnv(d[..n]), d[n], b);
    } else {
      FnvDetectsOneByte(d[..n], i, b);
      assert d'[..n] == d[..n][i := b];
      MixInjective(Fnv(d[..n]), Fnv(d'[..n]), d[n], d[n]);
    }
  }

  /** The checksum loop: one xor and one multiplication per byte. */
  method ComputeFnv(d: seq<byte>) returns (h: u64)
    ensures h == Fnv(d)
  {
    h := FNV_OFFSET;
    for i := 0 to |d|
      invariant h == Fnv(d[..i])
    {
      assert d[..i + 1][..i] == d[..i];
      h := XorByte(h, d[i]);
      h := MulPrime(h);
    }
    assert d[..|d|] == d;
  }
}
