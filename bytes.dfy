/** Fixed-width integers of the C++ sources, and their little-endian byte split. */
module Bytes {

  type uint8 = x: int | 0 <= x < 0x100
  type uint16 = x: int | 0 <= x < 0x1_0000
  type uint32 = x: int | 0 <= x < 0x1_0000_0000
  type int32 = x: int | -0x8000_0000 <= x < 0x8000_0000
  type pos = x: int | 0 < x witness 1

  /** `(uint8_t)(x & 0xFF)` for a two's-complement `x` of any width. */
  function Low(x: int): (r: uint8)
    ensures (x - r) % 0x100 == 0
  {
    x % 0x100
  }

  /** `(uint8_t)((x >> 8) & 0xFF)`: the arithmetic shift is a floor division. */
  function High(x: int): (r: uint8)
    ensures r == Low(x / 0x100)
  {
    (x / 0x100) % 0x100
  }


  /** A 16-bit value is its high byte times 256 plus its low byte. */
  lemma SplitUint16(x: uint16)
    ensures High(x) * 0x100 + Low(x) == x
  {
  }

  /** The `n` least significant bytes of `x`, low byte first. */
  function LittleEndian(x: int, n: nat): (r: seq<uint8>)
    ensures |r| == n
    decreases n
  {
    if n == 0 then [] else [Low(x)] + LittleEndian(x / 0x100, n - 1)
  }

  /** The unsigned value of a little-endian byte string. */
  function FromLittleEndian(s: seq<uint8>): nat
  {
    if s == [] then 0 else s[0] + 0x100 * FromLittleEndian(s[1..])
  }

  /** Two bytes, low byte first. */
  lemma FromLittleEndianPair(lo: uint8, hi: uint8)
    ensures FromLittleEndian([lo, hi]) == lo + 0x100 * hi
  {
    assert [hi][1..] == [];
    assert FromLittleEndian([hi]) == hi;
    assert [lo, hi][1..] == [hi];
  }

  function Pow256(n: nat): (r: pos)
  {
    if n == 0 then 1 else 0x100 * Pow256(n - 1)
  }

  lemma {:induction false} FromLittleEndianBound(s: seq<uint8>)
    ensures FromLittleEndian(s) < Pow256(|s|)
  {
    if s != [] {
      FromLittleEndianBound(s[1..]);
    }
  }

  /** Decoding the `n` low bytes of `x` gives `x` modulo 256^n. */
  lemma {:induction false} LittleEndianRoundTrip(x: int, n: nat)
    ensures FromLittleEndian(LittleEndian(x, n)) == x % Pow256(n)
    decreases n
  {
    if n > 0 {
      LittleEndianRoundTrip(x / 0x100, n - 1);
      ModStep(x, Pow256(n - 1));
    }
  }

  /** Splitting off the low byte: `x % (256 p) == x % 256 + 256 ((x / 256) % p)`. */
  lemma ModStep(x: int, p: pos)
    ensures x % (0x100 * p) == x % 0x100 + 0x100 * ((x / 0x100) % p)
  {
    var q := x / 0x100;
    var r := x % 0x100 + 0x100 * (q % p);
    assert x == 0x100 * q + x % 0x100;
    assert q == p * (q / p) + q % p;
    assert 0x100 * q == (0x100 * p) * (q / p) + 0x100 * (q % p) by {
      assert 0x100 * (p * (q / p)) == (0x100 * p) * (q / p);
    }
    assert r < 0x100 * p by {
      assert q % p <= p - 1;
      assert 0x100 * (q % p) <= 0x100 * (p - 1);
    }
    ModUnique(x, 0x100 * p, q / p, r);
  }

  /** Encoding the decoded value of `s` gives `s` back. */
  lemma {:induction false} FromLittleEndianRoundTrip(s: seq<uint8>)
    ensures LittleEndian(FromLittleEndian(s), |s|) == s
  {
    if s != [] {
      var v := FromLittleEndian(s);
      assert v == s[0] + 0x100 * FromLittleEndian(s[1..]);
      assert v % 0x100 == s[0];
      assert v / 0x100 == FromLittleEndian(s[1..]);
      FromLittleEndianRoundTrip(s[1..]);
    }
  }

  /** Euclidean division has a unique quotient and remainder. */
  lemma ModUnique(x: int, m: pos, q: int, r: int)
    requires x == m * q + r && 0 <= r < m
    ensures x % m == r && x / m == q
  {
    var d := q - x / m;
    assert m * d == x % m - r by {
      assert m * q - m * (x / m) == m * d;
    }
    MulAwayFromZero(m, d);
  }

  lemma MulAwayFromZero(m: pos, d: int)
    ensures d >= 1 ==> m * d >= m
    ensures d <= -1 ==> m * d + m <= 0
  {
  }

  /** Values that agree modulo 256^n have the same `n` low bytes. */
  lemma {:induction false} LittleEndianModular(x: int, y: int, n: nat)
    requires x % Pow256(n) == y % Pow256(n)
    ensures LittleEndian(x, n) == LittleEndian(y, n)
  {
    LittleEndianRoundTrip(x, n);
    LittleEndianRoundTrip(y, n);
    FromLittleEndianRoundTrip(LittleEndian(x, n));
    FromLittleEndianRoundTrip(LittleEndian(y, n));
  }
}
