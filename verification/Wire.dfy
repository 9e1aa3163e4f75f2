/** Big-endian numbers and byte strings. */
module Wire {
  import opened Words

  function Pow256(k: nat): nat {
    if k == 0 then 1 else 256 * Pow256(k - 1)
  }

  /** The k-byte big-endian form of n modulo 256^k. */
  function BigEndian(n: nat, k: nat): (b: Bytes)
    ensures |b| == k
  {
    if k == 0 then [] else BigEndian(n / 256, k - 1) + [n % 256]
  }

  function Number(b: Bytes): nat {
    if b == [] then 0 else Number(b[..|b| - 1]) * 256 + b[|b| - 1]
  }

  lemma {:induction false} NumberOfBigEndian(n: nat, k: nat)
    requires n < Pow256(k)
    ensures Number(BigEndian(n, k)) == n
  {
    if k > 0 {
      NumberOfBigEndian(n / 256, k - 1);
      assert BigEndian(n, k)[..k - 1] == BigEndian(n / 256, k - 1);
    }
  }

  lemma {:induction false} BigEndianOfNumber(b: Bytes)
    ensures BigEndian(Number(b), |b|) == b
  {
    if b != [] {
      var front, last := b[..|b| - 1], b[|b| - 1];
      BigEndianOfNumber(front);
      assert Number(b) / 256 == Number(front) && Number(b) % 256 == last;
      assert b == front + [last];
    }
  }

  lemma {:induction false} NumberBound(b: Bytes)
    ensures Number(b) < Pow256(|b|)
  {
    if b != [] { NumberBound(b[..|b| - 1]); }
  }

  lemma Powers()
    ensures Pow256(1) == 0x100 && Pow256(2) == 0x1_0000
    ensures Pow256(4) == 0x1_0000_0000 && Pow256(8) == TWO_64
  {
    assert Pow256(1) == 256 * Pow256(0);
    assert Pow256(2) == 256 * Pow256(1);
    assert Pow256(3) == 256 * Pow256(2);
    assert Pow256(4) == 256 * Pow256(3);
    assert Pow256(5) == 256 * Pow256(4);
    assert Pow256(6) == 256 * Pow256(5);
    assert Pow256(7) == 256 * Pow256(6);
    assert Pow256(8) == 256 * Pow256(7);
  }

  lemma {:induction false} PowerSum(j: nat, k: nat)
    ensures Pow256(j + k) == Pow256(j) * Pow256(k)
  {
    if j > 0 {
      PowerSum(j - 1, k);
      assert 256 * (Pow256(j - 1) * Pow256(k)) == (256 * Pow256(j - 1)) * Pow256(k);
    }
  }

  /** Thirty-two bytes hold 256 bits. */
  lemma DigestRange()
    ensures Pow256(32) == TWO_64 * TWO_64 * TWO_64 * TWO_64
  {
    Powers();
    PowerSum(8, 8);
    PowerSum(16, 8);
    PowerSum(24, 8);
  }

  function U16(n: u16): (b: Bytes) ensures |b| == 2 { BigEndian(n, 2) }
  function U32(n: u32): (b: Bytes) ensures |b| == 4 { BigEndian(n, 4) }
  function U64(n: u64): (b: Bytes) ensures |b| == 8 { BigEndian(n, 8) }

  function AsU16(b: Bytes): u16 requires |b| == 2 { Powers(); NumberBound(b); Number(b) }
  function AsU32(b: Bytes): u32 requires |b| == 4 { Powers(); NumberBound(b); Number(b) }
  function AsU64(b: Bytes): u64 requires |b| == 8 { Powers(); NumberBound(b); Number(b) }

  /** An int64 is stored as the unsigned word with the same bits. */
  function I64(x: i64): (b: Bytes) ensures |b| == 8 { U64(x % TWO_64) }
  function AsI64(b: Bytes): i64 requires |b| == 8 { WrapI64(AsU64(b)) }

  lemma WordRoundTrips(a: u16, b: u32, c: u64, d: i64)
    ensures AsU16(U16(a)) == a && AsU32(U32(b)) == b && AsU64(U64(c)) == c && AsI64(I64(d)) == d
  {
    Powers();
    NumberOfBigEndian(a, 2);
    NumberOfBigEndian(b, 4);
    NumberOfBigEndian(c, 8);
    NumberOfBigEndian(d % TWO_64, 8);
  }

  lemma U64Injective(a: u64, b: u64)
    requires U64(a) == U64(b)
    ensures a == b
  {
    WordRoundTrips(0, 0, a, 0);
    WordRoundTrips(0, 0, b, 0);
  }

  lemma U32OfBytes(b: Bytes)
    requires |b| == 4
    ensures U32(AsU32(b)) == b
  {
    BigEndianOfNumber(b);
  }

  lemma U64OfBytes(b: Bytes)
    requires |b| == 8
    ensures U64(AsU64(b)) == b
  {
    BigEndianOfNumber(b);
  }

  /** Adjacent slices join. */
  lemma Join(b: Bytes, i: nat, j: nat)
    requires i <= j <= |b|
    ensures b[i..] == b[i..j] + b[j..]
  {
  }

  /** A fixed-width prefix splits off uniquely. */
  lemma SplitConcat(a: Bytes, b: Bytes, c: Bytes, d: Bytes)
    requires |a| == |c| && a + b == c + d
    ensures a == c && b == d
  {
    assert a == (a + b)[..|a|] && c == (c + d)[..|c|];
    assert b == (a + b)[|a|..] && d == (c + d)[|c|..];
  }

  /** The bytes of an ASCII literal. */
  function Ascii(s: string): (b: Bytes)
    ensures |b| == |s|
  {
    seq(|s|, i requires 0 <= i < |s| => if s[i] < 128 as char then s[i] as int else 0)
  }

  predicate IsSpace(c: u8) { 9 <= c <= 13 || c == 32 }

  function TrimLeft(b: Bytes): Bytes {
    if b != [] && IsSpace(b[0]) then TrimLeft(b[1..]) else b
  }

  function TrimRight(b: Bytes): Bytes {
    if b != [] && IsSpace(b[|b| - 1]) then TrimRight(b[..|b| - 1]) else b
  }

  /** Surrounding white space removed. */
  function TrimSpace(b: Bytes): Bytes { TrimRight(TrimLeft(b)) }
}
