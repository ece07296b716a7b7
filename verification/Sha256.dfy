/** SHA-256 as FIPS 180-4 defines it: the reference that HashUtil is proved to compute.
    Section numbers in this module are those of FIPS 180-4. */
module Fips180 {
  type Byte = bv8
  type Word = bv32

  /** The eight working variables, or the eight words of a hash value. */
  datatype Chain = Chain(a: Word, b: Word, c: Word, d: Word, e: Word, f: Word, g: Word, h: Word)

  /** Addition modulo 2^32 (section 2.2.2). */
  function Plus(x: Word, y: Word): Word { x + y }

  function Xor(x: Word, y: Word): Word { x ^ y }

  // ---------- section 4.1.2: the six logical functions ----------

  function Ch(x: Word, y: Word, z: Word): Word { (x & y) ^ (!x & z) }
  function Maj(x: Word, y: Word, z: Word): Word { (x & y) ^ (x & z) ^ (y & z) }
  function BigSigma0(x: Word): Word { Xor(Xor(x.RotateRight(2), x.RotateRight(13)), x.RotateRight(22)) }
  function BigSigma1(x: Word): Word { Xor(Xor(x.RotateRight(6), x.RotateRight(11)), x.RotateRight(25)) }
  function SmallSigma0(x: Word): Word { Xor(Xor(x.RotateRight(7), x.RotateRight(18)), x >> 3) }
  function SmallSigma1(x: Word): Word { Xor(Xor(x.RotateRight(17), x.RotateRight(19)), x >> 10) }

  // ---------- sections 4.2.2 and 5.3.3: the constants ----------

  const K: seq<seq<Word>> := [
    [0x428a2f98, 0x71374491, 0xb5c0fbcf, 0xe9b5dba5],
    [0x3956c25b, 0x59f111f1, 0x923f82a4, 0xab1c5ed5],
    [0xd807aa98, 0x12835b01, 0x243185be, 0x550c7dc3],
    [0x72be5d74, 0x80deb1fe, 0x9bdc06a7, 0xc19bf174],
    [0xe49b69c1, 0xefbe4786, 0x0fc19dc6, 0x240ca1cc],
    [0x2de92c6f, 0x4a7484aa, 0x5cb0a9dc, 0x76f988da],
    [0x983e5152, 0xa831c66d, 0xb00327c8, 0xbf597fc7],
    [0xc6e00bf3, 0xd5a79147, 0x06ca6351, 0x14292967],
    [0x27b70a85, 0x2e1b2138, 0x4d2c6dfc, 0x53380d13],
    [0x650a7354, 0x766a0abb, 0x81c2c92e, 0x92722c85],
    [0xa2bfe8a1, 0xa81a664b, 0xc24b8b70, 0xc76c51a3],
    [0xd192e819, 0xd6990624, 0xf40e3585, 0x106aa070],
    [0x19a4c116, 0x1e376c08, 0x2748774c, 0x34b0bcb5],
    [0x391c0cb3, 0x4ed8aa4a, 0x5b9cca4f, 0x682e6ff3],
    [0x748f82ee, 0x78a5636f, 0x84c87814, 0x8cc70208],
    [0x90befffa, 0xa4506ceb, 0xbef9a3f7, 0xc67178f2]]

  /** Constant `i`; the table is kept in rows of four. */
  function RoundConstant(i: nat): Word
    requires i < 64
  {
    K[i / 4][i % 4]
  }

  const H0 := Chain(0x6a09e667, 0xbb67ae85, 0x3c6ef372, 0xa54ff53a,
                    0x510e527f, 0x9b05688c, 0x1f83d9ab, 0x5be0cd19)

  // ---------- section 5.1.1: padding, on whole bytes ----------

  function Zeros(n: nat): (z: seq<Byte>)
    ensures |z| == n && forall i :: 0 <= i < n ==> z[i] == 0
  {
    seq(n, _ => 0)
  }

  /** The number of zero bytes between the 0x80 marker and the length field. */
  function ZeroCount(n: nat): nat { (55 - n) % 64 }

  function ByteOf(n: nat): Byte { (n % 256) as Byte }

  function NatOf(b: Byte): nat { b as nat }

  /** The last `k` base-256 digits of `v`, most significant first. */
  function BigEndian(v: nat, k: nat): (s: seq<Byte>)
    ensures |s| == k
  {
    if k == 0 then [] else BigEndian(v / 256, k - 1) + [ByteOf(v)]
  }

  function FromBigEndian(s: seq<Byte>): nat {
    if s == [] then 0 else FromBigEndian(s[..|s| - 1]) * 256 + NatOf(s[|s| - 1])
  }

  const TWO_TO_61: nat := 0x2000_0000_0000_0000
  const TWO_TO_64: nat := 0x1_0000_0000_0000_0000

  /** The length in bits as the 64-bit field holds it. Exact for messages under 2^61 bytes, which are
      all that the standard defines; beyond that it wraps as `uint64_t` does. */
  function BitLength(n: nat): nat { n * 8 % TWO_TO_64 }

  function Pad(m: seq<Byte>): seq<Byte> {
    m + [0x80] + Zeros(ZeroCount(|m|)) + BigEndian(BitLength(|m|), 8)
  }

  // ---------- sections 5.2.1 and 6.2.2: blocks, schedule, rounds ----------

  /** Word `t` of a block: four bytes, most significant first. */
  function BlockWord(block: seq<Byte>, t: nat): Word
    requires |block| == 64 && t < 16
  {
    BytesToWord(block[4 * t], block[4 * t + 1], block[4 * t + 2], block[4 * t + 3])
  }

  function BytesToWord(b0: Byte, b1: Byte, b2: Byte, b3: Byte): Word {
    (b0 as Word) * 0x100_0000 + (b1 as Word) * 0x1_0000 + (b2 as Word) * 0x100 + (b3 as Word)
  }

  function Schedule(block: seq<Byte>, t: nat): Word
    requires |block| == 64
  {
    if t < 16 then BlockWord(block, t)
    else Plus(Plus(Plus(SmallSigma1(Schedule(block, t - 2)), Schedule(block, t - 7)),
                   SmallSigma0(Schedule(block, t - 15))), Schedule(block, t - 16))
  }

  function Round(v: Chain, k: Word, w: Word): Chain {
    var t1 := Plus(Plus(Plus(Plus(v.h, BigSigma1(v.e)), Ch(v.e, v.f, v.g)), k), w);
    var t2 := Plus(BigSigma0(v.a), Maj(v.a, v.b, v.c));
    Chain(Plus(t1, t2), v.a, v.b, v.c, Plus(v.d, t1), v.e, v.f, v.g)
  }

  /** The working variables after the first `n` rounds. */
  function Rounds(v: Chain, block: seq<Byte>, n: nat): Chain
    requires |block| == 64 && n <= 64
  {
    if n == 0 then v else Round(Rounds(v, block, n - 1), RoundConstant(n - 1), Schedule(block, n - 1))
  }

  function AddWords(x: Chain, y: Chain): Chain {
    Chain(Plus(x.a, y.a), Plus(x.b, y.b), Plus(x.c, y.c), Plus(x.d, y.d),
          Plus(x.e, y.e), Plus(x.f, y.f), Plus(x.g, y.g), Plus(x.h, y.h))
  }

  function Compress(h: Chain, block: seq<Byte>): Chain
    requires |block| == 64
  {
    AddWords(h, Rounds(h, block, 64))
  }

  function HashBlocks(h: Chain, msg: seq<Byte>): Chain
    decreases |msg|
  {
    if |msg| < 64 then h else HashBlocks(Compress(h, msg[..64]), msg[64..])
  }

  function Digest(m: seq<Byte>): Chain { HashBlocks(H0, Pad(m)) }

  // ---------- the digest as text ----------

  const DIGITS: string := "0123456789abcdef"

  function HexDigit(n: bv4): char { DIGITS[n as nat] }

  /** `w` in lowercase hexadecimal, padded with zeros to eight digits. */
  function HexWord(w: Word): string {
    [HexDigit((w >> 28) as bv4), HexDigit(((w >> 24) & 0xF) as bv4),
     HexDigit(((w >> 20) & 0xF) as bv4), HexDigit(((w >> 16) & 0xF) as bv4),
     HexDigit(((w >> 12) & 0xF) as bv4), HexDigit(((w >> 8) & 0xF) as bv4),
     HexDigit(((w >> 4) & 0xF) as bv4), HexDigit((w & 0xF) as bv4)]
  }

  function HexChain(c: Chain): string {
    HexWord(c.a) + HexWord(c.b) + HexWord(c.c) + HexWord(c.d)
    + HexWord(c.e) + HexWord(c.f) + HexWord(c.g) + HexWord(c.h)
  }

  function DigitValue(c: char): bv4 {
    if '0' <= c <= '9' then (c as int - '0' as int) as bv4
    else if 'a' <= c <= 'f' then (c as int - 'a' as int + 10) as bv4
    else 0
  }

  /** Reads eight hexadecimal digits back as a word. */
  function ParseWord(s: string): Word
    requires |s| == 8
  {
    ((DigitValue(s[0]) as Word) << 28) | ((DigitValue(s[1]) as Word) << 24)
    | ((DigitValue(s[2]) as Word) << 20) | ((DigitValue(s[3]) as Word) << 16)
    | ((DigitValue(s[4]) as Word) << 12) | ((DigitValue(s[5]) as Word) << 8)
    | ((DigitValue(s[6]) as Word) << 4) | (DigitValue(s[7]) as Word)
  }

  function ParseChain(s: string): Chain
    requires |s| == 64
  {
    Chain(ParseWord(s[..8]), ParseWord(s[8..16]), ParseWord(s[16..24]), ParseWord(s[24..32]),
          ParseWord(s[32..40]), ParseWord(s[40..48]), ParseWord(s[48..56]), ParseWord(s[56..]))
  }

  // ---------- removing the padding ----------

  /** What the length field says: its first `bits / 8` bytes. */
  function UnpadByLength(p: seq<Byte>): seq<Byte> {
    if |p| < 8 then []
    else
      var n := FromBigEndian(p[|p| - 8..]) / 8;
      if n <= |p| then p[..n] else p
  }

  function DropTrailingZeros(p: seq<Byte>): seq<Byte> {
    if p != [] && p[|p| - 1] == 0 then DropTrailingZeros(p[..|p| - 1]) else p
  }

  /** Ignores the length field: drops it, then the zeros, then the marker. */
  function UnpadByMarker(p: seq<Byte>): seq<Byte> {
    if |p| < 8 then []
    else
      var q := DropTrailingZeros(p[..|p| - 8]);
      if q == [] then [] else q[..|q| - 1]
  }
}

/** Properties of the reference itself. */
module Fips180Properties {
  import opened Fips180

  // ---------- the constants are the ones sections 4.2.2 and 5.3.3 derive ----------

  const PRIMES: seq<seq<nat>> := [
    [2, 3, 5, 7],
    [11, 13, 17, 19],
    [23, 29, 31, 37],
    [41, 43, 47, 53],
    [59, 61, 67, 71],
    [73, 79, 83, 89],
    [97, 101, 103, 107],
    [109, 113, 127, 131],
    [137, 139, 149, 151],
    [157, 163, 167, 173],
    [179, 181, 191, 193],
    [197, 199, 211, 223],
    [227, 229, 233, 239],
    [241, 251, 257, 263],
    [269, 271, 277, 281],
    [283, 293, 307, 311]]

  /** `k` is the first 32 bits of the fractional part of the cube root of `p`, whose integer part is `whole`. */
  predicate CubeRootBits(p: nat, whole: nat, k: Word) {
    var c := whole * 0x1_0000_0000 + k as nat;
    c * c * c <= p * 0x1_0000_0000 * 0x1_0000_0000 * 0x1_0000_0000 < (c + 1) * (c + 1) * (c + 1)
  }

  predicate SquareRootBits(p: nat, whole: nat, k: Word) {
    var c := whole * 0x1_0000_0000 + k as nat;
    c * c <= p * 0x1_0000_0000 * 0x1_0000_0000 < (c + 1) * (c + 1)
  }

  function CubeRootWhole(p: nat): nat {
    if p < 8 then 1 else if p < 27 then 2 else if p < 64 then 3 else if p < 125 then 4 else if p < 216 then 5 else 6
  }

  predicate RowIsCubeRoots(r: nat)
    requires r < 16
  {
    |K[r]| == |PRIMES[r]| == 4
    && CubeRootBits(PRIMES[r][0], CubeRootWhole(PRIMES[r][0]), K[r][0])
    && CubeRootBits(PRIMES[r][1], CubeRootWhole(PRIMES[r][1]), K[r][1])
    && CubeRootBits(PRIMES[r][2], CubeRootWhole(PRIMES[r][2]), K[r][2])
    && CubeRootBits(PRIMES[r][3], CubeRootWhole(PRIMES[r][3]), K[r][3])
  }

  lemma Row0() ensures RowIsCubeRoots(0) {}
  lemma Row1() ensures RowIsCubeRoots(1) {}
  lemma Row2() ensures RowIsCubeRoots(2) {}
  lemma Row3() ensures RowIsCubeRoots(3) {}
  lemma Row4() ensures RowIsCubeRoots(4) {}
  lemma Row5() ensures RowIsCubeRoots(5) {}
  lemma Row6() ensures RowIsCubeRoots(6) {}
  lemma Row7() ensures RowIsCubeRoots(7) {}
  lemma Row8() ensures RowIsCubeRoots(8) {}
  lemma Row9() ensures RowIsCubeRoots(9) {}
  lemma Row10() ensures RowIsCubeRoots(10) {}
  lemma Row11() ensures RowIsCubeRoots(11) {}
  lemma Row12() ensures RowIsCubeRoots(12) {}
  lemma Row13() ensures RowIsCubeRoots(13) {}
  lemma Row14() ensures RowIsCubeRoots(14) {}
  lemma Row15() ensures RowIsCubeRoots(15) {}

  // ---------- the table holds the first 64 primes ----------

  predicate Product(n: nat, d: nat, e: nat) { n == d * e }

  ghost predicate IsPrime(n: nat) { n >= 2 && forall d: nat, e: nat :: 2 <= d && 2 <= e ==> !Product(n, d, e) }

  ghost predicate NextPrime(p: nat, q: nat) { p < q && IsPrime(q) && forall n :: p < n < q ==> !IsPrime(n) }

  /** `p` is not a proper divisor of `n`. */
  predicate Free(n: nat, p: nat)
    requires p > 0
  {
    n % p != 0 || n == p
  }

  predicate Survives(n: nat) {
    Free(n, 2) && Free(n, 3) && Free(n, 5) && Free(n, 7) && Free(n, 11) && Free(n, 13) && Free(n, 17)
  }

  predicate NoneSurvives(lo: nat, hi: nat)
    decreases hi - lo
  {
    lo >= hi || (!Survives(lo) && NoneSurvives(lo + 1, hi))
  }

  predicate NextSurvivor(p: nat, q: nat) { 0 < p < q < 361 && Survives(q) && NoneSurvives(p + 1, q) }

  /** The last prime before row `r`, or 1. */
  function Before(r: nat): nat
    requires r < 16
  {
    if r == 0 then 1 else PRIMES[r - 1][3]
  }

  predicate RowSurvives(r: nat)
    requires r < 16
  {
    NextSurvivor(Before(r), PRIMES[r][0]) && NextSurvivor(PRIMES[r][0], PRIMES[r][1])
    && NextSurvivor(PRIMES[r][1], PRIMES[r][2]) && NextSurvivor(PRIMES[r][2], PRIMES[r][3])
  }

  ghost predicate RowIsNextPrimes(r: nat)
    requires r < 16
  {
    NextPrime(Before(r), PRIMES[r][0]) && NextPrime(PRIMES[r][0], PRIMES[r][1])
    && NextPrime(PRIMES[r][1], PRIMES[r][2]) && NextPrime(PRIMES[r][2], PRIMES[r][3])
  }

  lemma Gaps0() ensures RowSurvives(0) {}
  lemma Gaps1() ensures RowSurvives(1) {}
  lemma Gaps2() ensures RowSurvives(2) {}
  lemma Gaps3() ensures RowSurvives(3) {}
  lemma Gaps4() ensures RowSurvives(4) {}
  lemma Gaps5() ensures RowSurvives(5) {}
  lemma Gaps6() ensures RowSurvives(6) {}
  lemma Gaps7() ensures RowSurvives(7) { assert NoneSurvives(120, 127); }
  lemma Gaps8() ensures RowSurvives(8) {}
  lemma Gaps9() ensures RowSurvives(9) {}
  lemma Gaps10() ensures RowSurvives(10) {}
  lemma Gaps11() ensures RowSurvives(11) {}
  lemma Gaps12() ensures RowSurvives(12) {}
  lemma Gaps13() ensures RowSurvives(13) {}
  lemma Gaps14() ensures RowSurvives(14) {}
  lemma Gaps15() ensures RowSurvives(15) { assert NoneSurvives(300, 307); }

  lemma Scaled(p: int, x: int)
    requires p > 0
    ensures (x >= 1 ==> p * x >= p) && (x <= -1 ==> p * x <= -p) && (x == 0 ==> p * x == 0)
  {
    if x >= 1 {
      assert p * (x - 1) >= 0;
    } else if x <= -1 {
      assert p * (-x - 1) >= 0;
    }
  }

  lemma Distribute(p: int, k: int, a: int)
    ensures p * k - p * a == p * (k - a)
  {
  }

  lemma Quotient(p: nat, k: nat, a: int)
    requires p > 0 && 0 <= p * k - p * a < p
    ensures k == a
  {
    Distribute(p, k, a);
    Scaled(p, k - a);
  }

  lemma MultipleIsNotFree(n: nat, p: nat, k: nat)
    requires p >= 2 && k >= 2 && n == p * k
    ensures !Free(n, p)
  {
    Quotient(p, k, n / p);
    Scaled(p, k - 1);
    Distribute(p, k, 1);
  }

  /** A factor up to 18 has a factor among the seven. */
  lemma SmallFactor(n: nat, d: nat, e: nat)
    requires 2 <= d <= 18 && 2 <= e && n == d * e
    ensures !Survives(n)
  {
    var p := if d % 2 == 0 then 2 else if d % 3 == 0 then 3 else if d == 5 then 5 else if d == 7 then 7
             else if d == 11 then 11 else if d == 13 then 13 else 17;
    var c := d / p;
    assert d == p * c && c >= 1;
    assert n == p * (c * e) && c * e >= e;
    hide Free;
    MultipleIsNotFree(n, p, c * e);
  }

  lemma BothLarge(d: nat, e: nat)
    requires d >= 19 && e >= 19
    ensures d * e >= 361
  {
    assert d * e >= 19 * e;
  }

  lemma SurvivorIsPrime(n: nat)
    requires 2 <= n < 361 && Survives(n)
    ensures IsPrime(n)
  {
    hide Survives;
    forall d: nat, e: nat | 2 <= d && 2 <= e
      ensures !Product(n, d, e)
    {
      if Product(n, d, e) {
        if d <= 18 {
          SmallFactor(n, d, e);
        } else if e <= 18 {
          assert n == e * d;
          SmallFactor(n, e, d);
        } else {
          BothLarge(d, e);
        }
      }
    }
  }

  lemma NotFreeIsComposite(n: nat, p: nat)
    requires p >= 2 && n >= 2 && !Free(n, p)
    ensures !IsPrime(n)
  {
    var e := n / p;
    assert n == p * e;
    Scaled(p, e);
    Scaled(p, e - 1);
    Distribute(p, e, 1);
    assert Product(n, p, e);
  }

  lemma {:induction false} GapHasNoPrime(lo: nat, hi: nat, n: nat)
    requires 2 <= lo <= n < hi && NoneSurvives(lo, hi)
    ensures !IsPrime(n)
    decreases hi - lo
  {
    hide Free, IsPrime;
    if n > lo {
      GapHasNoPrime(lo + 1, hi, n);
    } else {
      var p := if !Free(n, 2) then 2 else if !Free(n, 3) then 3 else if !Free(n, 5) then 5 else if !Free(n, 7) then 7
               else if !Free(n, 11) then 11 else if !Free(n, 13) then 13 else 17;
      NotFreeIsComposite(n, p);
    }
  }

  lemma NextSurvivorIsNextPrime(p: nat, q: nat)
    requires NextSurvivor(p, q)
    ensures NextPrime(p, q)
  {
    hide Survives, IsPrime, NoneSurvives;
    SurvivorIsPrime(q);
    forall n | p < n < q
      ensures !IsPrime(n)
    {
      GapHasNoPrime(p + 1, q, n);
    }
  }

  lemma RowOfPrimes(r: nat)
    requires r < 16 && RowSurvives(r)
    ensures RowIsNextPrimes(r)
  {
    hide NextSurvivor, NextPrime;
    NextSurvivorIsNextPrime(Before(r), PRIMES[r][0]);
    NextSurvivorIsNextPrime(PRIMES[r][0], PRIMES[r][1]);
    NextSurvivorIsNextPrime(PRIMES[r][1], PRIMES[r][2]);
    NextSurvivorIsNextPrime(PRIMES[r][2], PRIMES[r][3]);
  }

  /** Row by row, each entry of the table is the next prime after the one before it, the first being 2. */
  lemma FirstPrimes()
    ensures forall r :: 0 <= r < 16 ==> RowIsNextPrimes(r)
  {
    hide RowSurvives, RowIsNextPrimes;
    Gaps0(); Gaps1(); Gaps2(); Gaps3(); Gaps4(); Gaps5(); Gaps6(); Gaps7();
    Gaps8(); Gaps9(); Gaps10(); Gaps11(); Gaps12(); Gaps13(); Gaps14(); Gaps15();
    forall r | 0 <= r < 16
      ensures RowIsNextPrimes(r)
    {
      RowOfPrimes(r);
    }
  }

  // ---------- the table holds their cube roots ----------

  /** All 64 round constants are cube roots of the primes in the table. */
  lemma RoundConstants()
    ensures forall r :: 0 <= r < 16 ==> RowIsCubeRoots(r)
  {
    hide RowIsCubeRoots;
    Row0(); Row1(); Row2(); Row3(); Row4(); Row5(); Row6(); Row7();
    Row8(); Row9(); Row10(); Row11(); Row12(); Row13(); Row14(); Row15();
  }

  lemma InitialHash()
    ensures SquareRootBits(2, 1, H0.a) && SquareRootBits(3, 1, H0.b)
    ensures SquareRootBits(5, 2, H0.c) && SquareRootBits(7, 2, H0.d)
    ensures SquareRootBits(11, 3, H0.e) && SquareRootBits(13, 3, H0.f)
    ensures SquareRootBits(17, 4, H0.g) && SquareRootBits(19, 4, H0.h)
  {
  }

  // ---------- padding ----------

  lemma PaddedSize(m: seq<Byte>)
    ensures |Pad(m)| == |m| + 9 + ZeroCount(|m|)
  {
    hide BigEndian, ZeroCount;
  }

  lemma ZeroCountFits(n: nat)
    ensures ZeroCount(n) < 64 && (n + 9 + ZeroCount(n)) % 64 == 0
  {
    var q := (55 - n) / 64;
    assert 55 - n == 64 * q + ZeroCount(n);
    assert n + 9 + ZeroCount(n) == 64 * (1 - q);
  }

  /** The padded length is the least multiple of 64 that holds the message, the marker and the length field. */
  lemma PaddedLength(m: seq<Byte>)
    ensures |Pad(m)| % 64 == 0 && |m| + 9 <= |Pad(m)|
    ensures forall n: nat :: n % 64 == 0 && |m| + 9 <= n ==> |Pad(m)| <= n
  {
    var size := |Pad(m)|;
    PaddedSize(m);
    ZeroCountFits(|m|);
    hide Pad, ZeroCount;
    forall n: nat | n % 64 == 0 && |m| + 9 <= n
      ensures size <= n
    {
      if n < size {
        MultiplesApart(n, size);
      }
    }
  }

  lemma MultiplesApart(n: nat, size: nat)
    requires n % 64 == 0 && size % 64 == 0 && n < size
    ensures n + 64 <= size
  {
    assert n == 64 * (n / 64) && size == 64 * (size / 64);
  }

  lemma ByteRoundTrip(n: nat)
    ensures NatOf(ByteOf(n)) == n % 256
  {
    SmallByte(n % 256);
  }

  lemma SmallByte(n: nat)
    requires n < 256
    ensures (n as Byte) as nat == n
  {
    if n < 128 {
      if n < 64 {} else {}
    } else {
      if n < 192 {} else {}
    }
  }

  lemma {:induction false} BigEndianRoundTrip(v: nat, k: nat, bound: nat)
    requires v < bound
    requires bound == Power256(k)
    ensures FromBigEndian(BigEndian(v, k)) == v
  {
    if k > 0 {
      hide ByteOf, NatOf;
      BigEndianRoundTrip(v / 256, k - 1, Power256(k - 1));
      ByteRoundTrip(v);
      assert BigEndian(v, k)[..k - 1] == BigEndian(v / 256, k - 1);
    }
  }

  function Power256(k: nat): nat {
    if k == 0 then 1 else 256 * Power256(k - 1)
  }

  lemma PaddedField(m: seq<Byte>)
    ensures |Pad(m)| >= 8
    ensures FromBigEndian(Pad(m)[|Pad(m)| - 8..]) == BitLength(|m|)
  {
    assert Power256(8) == TWO_TO_64 by { assert Power256(4) == 0x1_0000_0000; }
    BigEndianRoundTrip(BitLength(|m|), 8, Power256(8));
    assert Pad(m)[|Pad(m)| - 8..] == BigEndian(BitLength(|m|), 8);
  }

  /** The length field gives the message back exactly when the message is one the standard defines. */
  lemma UnpadByLengthExact(m: seq<Byte>)
    ensures UnpadByLength(Pad(m)) == m <==> |m| < TWO_TO_61
  {
    hide BigEndian, FromBigEndian, ByteOf, NatOf, ZeroCount, BitLength;
    PaddedField(m);
    LengthWraps(|m|);
    var n := BitLength(|m|) / 8;
    assert n <= |Pad(m)|;
    assert Pad(m)[..|m|] == m;
  }

  lemma LengthWraps(n: nat)
    ensures BitLength(n) / 8 <= n && (BitLength(n) / 8 == n <==> n < TWO_TO_61)
  {
    assert BitLength(n) / 8 == n % TWO_TO_61;
  }

  lemma {:induction false} DropZerosOnly(p: seq<Byte>, n: nat)
    requires p != [] && p[|p| - 1] != 0
    ensures DropTrailingZeros(p + Zeros(n)) == p
  {
    if n == 0 {
      assert p + Zeros(0) == p;
    } else {
      assert (p + Zeros(n))[..|p| + n - 1] == p + Zeros(n - 1);
      DropZerosOnly(p, n - 1);
    }
  }

  /** The marker gives every message back, however long. */
  lemma UnpadByMarkerInverse(m: seq<Byte>)
    ensures UnpadByMarker(Pad(m)) == m
  {
    var k := ZeroCount(|m|);
    assert Pad(m)[..|Pad(m)| - 8] == (m + [0x80]) + Zeros(k);
    DropZerosOnly(m + [0x80], k);
  }

  lemma PadInjective(m: seq<Byte>, n: seq<Byte>)
    requires Pad(m) == Pad(n)
    ensures m == n
  {
    UnpadByMarkerInverse(m);
    UnpadByMarkerInverse(n);
  }

  // ---------- rounds ----------

  /** The choice takes the bits of `y` where `x` has ones and those of `z` elsewhere. */
  lemma ChoiceMeaning(x: Word, y: Word, z: Word)
    ensures Ch(x, y, z) & x == y & x && Ch(x, y, z) & !x == z & !x
  {
  }

  /** The majority keeps the bits in which `x` and `y` agree and takes those of `z` where they differ. */
  lemma MajorityMeaning(x: Word, y: Word, z: Word)
    ensures Maj(x, y, z) & !(x ^ y) == x & y && Maj(x, y, z) & (x ^ y) == z & (x ^ y)
  {
  }

  /** Undoes one round that used the same constant and schedule word. */
  function Unround(v: Chain, k: Word, w: Word): Chain {
    var t1 := Minus(v.a, Plus(BigSigma0(v.b), Maj(v.b, v.c, v.d)));
    Chain(v.b, v.c, v.d, Minus(v.e, t1), v.f, v.g, v.h,
          Minus(Minus(Minus(Minus(t1, w), k), Ch(v.f, v.g, v.h)), BigSigma1(v.f)))
  }

  function Minus(x: Word, y: Word): Word { x - y }

  lemma PlusCancels(x: Word, y: Word)
    ensures Minus(Plus(x, y), y) == x && Minus(Plus(y, x), y) == x
  {
    assert (x + y) - y == x;
    assert (y + x) - y == x;
  }

  /** Neither summand of the feed-forward is lost. */
  lemma AddWordsCancels(x: Chain, y: Chain, z: Chain)
    ensures AddWords(x, z) == AddWords(y, z) ==> x == y
    ensures AddWords(z, x) == AddWords(z, y) ==> x == y
  {
    hide Plus, Minus;
    PlusCancels(x.a, z.a); PlusCancels(x.b, z.b); PlusCancels(x.c, z.c); PlusCancels(x.d, z.d);
    PlusCancels(x.e, z.e); PlusCancels(x.f, z.f); PlusCancels(x.g, z.g); PlusCancels(x.h, z.h);
    PlusCancels(y.a, z.a); PlusCancels(y.b, z.b); PlusCancels(y.c, z.c); PlusCancels(y.d, z.d);
    PlusCancels(y.e, z.e); PlusCancels(y.f, z.f); PlusCancels(y.g, z.g); PlusCancels(y.h, z.h);
  }

  lemma RoundInvertible(v: Chain, k: Word, w: Word)
    ensures Unround(Round(v, k, w), k, w) == v
  {
    hide Plus, Minus, BigSigma0, BigSigma1, Ch, Maj;
    var r1 := Plus(v.h, BigSigma1(v.e));
    var r2 := Plus(r1, Ch(v.e, v.f, v.g));
    var r3 := Plus(r2, k);
    var t1 := Plus(r3, w);
    PlusCancels(t1, Plus(BigSigma0(v.a), Maj(v.a, v.b, v.c)));
    PlusCancels(v.d, t1);
    PlusCancels(r3, w);
    PlusCancels(r2, k);
    PlusCancels(r1, Ch(v.e, v.f, v.g));
    PlusCancels(v.h, BigSigma1(v.e));
  }

  /** A block's rounds permute the working variables: different inputs never meet. */
  lemma {:induction false} RoundsInjective(u: Chain, v: Chain, block: seq<Byte>, n: nat)
    requires |block| == 64 && n <= 64
    requires Rounds(u, block, n) == Rounds(v, block, n)
    ensures u == v
  {
    hide Round, Unround, RoundConstant, Schedule;
    if n > 0 {
      var k, w := RoundConstant(n - 1), Schedule(block, n - 1);
      RoundInvertible(Rounds(u, block, n - 1), k, w);
      RoundInvertible(Rounds(v, block, n - 1), k, w);
      RoundsInjective(u, v, block, n - 1);
    }
  }

  // ---------- text ----------

  lemma DigitRoundTrip(n: bv4)
    ensures DigitValue(HexDigit(n)) == n && HexDigit(n) in DIGITS
  {
  }

  lemma WordRoundTrip(w: Word)
    ensures |HexWord(w)| == 8 && ParseWord(HexWord(w)) == w
    ensures forall c :: c in HexWord(w) ==> c in DIGITS
  {
    forall n: bv4 { DigitRoundTrip(n); }
  }

  /** Eight words of eight digits can be cut out of their concatenation. */
  lemma Eighths(p: string, q: string, r: string, s: string, t: string, u: string, v: string, w: string)
    requires |p| == |q| == |r| == |s| == |t| == |u| == |v| == |w| == 8
    ensures var x := p + q + r + s + t + u + v + w;
      x[..8] == p && x[8..16] == q && x[16..24] == r && x[24..32] == s
      && x[32..40] == t && x[40..48] == u && x[48..56] == v && x[56..] == w
  {
  }

  /** The text is 64 lowercase hexadecimal digits, and reads back as the eight words. */
  lemma DigestText(c: Chain)
    ensures |HexChain(c)| == 64 && ParseChain(HexChain(c)) == c
    ensures forall d :: d in HexChain(c) ==> d in DIGITS
  {
    hide HexWord, ParseWord, HexDigit, DigitValue;
    WordRoundTrip(c.a); WordRoundTrip(c.b); WordRoundTrip(c.c); WordRoundTrip(c.d);
    WordRoundTrip(c.e); WordRoundTrip(c.f); WordRoundTrip(c.g); WordRoundTrip(c.h);
    Eighths(HexWord(c.a), HexWord(c.b), HexWord(c.c), HexWord(c.d),
            HexWord(c.e), HexWord(c.f), HexWord(c.g), HexWord(c.h));
  }
}

/** The hand-written SHA-256 of the password store. */
module HashUtil {
  import opened Fips180
  import opened Fips180Properties

  function Rotr(x: Word, n: nat): Word
    requires n <= 32
  {
    (x >> n) | (x << (32 - n))
  }

  function Sigma0(x: Word): Word { Xor(Xor(Rotr(x, 2), Rotr(x, 13)), Rotr(x, 22)) }
  function Sigma1(x: Word): Word { Xor(Xor(Rotr(x, 6), Rotr(x, 11)), Rotr(x, 25)) }
  function Gamma0(x: Word): Word { Xor(Xor(Rotr(x, 7), Rotr(x, 18)), x >> 3) }
  function Gamma1(x: Word): Word { Xor(Xor(Rotr(x, 17), Rotr(x, 19)), x >> 10) }

  lemma RotrIsRotation(x: Word)
    ensures Rotr(x, 2) == x.RotateRight(2) && Rotr(x, 13) == x.RotateRight(13)
    ensures Rotr(x, 22) == x.RotateRight(22) && Rotr(x, 6) == x.RotateRight(6)
    ensures Rotr(x, 11) == x.RotateRight(11) && Rotr(x, 25) == x.RotateRight(25)
    ensures Rotr(x, 7) == x.RotateRight(7) && Rotr(x, 18) == x.RotateRight(18)
    ensures Rotr(x, 17) == x.RotateRight(17) && Rotr(x, 19) == x.RotateRight(19)
  {
  }

  /** The shift-and-or helpers are the rotations of section 4.1.2. */
  lemma HelpersAreStandard(x: Word)
    ensures Sigma0(x) == BigSigma0(x) && Sigma1(x) == BigSigma1(x)
    ensures Gamma0(x) == SmallSigma0(x) && Gamma1(x) == SmallSigma1(x)
  {
    hide Rotr, Xor;
    RotrIsRotation(x);
  }

  /** `v >> (8 * i)` on an unsigned value. */
  function ShiftBytes(v: nat, i: nat): nat {
    if i == 0 then v else ShiftBytes(v / 256, i - 1)
  }

  lemma {:induction false} BigEndianDigit(v: nat, k: nat, j: nat)
    requires j < k
    ensures BigEndian(v, k)[j] == ByteOf(ShiftBytes(v, k - 1 - j))
  {
    if j < k - 1 {
      BigEndianDigit(v / 256, k - 1, j);
    }
  }

  /** The zeros loop meets its exit test exactly when the padding has its length. */
  lemma StopsExactly(n: nat, zeros: nat)
    requires zeros <= ZeroCount(n)
    ensures (n + 1 + zeros) % 64 == 56 <==> zeros == ZeroCount(n)
  {
    hide ZeroCount;
    ZeroCountFits(n);
    var q := (n + 9 + ZeroCount(n)) / 64;
    assert n + 9 + ZeroCount(n) == 64 * q;
    assert n + 1 + zeros == 64 * (q - 1) + 56 - (ZeroCount(n) - zeros);
  }

  /** Appends the marker, zeros up to 56 modulo 64, and the eight length bytes. */
  method PadMessage(input: seq<Byte>) returns (msg: seq<Byte>)
    ensures msg == Pad(input)
  {
    msg := input;
    hide ByteOf, ZeroCount, BigEndian, ShiftBytes;
    ZeroCountFits(|input|);
    var bitLen := |msg| * 8 % TWO_TO_64;
    msg := msg + [0x80];
    var zeros: nat := 0;
    while |msg| % 64 != 56
      invariant zeros <= ZeroCount(|input|)
      invariant msg == input + [0x80] + Zeros(zeros)
      decreases ZeroCount(|input|) - zeros
    {
      StopsExactly(|input|, zeros);
      msg := msg + [0x00];
      zeros := zeros + 1;
    }
    StopsExactly(|input|, zeros);
    ghost var body := msg;
    ghost var field := BigEndian(bitLen, 8);
    var i := 7;
    while i >= 0
      invariant -1 <= i <= 7
      invariant msg == body + field[..7 - i]
    {
      BigEndianDigit(bitLen, 8, 7 - i);
      msg := msg + [ByteOf(ShiftBytes(bitLen, i))];
      i := i - 1;
    }
    assert field[..8] == field;
  }

  function ShiftedWord(b0: Byte, b1: Byte, b2: Byte, b3: Byte): Word {
    ((b0 as Word) << 24) | ((b1 as Word) << 16) | ((b2 as Word) << 8) | (b3 as Word)
  }

  lemma ShiftedWordIsBigEndian(b0: Byte, b1: Byte, b2: Byte, b3: Byte)
    ensures ShiftedWord(b0, b1, b2, b3) == BytesToWord(b0, b1, b2, b3)
  {
  }

  lemma FirstWords(msg: seq<Byte>, offset: nat, i: nat)
    requires offset + 64 <= |msg| && i < 16
    ensures var o := offset + i * 4;
      Schedule(msg[offset..offset + 64], i) == ShiftedWord(msg[o], msg[o + 1], msg[o + 2], msg[o + 3])
  {
    hide Plus, SmallSigma0, SmallSigma1, ShiftedWord, BytesToWord;
    var o, block := offset + i * 4, msg[offset..offset + 64];
    ShiftedWordIsBigEndian(msg[o], msg[o + 1], msg[o + 2], msg[o + 3]);
    assert block[4 * i] == msg[o] && block[4 * i + 1] == msg[o + 1]
        && block[4 * i + 2] == msg[o + 2] && block[4 * i + 3] == msg[o + 3];
  }

  lemma LaterWords(block: seq<Byte>, i: nat)
    requires |block| == 64 && 16 <= i
    ensures Schedule(block, i)
         == Plus(Plus(Plus(SmallSigma1(Schedule(block, i - 2)), Schedule(block, i - 7)),
                      SmallSigma0(Schedule(block, i - 15))), Schedule(block, i - 16))
  {
    hide Plus, SmallSigma0, SmallSigma1, BlockWord;
  }

  /** Fills the schedule of the block at `offset`. */
  method FillSchedule(msg: seq<Byte>, offset: nat, w: array<Word>)
    requires offset + 64 <= |msg| && w.Length == 64
    modifies w
    ensures forall t :: 0 <= t < 64 ==> w[t] == Schedule(msg[offset..offset + 64], t)
  {
    hide Plus, Xor, SmallSigma0, SmallSigma1, Gamma0, Gamma1, ShiftedWord, BytesToWord, BlockWord, Schedule;
    ghost var block := msg[offset..offset + 64];
    for i := 0 to 16
      invariant forall t :: 0 <= t < i ==> w[t] == Schedule(block, t)
    {
      var o := offset + i * 4;
      w[i] := ShiftedWord(msg[o], msg[o + 1], msg[o + 2], msg[o + 3]);
      FirstWords(msg, offset, i);
    }
    for i := 16 to 64
      invariant forall t :: 0 <= t < i ==> w[t] == Schedule(block, t)
    {
      HelpersAreStandard(w[i - 2]);
      HelpersAreStandard(w[i - 15]);
      LaterWords(block, i);
      w[i] := Plus(Plus(Plus(Gamma1(w[i - 2]), w[i - 7]), Gamma0(w[i - 15])), w[i - 16]);
    }
  }

  /** Runs the 64 rounds on one block. */
  method RunRounds(start: Chain, w: array<Word>, ghost block: seq<Byte>) returns (v: Chain)
    requires w.Length == 64 && |block| == 64
    requires forall t :: 0 <= t < 64 ==> w[t] == Schedule(block, t)
    ensures v == Rounds(start, block, 64)
  {
    hide Plus, RoundConstant, BigSigma0, BigSigma1, Ch, Maj, Sigma0, Sigma1, Schedule;
    var a, b, c, d := start.a, start.b, start.c, start.d;
    var e, f, g, h := start.e, start.f, start.g, start.h;
    for i := 0 to 64
      invariant Chain(a, b, c, d, e, f, g, h) == Rounds(start, block, i)
    {
      HelpersAreStandard(e);
      HelpersAreStandard(a);
      var t1 := Plus(Plus(Plus(Plus(h, Sigma1(e)), Ch(e, f, g)), RoundConstant(i)), w[i]);
      var t2 := Plus(Sigma0(a), Maj(a, b, c));
      h := g; g := f; f := e; e := Plus(d, t1);
      d := c; c := b; b := a; a := Plus(t1, t2);
    }
    v := Chain(a, b, c, d, e, f, g, h);
  }

  method Sha256(input: seq<Byte>) returns (hex: string)
    ensures hex == HexChain(Digest(input))
    ensures |hex| == 64 && ParseChain(hex) == Digest(input)
    ensures forall d :: d in hex ==> d in DIGITS
  {
    hide Rounds, AddWords, HexChain, Pad, ParseChain;
    var h := H0;
    var msg := PadMessage(input);
    PaddedLength(input);
    var offset := 0;
    while offset < |msg|
      invariant offset % 64 == 0 && offset <= |msg|
      invariant HashBlocks(h, msg[offset..]) == Digest(input)
    {
      var w := new Word[64];
      FillSchedule(msg, offset, w);
      ghost var block := msg[offset..offset + 64];
      var v := RunRounds(h, w, block);
      assert msg[offset..][..64] == block && msg[offset..][64..] == msg[offset + 64..];
      h := AddWords(h, v);
      offset := offset + 64;
    }
    hex := HexChain(h);
    DigestText(h);
  }
}
