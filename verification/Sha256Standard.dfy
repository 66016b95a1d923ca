/** SHA-256 as FIPS 180-4 defines it, on words that are integers below 2^32. */
module Sha256Standard {
  type Word = x: int | 0 <= x < 0x1_0000_0000

  newtype Byte = x: int | 0 <= x < 256

  // ----------------------------------------------------------------- bits (2.2, 3.2)

  function Pow2(n: nat): (r: nat)
    ensures r > 0
  {
    if n == 0 then 1 else 2 * Pow2(n - 1)
  }

  predicate Bit(x: nat, i: nat) {
    if i == 0 then x % 2 == 1 else Bit(x / 2, i - 1)
  }

  datatype Op = AndOp | OrOp | XorOp

  predicate Applied(op: Op, a: bool, b: bool) {
    match op
    case AndOp => a && b
    case OrOp => a || b
    case XorOp => a != b
  }

  /** The number whose lowest `n` bits combine those of `x` and `y`. */
  function Combine(op: Op, n: nat, x: nat, y: nat): (r: nat)
    ensures r < Pow2(n)
  {
    if n == 0 then 0
    else (if Applied(op, x % 2 == 1, y % 2 == 1) then 1 else 0) + 2 * Combine(op, n - 1, x / 2, y / 2)
  }

  lemma {:induction false} CombineIsBitwise(op: Op, n: nat, x: nat, y: nat, i: nat)
    requires i < n
    ensures Bit(Combine(op, n, x, y), i) == Applied(op, Bit(x, i), Bit(y, i))
  {
    if i > 0 {
      CombineIsBitwise(op, n - 1, x / 2, y / 2, i - 1);
    }
  }

  lemma WordsHave32Bits()
    ensures Pow2(32) == 0x1_0000_0000
  {
    assert Pow2(8) == 256;
    assert Pow2(16) == 256 * Pow2(8);
    assert Pow2(24) == 256 * Pow2(16);
    assert Pow2(32) == 256 * Pow2(24);
  }

  function Combined(op: Op, x: Word, y: Word): Word {
    WordsHave32Bits();
    Combine(op, 32, x, y)
  }

  function And(x: Word, y: Word): Word {
    Combined(AndOp, x, y)
  }

  function Or(x: Word, y: Word): Word {
    Combined(OrOp, x, y)
  }

  function Xor(x: Word, y: Word): Word {
    Combined(XorOp, x, y)
  }

  function Complement(x: Word): Word {
    0xFFFF_FFFF - x
  }

  lemma {:induction false} ComplementFlips(n: nat, x: nat, i: nat)
    requires x < Pow2(n) && i < n
    ensures Bit(Pow2(n) - 1 - x, i) == !Bit(x, i)
  {
    if i > 0 {
      assert (Pow2(n) - 1 - x) / 2 == Pow2(n - 1) - 1 - x / 2;
      ComplementFlips(n - 1, x / 2, i - 1);
    }
  }

  function ShiftRight(x: Word, n: nat): Word {
    if n == 0 then x else ShiftRight(x / 2, n - 1)
  }

  function ShiftLeft(x: Word, n: nat): Word
    decreases n
  {
    if n == 0 then x else ShiftLeft(x * 2 % 0x1_0000_0000, n - 1)
  }

  function RotR(x: Word, n: nat): Word
    requires n <= 32
  {
    Or(ShiftRight(x, n), ShiftLeft(x, 32 - n))
  }

  lemma {:induction false} ShiftRightMovesBits(x: Word, n: nat, i: nat)
    ensures Bit(ShiftRight(x, n), i) == Bit(x, i + n)
    decreases n
  {
    if n > 0 {
      ShiftRightMovesBits(x / 2, n - 1, i);
    }
  }

  lemma {:induction false} HighBitsAreClear(n: nat, x: nat, i: nat)
    requires x < Pow2(n) && i >= n
    ensures !Bit(x, i)
  {
    if n > 0 {
      HighBitsAreClear(n - 1, x / 2, i - 1);
    } else if i > 0 {
      HighBitsAreClear(0, x / 2, i - 1);
    }
  }

  lemma LastBit(x: nat, q: nat, m: nat, r: nat)
    requires x == q * (2 * m) + r && r < 2 * m
    ensures x / 2 == q * m + r / 2 && x % 2 == r % 2 && r / 2 < m
  {
    var y := q * m;
    assert q * (2 * m) == 2 * y;
  }

  /** Taking the remainder by a power of two keeps the bits below it. */
  lemma {:induction false} LowBitsStay(n: nat, x: nat, q: nat, r: nat, i: nat)
    requires x == q * Pow2(n) + r && r < Pow2(n) && i < n
    ensures Bit(r, i) == Bit(x, i)
  {
    LastBit(x, q, Pow2(n - 1), r);
    if i > 0 {
      LowBitsStay(n - 1, x / 2, q, r / 2, i - 1);
    }
  }

  lemma {:induction false} ShiftLeftMovesBits(x: Word, n: nat, i: nat)
    requires i < 32
    ensures Bit(ShiftLeft(x, n), i) == (i >= n && Bit(x, i - n))
    decreases n
  {
    if n > 0 {
      var y := x * 2 % 0x1_0000_0000;
      ShiftLeftMovesBits(y, n - 1, i);
      if i >= n - 1 {
        WordsHave32Bits();
        LowBitsStay(32, x * 2, x * 2 / 0x1_0000_0000, y, i - (n - 1));
      }
    }
  }

  lemma OrIsBitwise(x: Word, y: Word, i: nat)
    requires i < 32
    ensures Bit(Or(x, y), i) == (Bit(x, i) || Bit(y, i))
  {
    CombineIsBitwise(OrOp, 32, x, y, i);
  }

  lemma NoBitsAbove(x: Word, i: nat)
    requires i >= 32
    ensures !Bit(x, i)
  {
    WordsHave32Bits();
    HighBitsAreClear(32, x, i);
  }

  /** `RotR` rotates: bit `i` of the result is bit `i + n` of the word, counted round the 32 positions. */
  lemma RotationMovesBits(x: Word, n: nat, i: nat)
    requires 0 < n < 32 && i < 32
    ensures Bit(RotR(x, n), i) == Bit(x, (i + n) % 32)
  {
    hide ShiftRight, ShiftLeft, Or, Bit;
    OrIsBitwise(ShiftRight(x, n), ShiftLeft(x, 32 - n), i);
    ShiftRightMovesBits(x, n, i);
    ShiftLeftMovesBits(x, 32 - n, i);
    if i + n >= 32 {
      NoBitsAbove(x, i + n);
    }
  }

  function Add(x: int, y: int): Word {
    (x + y) % 0x1_0000_0000
  }

  // ----------------------------------------------------------------- functions (4.1.2)

  function Ch(x: Word, y: Word, z: Word): Word {
    Xor(And(x, y), And(Complement(x), z))
  }

  function Maj(x: Word, y: Word, z: Word): Word {
    Xor(Xor(And(x, y), And(x, z)), And(y, z))
  }

  function BigSigma0(x: Word): Word {
    Xor(Xor(RotR(x, 2), RotR(x, 13)), RotR(x, 22))
  }

  function BigSigma1(x: Word): Word {
    Xor(Xor(RotR(x, 6), RotR(x, 11)), RotR(x, 25))
  }

  function SmallSigma0(x: Word): Word {
    Xor(Xor(RotR(x, 7), RotR(x, 18)), ShiftRight(x, 3))
  }

  function SmallSigma1(x: Word): Word {
    Xor(Xor(RotR(x, 17), RotR(x, 19)), ShiftRight(x, 10))
  }

  // ------------------------------------------------------------- constants (4.2.2, 5.3.3)

  const K0: seq<Word> :=
    [0x428a2f98, 0x71374491, 0xb5c0fbcf, 0xe9b5dba5, 0x3956c25b, 0x59f111f1, 0x923f82a4, 0xab1c5ed5,
     0xd807aa98, 0x12835b01, 0x243185be, 0x550c7dc3, 0x72be5d74, 0x80deb1fe, 0x9bdc06a7, 0xc19bf174]

  const K1: seq<Word> :=
    [0xe49b69c1, 0xefbe4786, 0x0fc19dc6, 0x240ca1cc, 0x2de92c6f, 0x4a7484aa, 0x5cb0a9dc, 0x76f988da,
     0x983e5152, 0xa831c66d, 0xb00327c8, 0xbf597fc7, 0xc6e00bf3, 0xd5a79147, 0x06ca6351, 0x14292967]

  const K2: seq<Word> :=
    [0x27b70a85, 0x2e1b2138, 0x4d2c6dfc, 0x53380d13, 0x650a7354, 0x766a0abb, 0x81c2c92e, 0x92722c85,
     0xa2bfe8a1, 0xa81a664b, 0xc24b8b70, 0xc76c51a3, 0xd192e819, 0xd6990624, 0xf40e3585, 0x106aa070]

  const K3: seq<Word> :=
    [0x19a4c116, 0x1e376c08, 0x2748774c, 0x34b0bcb5, 0x391c0cb3, 0x4ed8aa4a, 0x5b9cca4f, 0x682e6ff3,
     0x748f82ee, 0x78a5636f, 0x84c87814, 0x8cc70208, 0x90befffa, 0xa4506ceb, 0xbef9a3f7, 0xc67178f2]

  const PRIMES0: seq<nat> :=
    [2, 3, 5, 7, 11, 13, 17, 19, 23, 29, 31, 37, 41, 43, 47, 53]

  const PRIMES1: seq<nat> :=
    [59, 61, 67, 71, 73, 79, 83, 89, 97, 101, 103, 107, 109, 113, 127, 131]

  const PRIMES2: seq<nat> :=
    [137, 139, 149, 151, 157, 163, 167, 173, 179, 181, 191, 193, 197, 199, 211, 223]

  const PRIMES3: seq<nat> :=
    [227, 229, 233, 239, 241, 251, 257, 263, 269, 271, 277, 281, 283, 293, 307, 311]

  function K(t: nat): Word
    requires t < 64
  {
    if t < 16 then K0[t] else if t < 32 then K1[t - 16] else if t < 48 then K2[t - 32] else K3[t - 48]
  }

  /** The number whose cube root gives `K(t)`. The standard takes the first sixty-four primes. */
  function Prime(t: nat): nat
    requires t < 64
  {
    if t < 16 then PRIMES0[t] else if t < 32 then PRIMES1[t - 16] else if t < 48 then PRIMES2[t - 32]
       else PRIMES3[t - 48]
  }

  const H0: Hash := Hash(0x6a09e667, 0xbb67ae85, 0x3c6ef372, 0xa54ff53a, 0x510e527f, 0x9b05688c, 0x1f83d9ab, 0x5be0cd19)

  /** `c` is the cube root of `p`, with 32 bits after the point, rounded down. */
  predicate IsCubeRoot(c: nat, p: nat) {
    c * c * c <= p * 0x1_0000_0000_0000_0000_0000_0000 < (c + 1) * (c + 1) * (c + 1)
  }

  predicate IsSquareRoot(c: nat, p: nat) {
    c * c <= p * 0x1_0000_0000_0000_0000 < (c + 1) * (c + 1)
  }

  /** `k` is the first 32 bits of the fractional part of the cube root of `p`. */
  ghost predicate IsCubeRootBits(p: nat, k: Word) {
    exists c: nat :: IsCubeRoot(c, p) && c % 0x1_0000_0000 == k
  }

  ghost predicate IsSquareRootBits(p: nat, k: Word) {
    exists c: nat :: IsSquareRoot(c, p) && c % 0x1_0000_0000 == k
  }

  lemma CubeRoot(p: nat, c: nat)
    requires c * c * c <= p * 0x1_0000_0000_0000_0000_0000_0000 < (c + 1) * (c + 1) * (c + 1)
    ensures IsCubeRootBits(p, c % 0x1_0000_0000)
  {
    assert IsCubeRoot(c, p);
  }

  lemma SquareRoot(p: nat, c: nat)
    requires c * c <= p * 0x1_0000_0000_0000_0000 < (c + 1) * (c + 1)
    ensures IsSquareRootBits(p, c % 0x1_0000_0000)
  {
    assert IsSquareRoot(c, p);
  }

  lemma RowIsCubeRoots0()
    ensures forall i | 0 <= i < 16 :: IsCubeRootBits(PRIMES0[i], K0[i])
  {
    hide IsCubeRootBits;
    CubeRoot(2, 0x1_428a2f98); CubeRoot(3, 0x1_71374491); CubeRoot(5, 0x1_b5c0fbcf); CubeRoot(7, 0x1_e9b5dba5);
    CubeRoot(11, 0x2_3956c25b); CubeRoot(13, 0x2_59f111f1); CubeRoot(17, 0x2_923f82a4); CubeRoot(19, 0x2_ab1c5ed5);
    CubeRoot(23, 0x2_d807aa98); CubeRoot(29, 0x3_12835b01); CubeRoot(31, 0x3_243185be); CubeRoot(37, 0x3_550c7dc3);
    CubeRoot(41, 0x3_72be5d74); CubeRoot(43, 0x3_80deb1fe); CubeRoot(47, 0x3_9bdc06a7); CubeRoot(53, 0x3_c19bf174);
  }

  lemma RowIsCubeRoots1()
    ensures forall i | 0 <= i < 16 :: IsCubeRootBits(PRIMES1[i], K1[i])
  {
    hide IsCubeRootBits;
    CubeRoot(59, 0x3_e49b69c1); CubeRoot(61, 0x3_efbe4786); CubeRoot(67, 0x4_0fc19dc6); CubeRoot(71, 0x4_240ca1cc);
    CubeRoot(73, 0x4_2de92c6f); CubeRoot(79, 0x4_4a7484aa); CubeRoot(83, 0x4_5cb0a9dc); CubeRoot(89, 0x4_76f988da);
    CubeRoot(97, 0x4_983e5152); CubeRoot(101, 0x4_a831c66d); CubeRoot(103, 0x4_b00327c8); CubeRoot(107, 0x4_bf597fc7);
    CubeRoot(109, 0x4_c6e00bf3); CubeRoot(113, 0x4_d5a79147); CubeRoot(127, 0x5_06ca6351); CubeRoot(131, 0x5_14292967);
  }

  lemma RowIsCubeRoots2()
    ensures forall i | 0 <= i < 16 :: IsCubeRootBits(PRIMES2[i], K2[i])
  {
    hide IsCubeRootBits;
    CubeRoot(137, 0x5_27b70a85); CubeRoot(139, 0x5_2e1b2138); CubeRoot(149, 0x5_4d2c6dfc); CubeRoot(151, 0x5_53380d13);
    CubeRoot(157, 0x5_650a7354); CubeRoot(163, 0x5_766a0abb); CubeRoot(167, 0x5_81c2c92e); CubeRoot(173, 0x5_92722c85);
    CubeRoot(179, 0x5_a2bfe8a1); CubeRoot(181, 0x5_a81a664b); CubeRoot(191, 0x5_c24b8b70); CubeRoot(193, 0x5_c76c51a3);
    CubeRoot(197, 0x5_d192e819); CubeRoot(199, 0x5_d6990624); CubeRoot(211, 0x5_f40e3585); CubeRoot(223, 0x6_106aa070);
  }

  lemma RowIsCubeRoots3()
    ensures forall i | 0 <= i < 16 :: IsCubeRootBits(PRIMES3[i], K3[i])
  {
    hide IsCubeRootBits;
    CubeRoot(227, 0x6_19a4c116); CubeRoot(229, 0x6_1e376c08); CubeRoot(233, 0x6_2748774c); CubeRoot(239, 0x6_34b0bcb5);
    CubeRoot(241, 0x6_391c0cb3); CubeRoot(251, 0x6_4ed8aa4a); CubeRoot(257, 0x6_5b9cca4f); CubeRoot(263, 0x6_682e6ff3);
    CubeRoot(269, 0x6_748f82ee); CubeRoot(271, 0x6_78a5636f); CubeRoot(277, 0x6_84c87814); CubeRoot(281, 0x6_8cc70208);
    CubeRoot(283, 0x6_90befffa); CubeRoot(293, 0x6_a4506ceb); CubeRoot(307, 0x6_bef9a3f7); CubeRoot(311, 0x6_c67178f2);
  }

  lemma ConstantsAreCubeRoots(t: nat)
    requires t < 64
    ensures IsCubeRootBits(Prime(t), K(t))
  {
    hide IsCubeRootBits;
    RowIsCubeRoots0();
    RowIsCubeRoots1();
    RowIsCubeRoots2();
    RowIsCubeRoots3();
  }

  lemma StartIsSquareRoots()
    ensures IsSquareRootBits(2, H0.a) && IsSquareRootBits(3, H0.b) && IsSquareRootBits(5, H0.c)
            && IsSquareRootBits(7, H0.d)
    ensures IsSquareRootBits(11, H0.e) && IsSquareRootBits(13, H0.f) && IsSquareRootBits(17, H0.g)
            && IsSquareRootBits(19, H0.h)
  {
    hide IsSquareRootBits;
    SquareRoot(2, 0x1_6a09e667); SquareRoot(3, 0x1_bb67ae85); SquareRoot(5, 0x2_3c6ef372); SquareRoot(7, 0x2_a54ff53a);
    SquareRoot(11, 0x3_510e527f); SquareRoot(13, 0x3_9b05688c); SquareRoot(17, 0x4_1f83d9ab);
    SquareRoot(19, 0x4_5be0cd19);
  }

  // ------------------------------------------------------------------- padding (5.1.1)

  /** The number of zero bytes between the end marker and the length: the least that fills a block. */
  function ZeroBytes(n: nat): (k: nat)
    ensures (n + 1 + k + 8) % 64 == 0 && k < 64
  {
    (119 - n % 64) % 64
  }

  function BigEndian(x: nat, bytes: nat): (s: seq<Byte>)
    ensures |s| == bytes
  {
    if bytes == 0 then [] else BigEndian(x / 256, bytes - 1) + [(x % 256) as Byte]
  }

  function ValueOf(s: seq<Byte>): nat {
    if s == [] then 0 else 256 * ValueOf(s[..|s| - 1]) + s[|s| - 1] as int
  }

  function Pow256(n: nat): (r: nat)
    ensures r > 0
  {
    if n == 0 then 1 else 256 * Pow256(n - 1)
  }

  /** The big-endian bytes stand for the number, as far as they can hold it. */
  lemma {:induction false} BigEndianDecodes(x: nat, bytes: nat)
    requires x < Pow256(bytes)
    ensures ValueOf(BigEndian(x, bytes)) == x
  {
    if bytes > 0 {
      BigEndianDecodes(x / 256, bytes - 1);
      var s := BigEndian(x, bytes);
      assert s[..|s| - 1] == BigEndian(x / 256, bytes - 1);
    }
  }

  function Pad(m: seq<Byte>): (p: seq<Byte>)
    ensures |p| % 64 == 0
  {
    m + [0x80] + seq(ZeroBytes(|m|), i => 0) + BigEndian(8 * |m|, 8)
  }

  /** The padded length is the least multiple of 64 that leaves room for the marker and the length. */
  lemma PadIsLeast(m: seq<Byte>, l: nat)
    ensures |Pad(m)| % 64 == 0 && |m| + 9 <= |Pad(m)|
    ensures l % 64 == 0 && l >= |m| + 9 ==> l >= |Pad(m)|
  {
    hide BigEndian;
    assert |Pad(m)| == |m| + 9 + ZeroBytes(|m|);
  }

  // ---------------------------------------------------------------- hashing (6.2.2)

  datatype Hash = Hash(a: Word, b: Word, c: Word, d: Word, e: Word, f: Word, g: Word, h: Word)

  function WordAt(p: seq<Byte>, i: nat): Word
    requires i + 4 <= |p|
  {
    p[i] as int * 0x100_0000 + p[i + 1] as int * 0x1_0000 + p[i + 2] as int * 0x100 + p[i + 3] as int
  }

  /** Word `t` of the message schedule of the block at `offset`. */
  function Schedule(p: seq<Byte>, offset: nat, t: nat): Word
    requires offset + 64 <= |p| && t < 64
  {
    if t < 16 then WordAt(p, offset + 4 * t)
    else
      Add(Add(Add(SmallSigma1(Schedule(p, offset, t - 2)), Schedule(p, offset, t - 7)),
              SmallSigma0(Schedule(p, offset, t - 15))), Schedule(p, offset, t - 16))
  }

  function Round(s: Hash, k: Word, w: Word): Hash {
    var t1 := Add(Add(Add(Add(s.h, BigSigma1(s.e)), Ch(s.e, s.f, s.g)), k), w);
    var t2 := Add(BigSigma0(s.a), Maj(s.a, s.b, s.c));
    Hash(Add(t1, t2), s.a, s.b, s.c, Add(s.d, t1), s.e, s.f, s.g)
  }

  /** The working variables after the first `t` rounds on a block. */
  function Rounds(s: Hash, p: seq<Byte>, offset: nat, t: nat): Hash
    requires offset + 64 <= |p| && t <= 64
  {
    if t == 0 then s else Round(Rounds(s, p, offset, t - 1), K(t - 1), Schedule(p, offset, t - 1))
  }

  function Sum(s: Hash, t: Hash): Hash {
    Hash(Add(t.a, s.a), Add(t.b, s.b), Add(t.c, s.c), Add(t.d, s.d), Add(t.e, s.e), Add(t.f, s.f), Add(t.g, s.g),
         Add(t.h, s.h))
  }

  /** The hash value after the first `n` blocks. */
  function HashBlocks(p: seq<Byte>, n: nat): Hash
    requires 64 * n <= |p|
  {
    if n == 0 then H0
    else
      var before := HashBlocks(p, n - 1);
      Sum(Rounds(before, p, 64 * (n - 1), 64), before)
  }

  function Digest(m: seq<Byte>): Hash
  {
    var p := Pad(m);
    HashBlocks(p, |p| / 64)
  }
}
