/** The hand-written SHA-256 of `sha256.ts`, with JavaScript's number operations, proved against FIPS 180-4. */
module Sha256 {
  import opened Texts
  import opened Sha256Standard

  // ------------------------------------------------------ JavaScript's 32-bit operations

  /** What the bit operations of JavaScript make of an integral number. */
  function ToUint32(n: int): Word {
    n % 0x1_0000_0000
  }

  function ToInt32(n: int): (r: int)
    ensures -0x8000_0000 <= r < 0x8000_0000 && ToUint32(r) == ToUint32(n)
  {
    var u := ToUint32(n);
    if u >= 0x8000_0000 then u - 0x1_0000_0000 else u
  }

  /** `v >>> k` */
  function UnsignedShiftRight(v: int, k: nat): (r: Word)
    ensures ToUint32(r) == ShiftRight(ToUint32(v), k)
  {
    hide ShiftRight;
    ShiftRight(ToUint32(v), k)
  }

  lemma WordStays(x: Word)
    ensures ToUint32(x) == x
  {
  }

  /** `v >> k` */
  function SignedShiftRight(v: int, k: nat): int {
    ToInt32(v) / Pow2(k)
  }

  /** `v << k` */
  function LeftShift(v: int, k: nat): (r: int)
    ensures Small(r) && ToUint32(r) == ShiftLeft(ToUint32(v), k)
  {
    ToInt32(ShiftLeft(ToUint32(v), k))
  }

  function BitAnd(a: int, b: int): (r: int)
    ensures Small(r) && ToUint32(r) == And(ToUint32(a), ToUint32(b))
  {
    hide And;
    ToInt32(And(ToUint32(a), ToUint32(b)))
  }

  function BitOr(a: int, b: int): (r: int)
    ensures Small(r) && ToUint32(r) == Or(ToUint32(a), ToUint32(b))
  {
    hide Or;
    ToInt32(Or(ToUint32(a), ToUint32(b)))
  }

  function BitXor(a: int, b: int): (r: int)
    ensures Small(r) && ToUint32(r) == Xor(ToUint32(a), ToUint32(b))
  {
    hide Xor;
    ToInt32(Xor(ToUint32(a), ToUint32(b)))
  }

  function BitNot(a: int): (r: int)
    ensures Small(r) && ToUint32(r) == Complement(ToUint32(a))
  {
    ToInt32(-ToInt32(a) - 1)
  }

  /** The result of a bit operation: a signed 32-bit number. */
  predicate Small(n: int) {
    -0x8000_0000 <= n < 0x8000_0000
  }

  /** `a + b` on numbers whose sum a double represents exactly. */
  function Plus(a: int, b: int): (r: int)
    requires -0x20_0000_0000_0000 < a + b < 0x20_0000_0000_0000
    ensures r == a + b
  {
    a + b
  }

  /** `rightRotate` */
  function RightRotate(value: int, amount: nat): (r: int)
    requires amount <= 32
    ensures Small(r) && ToUint32(r) == RotR(ToUint32(value), amount)
  {
    hide ShiftRight, ShiftLeft, Or;
    BitOr(UnsignedShiftRight(value, amount), LeftShift(value, 32 - amount))
  }

  // -------------------------------------------------------------------- padding

  function PaddedLength(n: nat): int {
    LeftShift(SignedShiftRight(n + 9 + 63, 6), 6)
  }

  lemma RemainderIs(x: int, q: int, r: int)
    requires x == q * 0x1_0000_0000 + r && 0 <= r < 0x1_0000_0000
    ensures ToUint32(x) == r
  {
  }

  lemma DoubleOfRemainder(x: int)
    ensures x % 0x1_0000_0000 * 2 % 0x1_0000_0000 == x * 2 % 0x1_0000_0000
  {
    var y := x % 0x1_0000_0000;
    RemainderIs(x * 2, x / 0x1_0000_0000 * 2 + y * 2 / 0x1_0000_0000, y * 2 % 0x1_0000_0000);
  }

  /** A remainder inside a sum may be left out. */
  lemma Fold(x: int, y: int)
    ensures ToUint32(ToUint32(x) + y) == ToUint32(x + y) && ToUint32(y + ToUint32(x)) == ToUint32(x + y)
  {
    var z := ToUint32(x) + y;
    RemainderIs(x + y, x / 0x1_0000_0000 + z / 0x1_0000_0000, ToUint32(z));
  }

  lemma AddIs(x: int, y: int)
    ensures Add(x, y) == ToUint32(x + y)
  {
  }

  lemma ShiftLeftBySix(x: Word)
    ensures ShiftLeft(x, 6) == x * 64 % 0x1_0000_0000
  {
    var x1 := x * 2 % 0x1_0000_0000;
    DoubleOfRemainder(x * 2);
    var x2 := x * 4 % 0x1_0000_0000;
    DoubleOfRemainder(x * 4);
    var x3 := x * 8 % 0x1_0000_0000;
    DoubleOfRemainder(x * 8);
    var x4 := x * 16 % 0x1_0000_0000;
    DoubleOfRemainder(x * 16);
    var x5 := x * 32 % 0x1_0000_0000;
    DoubleOfRemainder(x * 32);
    assert ShiftLeft(x5, 1) == x * 64 % 0x1_0000_0000;
    assert ShiftLeft(x4, 2) == ShiftLeft(x5, 1) && ShiftLeft(x3, 3) == ShiftLeft(x4, 2);
    assert ShiftLeft(x2, 4) == ShiftLeft(x3, 3) && ShiftLeft(x1, 5) == ShiftLeft(x2, 4);
    assert ShiftLeft(x, 6) == ShiftLeft(x1, 5);
  }

  /** The shifts round down to a multiple of 64 within 32 bits. */
  lemma PaddedLengthRounds(n: nat)
    ensures PaddedLength(n) == ToInt32(n + 72) / 64 * 64
  {
    hide ShiftLeft;
    assert Pow2(6) == 64;
    ShiftLeftBySix(ToUint32(ToInt32(n + 72) / 64));
  }

  /** The rounded 32-bit number is the next multiple of 64 exactly below 2^31. */
  lemma RoundedDown(n: nat, padded: nat)
    requires padded % 64 == 0 && n + 9 <= padded < n + 9 + 64
    ensures ToInt32(n + 72) / 64 * 64 == padded <==> n + 72 < 0x8000_0000
    ensures n + 72 >= 0x8000_0000 ==> ToInt32(n + 72) / 64 * 64 < n
  {
    var x := ToInt32(n + 72);
    if n + 72 < 0x8000_0000 {
      assert x == n + 72;
    } else {
      assert x < 0x8000_0000;
    }
  }

  /** The shifts compute the length of the padded message if and only if the message is short enough. */
  lemma PaddedLengthIsExact(m: seq<Byte>)
    ensures PaddedLength(|m|) == |Pad(m)| <==> |m| + 72 < 0x8000_0000
    ensures |m| + 72 >= 0x8000_0000 ==> PaddedLength(|m|) < |m|
  {
    hide PaddedLength, BigEndian;
    PaddedLengthRounds(|m|);
    var n := |m|;
    assert |Pad(m)| == n + 9 + ZeroBytes(n);
    hide Pad, ZeroBytes, ToUint32;
    RoundedDown(n, |Pad(m)|);
  }

  function GetUint32(view: array<Byte>, offset: nat): Word
    requires offset + 4 <= view.Length
    reads view
  {
    view[offset] as int * 0x100_0000 + view[offset + 1] as int * 0x1_0000 + view[offset + 2] as int * 0x100
    + view[offset + 3] as int
  }

  method SetUint32(view: array<Byte>, offset: nat, v: int)
    requires offset + 4 <= view.Length
    modifies view
    ensures view[..] == old(view[..offset]) + BigEndian(ToUint32(v), 4) + old(view[offset + 4..])
  {
    var u := ToUint32(v);
    FourBytes(u);
    view[offset] := (u / 0x100_0000) as Byte;
    view[offset + 1] := (u / 0x1_0000 % 256) as Byte;
    view[offset + 2] := (u / 0x100 % 256) as Byte;
    view[offset + 3] := (u % 256) as Byte;
  }

  lemma FourBytes(u: Word)
    ensures BigEndian(u, 4)
            == [(u / 0x100_0000) as Byte, (u / 0x1_0000 % 256) as Byte, (u / 0x100 % 256) as Byte, (u % 256) as Byte]
  {
    var u1, u2, u3 := u / 256, u / 256 / 256, u / 256 / 256 / 256;
    assert BigEndian(u3, 1) == BigEndian(u3 / 256, 0) + [(u3 % 256) as Byte] == [(u3 % 256) as Byte];
    assert BigEndian(u2, 2) == BigEndian(u3, 1) + [(u2 % 256) as Byte];
    assert BigEndian(u1, 3) == BigEndian(u2, 2) + [(u1 % 256) as Byte];
    assert BigEndian(u, 4) == BigEndian(u1, 3) + [(u % 256) as Byte];
  }

  lemma LastByte(x: nat, q: nat, m: nat, r: nat)
    requires x == q * (256 * m) + r && r < 256 * m
    ensures x / 256 == q * m + r / 256 && x % 256 == r % 256 && r / 256 < m
  {
    var y := q * m;
    assert q * (256 * m) == 256 * y;
  }

  lemma {:induction false} BigEndianSplits(x: nat, high: nat, low: nat, q: nat, r: nat)
    requires x == q * Pow256(low) + r && r < Pow256(low)
    ensures BigEndian(x, high + low) == BigEndian(q, high) + BigEndian(r, low)
    decreases low
  {
    if low > 0 {
      LastByte(x, q, Pow256(low - 1), r);
      BigEndianSplits(x / 256, high, low - 1, q, r / 256);
    }
  }

  lemma FourByteRange()
    ensures Pow256(4) == 0x1_0000_0000
  {
    assert Pow256(2) == 256 * Pow256(1) == 65536;
    assert Pow256(4) == 256 * Pow256(3) && Pow256(3) == 256 * Pow256(2);
  }

  lemma LengthBytes(n: nat)
    ensures BigEndian(8 * n, 8) == BigEndian(ToUint32(8 * n / 0x1_0000_0000), 4) + BigEndian(ToUint32(8 * n), 4)
  {
    FourByteRange();
    var high := 8 * n / 0x1_0000_0000;
    BigEndianSplits(8 * n, 4, 4, high, ToUint32(8 * n));
    SameLowBytes(high);
  }

  /** Four bytes hold a number modulo 2^32. */
  lemma SameLowBytes(x: nat)
    ensures BigEndian(x, 4) == BigEndian(ToUint32(x), 4)
  {
    FourByteRange();
    BigEndianSplits(x, 0, 4, x / 0x1_0000_0000, ToUint32(x));
    assert BigEndian(x, 0 + 4) == BigEndian(x, 4);
  }

  // -------------------------------------------------------------------- hashing

  method FillSchedule(padded: array<Byte>, offset: nat, w: array<Word>)
    requires offset + 64 <= padded.Length && w.Length == 64
    modifies w
    ensures forall t | 0 <= t < 64 :: w[t] == Schedule(padded[..], offset, t)
  {
    hide SmallSigma0, SmallSigma1, SmallS0, SmallS1, ToUint32, Add;
    for i := 0 to 16
      invariant forall t | 0 <= t < i :: w[t] == Schedule(padded[..], offset, t)
    {
      w[i] := GetUint32(padded, offset + i * 4);
    }
    for i := 16 to 64
      invariant forall t | 0 <= t < i :: w[t] == Schedule(padded[..], offset, t)
    {
      var s0 := SmallS0(w[i - 15]);
      var s1 := SmallS1(w[i - 2]);
      ScheduleSum(w[i - 16], s0, w[i - 7], s1);
      w[i] := ToUint32(Plus(ToUint32(Plus(w[i - 16], s0)), ToUint32(Plus(w[i - 7], s1))));
    }
  }

  function SmallS0(x: Word): (r: int)
    ensures Small(r) && ToUint32(r) == SmallSigma0(x)
  {
    WordStays(x);
    hide RotR, Xor, ShiftRight, ToUint32;
    BitXor(BitXor(RightRotate(x, 7), RightRotate(x, 18)), UnsignedShiftRight(x, 3))
  }

  function SmallS1(x: Word): (r: int)
    ensures Small(r) && ToUint32(r) == SmallSigma1(x)
  {
    WordStays(x);
    hide RotR, Xor, ShiftRight, ToUint32;
    BitXor(BitXor(RightRotate(x, 17), RightRotate(x, 19)), UnsignedShiftRight(x, 10))
  }

  lemma ScheduleSum(w16: Word, s0: int, w7: Word, s1: int)
    ensures ToUint32(ToUint32(w16 + s0) + ToUint32(w7 + s1)) == Add(Add(Add(ToUint32(s1), w7), ToUint32(s0)), w16)
  {
    Fold(w16 + s0, ToUint32(w7 + s1));
    Fold(w7 + s1, w16 + s0);
    AddIs(ToUint32(s1), w7);
    Fold(s1, w7);
    AddIs(ToUint32(s1 + w7), ToUint32(s0));
    Fold(s1 + w7, ToUint32(s0));
    Fold(s0, s1 + w7);
    AddIs(ToUint32(s0 + (s1 + w7)), w16);
    Fold(s0 + (s1 + w7), w16);
    hide ToUint32, Add;
    assert s0 + (s1 + w7) + w16 == w7 + s1 + (w16 + s0);
  }

  lemma FirstSum(h: Word, s1: int, ch: int, k: Word, w: Word)
    ensures ToUint32(ToUint32(ToUint32(h + s1) + ch) + ToUint32(k + w))
            == Add(Add(Add(Add(h, ToUint32(s1)), ToUint32(ch)), k), w)
  {
    AddIs(h, ToUint32(s1));
    Fold(s1, h);
    AddIs(ToUint32(h + s1), ToUint32(ch));
    Fold(ch, ToUint32(h + s1));
    var x := ToUint32(h + s1) + ch;
    AddIs(ToUint32(x), k);
    Fold(x, k);
    AddIs(ToUint32(x + k), w);
    Fold(x + k, w);
    Fold(k + w, ToUint32(x));
    Fold(x, k + w);
    hide ToUint32, Add;
    assert x + k + w == x + (k + w);
  }

  lemma SecondSum(s0: int, maj: int)
    ensures ToUint32(s0 + maj) == Add(ToUint32(s0), ToUint32(maj))
  {
    AddIs(ToUint32(s0), ToUint32(maj));
    Fold(s0, ToUint32(maj));
    Fold(maj, s0);
  }

  function BigS0(x: Word): (r: int)
    ensures Small(r) && ToUint32(r) == BigSigma0(x)
  {
    WordStays(x);
    hide RotR, Xor, ToUint32;
    BitXor(BitXor(RightRotate(x, 2), RightRotate(x, 13)), RightRotate(x, 22))
  }

  function BigS1(x: Word): (r: int)
    ensures Small(r) && ToUint32(r) == BigSigma1(x)
  {
    WordStays(x);
    hide RotR, Xor, ToUint32;
    BitXor(BitXor(RightRotate(x, 6), RightRotate(x, 11)), RightRotate(x, 25))
  }

  function Choice(e: Word, f: Word, g: Word): (r: int)
    ensures Small(r) && ToUint32(r) == Ch(e, f, g)
  {
    hide And, Xor;
    BitXor(BitAnd(e, f), BitAnd(BitNot(e), g))
  }

  function Majority(a: Word, b: Word, c: Word): (r: int)
    ensures Small(r) && ToUint32(r) == Maj(a, b, c)
  {
    hide And, Xor;
    BitXor(BitXor(BitAnd(a, b), BitAnd(a, c)), BitAnd(b, c))
  }

  /** The 64 rounds on the block at `offset`, from the hash value before the block. */
  method Compress(padded: array<Byte>, offset: nat, w: array<Word>, before: Hash) returns (after: Hash)
    requires offset + 64 <= padded.Length && w.Length == 64
    requires forall t | 0 <= t < 64 :: w[t] == Schedule(padded[..], offset, t)
    ensures after == Rounds(before, padded[..], offset, 64)
  {
    hide BigS0, BigS1, Choice, Majority, BigSigma0, BigSigma1, Ch, Maj, ToUint32, Add, K, Schedule;
    var a, b, c, d := before.a, before.b, before.c, before.d;
    var e, f, g, h := before.e, before.f, before.g, before.h;
    for i := 0 to 64
      invariant Hash(a, b, c, d, e, f, g, h) == Rounds(before, padded[..], offset, i)
    {
      var s1 := BigS1(e);
      var ch := Choice(e, f, g);
      var temp1 := ToUint32(Plus(ToUint32(Plus(ToUint32(Plus(h, s1)), ch)), ToUint32(Plus(K(i), w[i]))));
      FirstSum(h, s1, ch, K(i), w[i]);
      var s0 := BigS0(a);
      var maj := Majority(a, b, c);
      var temp2 := ToUint32(Plus(s0, maj));
      SecondSum(s0, maj);
      AddIs(d, temp1);
      AddIs(temp1, temp2);
      h := g;
      g := f;
      f := e;
      e := ToUint32(Plus(d, temp1));
      d := c;
      c := b;
      b := a;
      a := ToUint32(Plus(temp1, temp2));
    }
    after := Hash(a, b, c, d, e, f, g, h);
  }

  // ------------------------------------------------------------------ hex digits

  function Digit(d: nat): char
    requires d < 16
  {
    if d < 10 then '0' + d as char else 'a' + (d - 10) as char
  }

  predicate IsHexDigit(c: char) {
    '0' <= c <= '9' || 'a' <= c <= 'f'
  }

  /** `Number.prototype.toString(16)` */
  function ToHex(x: nat): string {
    if x < 16 then [Digit(x)] else ToHex(x / 16) + [Digit(x % 16)]
  }

  function PadStart(s: string, n: nat): string {
    if |s| >= n then s else seq(n - |s|, i => '0') + s
  }

  /** The `n` lowest hex digits. */
  function HexDigits(x: nat, n: nat): (s: string)
    ensures |s| == n && forall i | 0 <= i < n :: IsHexDigit(s[i])
  {
    if n == 0 then "" else HexDigits(x / 16, n - 1) + [Digit(x % 16)]
  }

  function Pow16(n: nat): (r: nat)
    ensures r > 0
  {
    if n == 0 then 1 else 16 * Pow16(n - 1)
  }

  lemma {:induction false} ZeroDigits(n: nat)
    ensures HexDigits(0, n) == seq(n, i => '0')
  {
    if n > 0 {
      ZeroDigits(n - 1);
      assert seq(n, i => '0') == seq(n - 1, i => '0') + ['0'];
    }
  }

  lemma {:induction false} PaddedHex(x: nat, n: nat)
    requires 0 < n && x < Pow16(n)
    ensures PadStart(ToHex(x), n) == HexDigits(x, n)
  {
    if x < 16 {
      ZeroDigits(n - 1);
    } else {
      assert n > 1 by {
        assert Pow16(1) == 16;
      }
      PaddedHex(x / 16, n - 1);
    }
  }

  function DigitValue(c: char): nat {
    if '0' <= c <= '9' then (c - '0') as nat else if 'a' <= c <= 'f' then (c - 'a') as nat + 10 else 0
  }

  function HexValue(s: string): nat {
    if s == "" then 0 else 16 * HexValue(s[..|s| - 1]) + DigitValue(s[|s| - 1])
  }

  lemma {:induction false} HexDecodes(x: nat, n: nat)
    requires x < Pow16(n)
    ensures HexValue(HexDigits(x, n)) == x
  {
    if n > 0 {
      HexDecodes(x / 16, n - 1);
      var s := HexDigits(x, n);
      assert s[..n - 1] == HexDigits(x / 16, n - 1);
    }
  }

  function HexOf(h: Hash): (s: string)
    ensures |s| == 64 && forall i | 0 <= i < 64 :: IsHexDigit(s[i])
  {
    HexDigits(h.a, 8) + HexDigits(h.b, 8) + HexDigits(h.c, 8) + HexDigits(h.d, 8)
    + HexDigits(h.e, 8) + HexDigits(h.f, 8) + HexDigits(h.g, 8) + HexDigits(h.h, 8)
  }

  function HashOf(s: string): Hash
    requires |s| == 64
  {
    Hash(WordOf(s[0..8]), WordOf(s[8..16]), WordOf(s[16..24]), WordOf(s[24..32]),
         WordOf(s[32..40]), WordOf(s[40..48]), WordOf(s[48..56]), WordOf(s[56..64]))
  }

  function WordOf(s: string): Word {
    HexValue(s) % 0x1_0000_0000
  }

  lemma WordHasEightDigits()
    ensures Pow16(8) == 0x1_0000_0000
  {
    assert Pow16(2) == 256 && Pow16(4) == 256 * Pow16(2) && Pow16(6) == 256 * Pow16(4) && Pow16(8) == 256 * Pow16(6);
  }

  lemma WordDecodes(x: Word)
    ensures WordOf(HexDigits(x, 8)) == x && PadStart(ToHex(x), 8) == HexDigits(x, 8)
  {
    WordHasEightDigits();
    hide HexDigits, HexValue, ToHex, PadStart, Pow16;
    HexDecodes(x, 8);
    PaddedHex(x, 8);
  }

  /** The 64 digits are lowercase hex and determine the hash value. */
  lemma HexOfDecodes(h: Hash)
    ensures HashOf(HexOf(h)) == h
  {
    hide HexDigits, WordOf;
    WordDecodes(h.a);
    WordDecodes(h.b);
    WordDecodes(h.c);
    WordDecodes(h.d);
    WordDecodes(h.e);
    WordDecodes(h.f);
    WordDecodes(h.g);
    WordDecodes(h.h);
    var s := HexOf(h);
    assert s[0..8] == HexDigits(h.a, 8) && s[8..16] == HexDigits(h.b, 8);
    assert s[16..24] == HexDigits(h.c, 8) && s[24..32] == HexDigits(h.d, 8);
    assert s[32..40] == HexDigits(h.e, 8) && s[40..48] == HexDigits(h.f, 8);
    assert s[48..56] == HexDigits(h.g, 8) && s[56..64] == HexDigits(h.h, 8);
  }

  // ---------------------------------------------------------------- the whole hash

  /** The padded message in a new buffer, or none where the engine raises a range error. */
  method PadMessage(bytes: seq<Byte>) returns (padded: array<Byte>, fits: bool)
    ensures fits <==> |bytes| + 72 < 0x8000_0000
    ensures fits ==> fresh(padded) && padded[..] == Pad(bytes)
  {
    var n := |bytes|;
    var paddedLength := PaddedLength(n);
    PaddedLengthIsExact(bytes);
    if paddedLength < 0 || n > paddedLength {
      return new Byte[0], false;
    }
    padded := new Byte[paddedLength](i => 0);
    forall i | 0 <= i < n {
      padded[i] := bytes[i];
    }
    padded[n] := 0x80;
    ghost var p0 := padded[..];
    assert p0 == bytes + [0x80] + seq(paddedLength - n - 1, i => 0);
    SetUint32(padded, paddedLength - 8, 8 * n / 0x1_0000_0000);
    ghost var p1 := padded[..];
    SetUint32(padded, paddedLength - 4, 8 * n);
    LengthGoesLast(bytes, p0, p1, padded[..]);
    fits := true;
  }

  /** The two 32-bit stores put the length in its place. */
  lemma LengthGoesLast(m: seq<Byte>, p0: seq<Byte>, p1: seq<Byte>, p2: seq<Byte>)
    requires |p0| == |Pad(m)| && p0 == m + [0x80] + seq(|p0| - |m| - 1, i => 0)
    requires |p0| >= |m| + 9
    requires p1 == p0[..|p0| - 8] + BigEndian(ToUint32(8 * |m| / 0x1_0000_0000), 4) + p0[|p0| - 4..]
    requires p2 == p1[..|p0| - 4] + BigEndian(ToUint32(8 * |m|), 4) + p1[|p0|..]
    ensures p2 == Pad(m)
  {
    LengthBytes(|m|);
    hide BigEndian, ToUint32;
    assert |Pad(m)| == |m| + 9 + ZeroBytes(|m|);
    assert p0[..|p0| - 8] == m + [0x80] + seq(ZeroBytes(|m|), i => 0);
    assert p1[..|p0| - 4] == p0[..|p0| - 8] + BigEndian(ToUint32(8 * |m| / 0x1_0000_0000), 4);
    assert p1[|p0|..] == [];
  }

  /**
   `sha256Hex` on the UTF-8 bytes of its input: the SHA-256 digest in hex, for every message short enough
   for the padded length to be computed in 32 bits.
   */
  method Sha256Hex(bytes: seq<Byte>) returns (hex: Option<string>)
    ensures hex.Some? <==> |bytes| + 72 < 0x8000_0000
    ensures hex.Some? ==> hex.value == HexOf(Digest(bytes))
  {
    var padded, fits := PadMessage(bytes);
    if !fits {
      return None;
    }
    var h := HashPadded(padded);
    hex := Some(HexString(h));
  }

  /** The loop over the blocks. */
  method HashPadded(padded: array<Byte>) returns (h: Hash)
    requires padded.Length % 64 == 0
    ensures h == HashBlocks(padded[..], padded.Length / 64)
  {
    hide Schedule, Rounds, Sum, AddHashes;
    h := H0;
    var w := new Word[64];
    var offset := 0;
    ghost var n, blocks := 0, padded.Length / 64;
    while offset < padded.Length
      invariant offset == 64 * n && n <= blocks
      invariant h == HashBlocks(padded[..], n)
    {
      FillSchedule(padded, offset, w);
      var after := Compress(padded, offset, w, h);
      h := AddHashes(h, after);
      offset, n := offset + 64, n + 1;
    }
  }

  function AddHashes(h: Hash, s: Hash): (r: Hash)
    ensures r == Sum(s, h)
  {
    Hash(ToUint32(Plus(h.a, s.a)), ToUint32(Plus(h.b, s.b)), ToUint32(Plus(h.c, s.c)), ToUint32(Plus(h.d, s.d)),
         ToUint32(Plus(h.e, s.e)), ToUint32(Plus(h.f, s.f)), ToUint32(Plus(h.g, s.g)), ToUint32(Plus(h.h, s.h)))
  }

  function HexString(h: Hash): (s: string)
    ensures s == HexOf(h)
  {
    WordDecodes(h.a);
    WordDecodes(h.b);
    WordDecodes(h.c);
    WordDecodes(h.d);
    WordDecodes(h.e);
    WordDecodes(h.f);
    WordDecodes(h.g);
    WordDecodes(h.h);
    PadStart(ToHex(h.a), 8) + PadStart(ToHex(h.b), 8) + PadStart(ToHex(h.c), 8) + PadStart(ToHex(h.d), 8)
    + PadStart(ToHex(h.e), 8) + PadStart(ToHex(h.f), 8) + PadStart(ToHex(h.g), 8) + PadStart(ToHex(h.h), 8)
  }
}
