/** CRC-16/CCITT-FALSE, firmware/common/protocol/htk_crc16.c: polynomial 0x1021, initial
    register 0xFFFF, most significant bit first, no reflection, no final XOR.

    The register loop is proved against schoolbook long division of polynomials over GF(2),
    and shown to tell apart any two payloads that differ in one burst of up to 16 bits. */
module Crc16 {
  import opened Wire

  type Register = bv16

  const POLY: Register := 0x1021
  const INIT: Register := 0xFFFF

  function Xor(a: Register, b: Register): (x: Register) {
    a ^ b
  }

  function Top(r: Register): (t: Register) {
    r & 0x8000
  }

  function Left(r: Register): (next: Register) {
    r << 1
  }

  predicate HasTop(r: Register) {
    Top(r) != 0
  }

  /** The low bits of `x`, most significant first. */
  function LowBits(x: nat, n: nat): (bits: seq<bool>)
    ensures |bits| == n
    decreases n
  {
    if n == 0 then [] else LowBits(x / 2, n - 1) + [x % 2 == 1]
  }

  function BitsOf(b: byte): (bits: seq<bool>)
    ensures |bits| == 8
  {
    LowBits(b, 8)
  }

  function Pow(k: nat): (p: Register) {
    if k == 0 then 1 else Pow(k - 1) << 1
  }

  /** The bits laid from register position `k` downwards. */
  function Aligned(bits: seq<bool>, k: int): (w: Register)
    requires |bits| <= k + 1
    decreases |bits|
  {
    if bits == [] then 0 else Xor(if bits[0] then Pow(k) else 0, Aligned(bits[1..], k - 1))
  }

  /** The byte widened to a register. */
  function Word(b: byte): (w: Register) {
    Aligned(BitsOf(b), 7)
  }

  /** One turn of the inner loop. */
  function Shift(r: Register): (next: Register) {
    if HasTop(r) then Xor(Left(r), POLY) else Left(r)
  }

  function Shifts(r: Register, n: nat): (next: Register)
    decreases n
  {
    if n == 0 then r else Shifts(Shift(r), n - 1)
  }

  /** The byte enters at the top of the register. */
  function Load(r: Register, b: byte): (next: Register) {
    Xor(r, Word(b) << 8)
  }

  /** One turn of the outer loop. */
  function FeedByte(r: Register, b: byte): (next: Register) {
    Shifts(Load(r, b), 8)
  }

  function FeedBytes(r: Register, data: seq<byte>): (next: Register)
    decreases |data|
  {
    if data == [] then r else FeedBytes(FeedByte(r, data[0]), data[1..])
  }

  function Crc(data: seq<byte>): (crc: Register) {
    FeedBytes(INIT, data)
  }

  lemma {:induction false} ShiftsStep(r: Register, n: nat)
    ensures Shifts(r, n + 1) == Shift(Shifts(r, n))
    decreases n
  {
    hide Shift;
    if n > 0 {
      ShiftsStep(Shift(r), n - 1);
    }
  }

  method Compute(data: seq<byte>) returns (crc: Register)
    ensures crc == Crc(data)
  {
    hide Load, Shift;
    crc := INIT;
    for i := 0 to |data|
      invariant Crc(data) == FeedBytes(crc, data[i..])
    {
      assert data[i..][0] == data[i] && data[i..][1..] == data[i + 1..];
      crc := Load(crc, data[i]);
      ghost var loaded := crc;
      for b := 0 to 8
        invariant crc == Shifts(loaded, b)
      {
        ShiftsStep(loaded, b);
        crc := Shift(crc);
      }
    }
  }

  // ---- the same register, fed bit by bit --------------------------------------

  function BitOf(b: bool): (m: Register) {
    if b then 0x8000 else 0
  }

  function FeedBit(r: Register, b: bool): (next: Register) {
    Shift(Xor(r, BitOf(b)))
  }

  function FeedBits(r: Register, bits: seq<bool>): (next: Register)
    decreases |bits|
  {
    if bits == [] then r else FeedBits(FeedBit(r, bits[0]), bits[1..])
  }

  function BitsOfAll(data: seq<byte>): (bits: seq<bool>)
    ensures |bits| == 8 * |data|
  {
    if data == [] then [] else BitsOf(data[0]) + BitsOfAll(data[1..])
  }

  lemma {:induction false} FeedBitsAppend(r: Register, a: seq<bool>, b: seq<bool>)
    ensures FeedBits(r, a + b) == FeedBits(FeedBits(r, a), b)
    decreases |a|
  {
    hide FeedBit;
    if a == [] {
      assert a + b == b;
    } else {
      assert (a + b)[0] == a[0] && (a + b)[1..] == a[1..] + b;
      FeedBitsAppend(FeedBit(r, a[0]), a[1..], b);
    }
  }

  // ---- the register's algebra --------------------------------------------------

  lemma XorAssoc(a: Register, b: Register, c: Register)
    ensures Xor(Xor(a, b), c) == Xor(a, Xor(b, c))
  {
  }

  lemma XorComm(a: Register, b: Register)
    ensures Xor(a, b) == Xor(b, a)
  {
  }

  lemma XorSelf(a: Register)
    ensures Xor(a, a) == 0 && Xor(a, 0) == a && Xor(0, a) == a
  {
  }

  lemma TopXor(a: Register, b: Register)
    ensures Top(Xor(a, b)) == Xor(Top(a), Top(b))
  {
  }

  lemma LeftXor(a: Register, b: Register)
    ensures Left(Xor(a, b)) == Xor(Left(a), Left(b))
  {
  }

  lemma TopValue(a: Register)
    ensures Top(a) == 0 || Top(a) == 0x8000
  {
  }

  lemma XorTop(a: Register, b: Register)
    ensures HasTop(Xor(a, b)) <==> HasTop(a) != HasTop(b)
    ensures Left(Xor(a, b)) == Xor(Left(a), Left(b))
  {
    hide Xor, Top, Left;
    TopXor(a, b);
    LeftXor(a, b);
    TopValue(a);
    TopValue(b);
    XorSelf(0);
    XorSelf(0x8000);
  }

  lemma XorPairs(a: Register, b: Register, c: Register, d: Register)
    ensures Xor(Xor(a, b), Xor(c, d)) == Xor(Xor(a, c), Xor(b, d))
  {
    hide Xor;
    XorAssoc(a, b, Xor(c, d));
    XorAssoc(b, c, d);
    XorComm(b, c);
    XorAssoc(c, b, d);
    XorAssoc(a, c, Xor(b, d));
  }

  lemma XorCancel(r: Register, a: Register, b: Register)
    requires Xor(r, a) == Xor(r, b)
    ensures a == b
  {
    hide Xor;
    XorAssoc(r, r, a);
    XorAssoc(r, r, b);
    XorSelf(r);
    XorSelf(a);
    XorSelf(b);
  }

  /** One shift is linear over GF(2). */
  lemma ShiftLinear(a: Register, b: Register)
    ensures Shift(Xor(a, b)) == Xor(Shift(a), Shift(b))
  {
    hide Xor, HasTop, Left;
    XorTop(a, b);
    XorSelf(Left(a));
    XorSelf(Left(b));
    XorSelf(Left(Xor(a, b)));
    XorSelf(POLY);
    var p := if HasTop(a) then POLY else 0;
    var q := if HasTop(b) then POLY else 0;
    XorSelf(p);
    XorSelf(q);
    XorPairs(Left(a), p, Left(b), q);
  }

  lemma ShiftKernel(a: Register)
    ensures Shift(a) == 0 <==> a == 0
  {
  }

  /** One shift loses nothing: the polynomial's constant term is set. */
  lemma ShiftInjective(a: Register, b: Register)
    requires Shift(a) == Shift(b)
    ensures a == b
  {
    hide Xor, Shift;
    ShiftLinear(a, b);
    XorSelf(Shift(a));
    ShiftKernel(Xor(a, b));
    XorSelf(b);
    XorComm(a, b);
    XorCancel(b, a, b);
  }

  lemma {:induction false} ShiftsInjective(a: Register, b: Register, n: nat)
    requires Shifts(a, n) == Shifts(b, n)
    ensures a == b
    decreases n
  {
    hide Shift;
    if n > 0 {
      ShiftsInjective(Shift(a), Shift(b), n - 1);
      ShiftInjective(a, b);
    }
  }

  /** Feeding equal bits keeps two registers apart. */
  lemma {:induction false} FeedBitsInjective(a: Register, b: Register, bits: seq<bool>)
    requires FeedBits(a, bits) == FeedBits(b, bits)
    ensures a == b
    decreases |bits|
  {
    hide Shift, Xor, BitOf;
    if bits != [] {
      var m := BitOf(bits[0]);
      FeedBitsInjective(FeedBit(a, bits[0]), FeedBit(b, bits[0]), bits[1..]);
      ShiftInjective(Xor(a, m), Xor(b, m));
      XorComm(a, m);
      XorComm(b, m);
      XorCancel(m, a, b);
    }
  }

  // ---- up to sixteen bits may be loaded at once -------------------------------

  lemma PowValues()
    ensures Pow(0) == 0x1 && Pow(1) == 0x2 && Pow(2) == 0x4 && Pow(3) == 0x8
    ensures Pow(4) == 0x10 && Pow(5) == 0x20 && Pow(6) == 0x40 && Pow(7) == 0x80
    ensures Pow(8) == 0x100 && Pow(9) == 0x200 && Pow(10) == 0x400 && Pow(11) == 0x800
    ensures Pow(12) == 0x1000 && Pow(13) == 0x2000 && Pow(14) == 0x4000 && Pow(15) == 0x8000
  {
  }

  lemma ShiftPow(k: nat)
    requires k <= 14
    ensures !HasTop(Pow(k)) && Shift(Pow(k)) == Pow(k + 1)
  {
    PowValues();
  }

  lemma {:induction false} ShiftAligned(bits: seq<bool>, k: int)
    requires |bits| <= k + 1 <= 15
    ensures !HasTop(Aligned(bits, k))
    ensures Shift(Aligned(bits, k)) == Aligned(bits, k + 1)
    decreases |bits|
  {
    hide Shift, Pow, Xor, HasTop, Top;
    NoTopInZero();
    if bits != [] {
      var head := if bits[0] then Pow(k) else 0;
      var tail := Aligned(bits[1..], k - 1);
      ShiftPow(k);
      ShiftAligned(bits[1..], k - 1);
      ShiftLinear(head, tail);
      XorTop(head, tail);
    }
  }

  lemma NoTopInZero()
    ensures !HasTop(0) && Shift(0) == 0
    ensures HasTop(BitOf(true)) && !HasTop(BitOf(false))
    ensures Pow(15) == BitOf(true)
  {
    PowValues();
  }

  /** Feeding at most sixteen bits is loading them all and shifting. */
  lemma {:induction false} Preload(r: Register, bits: seq<bool>)
    requires |bits| <= 16
    ensures FeedBits(r, bits) == Shifts(Xor(r, Aligned(bits, 15)), |bits|)
    decreases |bits|
  {
    hide Shift, Pow, Xor, BitOf;
    if bits == [] {
      XorSelf(r);
    } else {
      AlignedHead(bits);
      var head, tail := BitOf(bits[0]), Aligned(bits[1..], 14);
      Preload(FeedBit(r, bits[0]), bits[1..]);
      ShiftAligned(bits[1..], 14);
      ShiftLinear(Xor(r, head), tail);
      XorAssoc(r, head, tail);
    }
  }

  lemma AlignedHead(bits: seq<bool>)
    requires 0 < |bits| <= 16
    ensures Aligned(bits, 15) == Xor(BitOf(bits[0]), Aligned(bits[1..], 14))
    ensures HasTop(Aligned(bits, 15)) <==> bits[0]
  {
    hide Shift, Pow, Xor, HasTop, Top;
    NoTopInZero();
    ShiftAligned(bits[1..], 14);
    XorTop(BitOf(bits[0]), Aligned(bits[1..], 14));
  }

  lemma {:induction false} AlignedInjective(a: seq<bool>, b: seq<bool>)
    requires |a| == |b| <= 16 && Aligned(a, 15) == Aligned(b, 15)
    ensures a == b
    decreases |a|
  {
    hide Shift, Pow, Xor, HasTop, Top, BitOf;
    if a != [] {
      AlignedHead(a);
      AlignedHead(b);
      XorCancel(BitOf(a[0]), Aligned(a[1..], 14), Aligned(b[1..], 14));
      ShiftAligned(a[1..], 14);
      ShiftAligned(b[1..], 14);
      AlignedInjective(a[1..], b[1..]);
      assert a == [a[0]] + a[1..] && b == [b[0]] + b[1..];
    }
  }

  lemma ShiftNoTop(r: Register)
    requires !HasTop(r)
    ensures Shift(r) == Left(r)
  {
  }

  lemma LeftEight(r: Register)
    ensures r << 8 == Left(Left(Left(Left(Left(Left(Left(Left(r))))))))
  {
  }

  lemma LeftAligned(m: seq<bool>, k: int)
    requires |m| <= k + 1 <= 15
    ensures Left(Aligned(m, k)) == Aligned(m, k + 1)
  {
    hide Shift, Aligned, HasTop, Left;
    ShiftAligned(m, k);
    ShiftNoTop(Aligned(m, k));
  }

  lemma AlignedByte(m: seq<bool>)
    requires |m| == 8
    ensures Aligned(m, 15) == Aligned(m, 7) << 8
  {
    hide Aligned, Left;
    LeftEight(Aligned(m, 7));
    LeftAligned(m, 7);
    LeftAligned(m, 8);
    LeftAligned(m, 9);
    LeftAligned(m, 10);
    LeftAligned(m, 11);
    LeftAligned(m, 12);
    LeftAligned(m, 13);
    LeftAligned(m, 14);
  }

  /** The byte-wise loop is the bit-serial one. */
  lemma FeedByteBits(r: Register, b: byte)
    ensures FeedByte(r, b) == FeedBits(r, BitsOf(b))
  {
    hide Shift, Xor, Aligned;
    Preload(r, BitsOf(b));
    AlignedByte(BitsOf(b));
  }

  lemma {:induction false} FeedBytesBits(r: Register, data: seq<byte>)
    ensures FeedBytes(r, data) == FeedBits(r, BitsOfAll(data))
    decreases |data|
  {
    hide FeedByte, FeedBit;
    if data != [] {
      FeedByteBits(r, data[0]);
      FeedBytesBits(FeedByte(r, data[0]), data[1..]);
      FeedBitsAppend(r, BitsOf(data[0]), BitsOfAll(data[1..]));
    }
  }

  // ---- burst errors ---------------------------------------------------------------

  lemma {:induction false} LowBitsInjective(x: nat, y: nat, n: nat)
    requires LowBits(x, n) == LowBits(y, n) && x < Two(n) && y < Two(n)
    ensures x == y
    decreases n
  {
    if n > 0 {
      var a, b := LowBits(x / 2, n - 1), LowBits(y / 2, n - 1);
      assert LowBits(x, n)[n - 1] == (x % 2 == 1) && LowBits(y, n)[n - 1] == (y % 2 == 1);
      assert a == LowBits(x, n)[..n - 1] && b == LowBits(y, n)[..n - 1];
      LowBitsInjective(x / 2, y / 2, n - 1);
    }
  }

  function Two(n: nat): (p: nat) {
    if n == 0 then 1 else 2 * Two(n - 1)
  }

  lemma {:induction false} BitsOfAllInjective(a: seq<byte>, b: seq<byte>)
    requires |a| == |b| && BitsOfAll(a) == BitsOfAll(b)
    ensures a == b
    decreases |a|
  {
    if a != [] {
      var m, n := BitsOf(a[0]), BitsOf(b[0]);
      assert m == BitsOfAll(a)[..8] && n == BitsOfAll(b)[..8];
      assert BitsOfAll(a[1..]) == BitsOfAll(a)[8..] && BitsOfAll(b[1..]) == BitsOfAll(b)[8..];
      LowBitsInjective(a[0], b[0], 8);
      BitsOfAllInjective(a[1..], b[1..]);
      assert a == [a[0]] + a[1..] && b == [b[0]] + b[1..];
    }
  }

  /** The two bit strings agree outside the sixteen positions from `k`. */
  ghost predicate BurstAt(x: seq<bool>, y: seq<bool>, k: nat) {
    |x| == |y| && forall i :: 0 <= i < |x| && !(k <= i < k + 16) ==> x[i] == y[i]
  }

  lemma WindowInjective(r: Register, u: seq<bool>, v: seq<bool>)
    requires |u| == |v| <= 16 && FeedBits(r, u) == FeedBits(r, v)
    ensures u == v
  {
    hide FeedBits, Xor, Aligned, Shifts;
    Preload(r, u);
    Preload(r, v);
    ShiftsInjective(Xor(r, Aligned(u, 15)), Xor(r, Aligned(v, 15)), |u|);
    XorCancel(r, Aligned(u, 15), Aligned(v, 15));
    AlignedInjective(u, v);
  }

  lemma Split<T>(x: seq<T>, k: nat, e: nat)
    requires k <= e <= |x|
    ensures x == x[..k] + (x[k..e] + x[e..])
  {
  }

  lemma BurstParts(x: seq<bool>, y: seq<bool>, k: nat, e: nat)
    requires BurstAt(x, y, k) && k <= e <= |x| && (e == k + 16 || e == |x| <= k + 16)
    ensures x[..k] == y[..k] && x[e..] == y[e..]
  {
  }

  lemma BitBurst(r: Register, x: seq<bool>, y: seq<bool>, k: nat)
    requires k <= |x| && BurstAt(x, y, k) && FeedBits(r, x) == FeedBits(r, y)
    ensures x == y
  {
    hide FeedBits;
    var e := if k + 16 <= |x| then k + 16 else |x|;
    BurstParts(x, y, k, e);
    Split(x, k, e);
    Split(y, k, e);
    hide BurstAt;
    var u, v, z := x[k..e], y[k..e], x[e..];
    var s := FeedBits(r, x[..k]);
    FeedBitsAppend(r, x[..k], u + z);
    FeedBitsAppend(r, x[..k], v + z);
    FeedBitsAppend(s, u, z);
    FeedBitsAppend(s, v, z);
    FeedBitsInjective(FeedBits(s, u), FeedBits(s, v), z);
    WindowInjective(s, u, v);
  }

  /** Two different payloads of one length whose difference spans at most sixteen
      consecutive bits never share a CRC. */
  lemma BurstDetected(a: seq<byte>, b: seq<byte>, k: nat)
    requires |a| == |b| && a != b && k <= 8 * |a| && BurstAt(BitsOfAll(a), BitsOfAll(b), k)
    ensures Crc(a) != Crc(b)
  {
    hide FeedBytes, FeedBits;
    FeedBytesBits(INIT, a);
    FeedBytesBits(INIT, b);
    if Crc(a) == Crc(b) {
      BitBurst(INIT, BitsOfAll(a), BitsOfAll(b), k);
      BitsOfAllInjective(a, b);
    }
  }

  lemma {:induction false} BitsOfAllAppend(a: seq<byte>, b: seq<byte>)
    ensures BitsOfAll(a + b) == BitsOfAll(a) + BitsOfAll(b)
    decreases |a|
  {
    if a == [] {
      assert a + b == b;
    } else {
      assert (a + b)[0] == a[0] && (a + b)[1..] == a[1..] + b;
      BitsOfAllAppend(a[1..], b);
    }
  }

  lemma BitsOfAllMiddle(a: seq<byte>, x: byte, b: seq<byte>)
    ensures BitsOfAll(a + ([x] + b)) == BitsOfAll(a) + (BitsOf(x) + BitsOfAll(b))
  {
    BitsOfAllAppend(a, [x] + b);
    assert ([x] + b)[1..] == b;
  }

  /** Changing any one byte of a payload changes its CRC. */
  lemma ByteChangeDetected(a: seq<byte>, k: nat, v: byte)
    requires k < |a| && a[k] != v
    ensures Crc(a[k := v]) != Crc(a)
  {
    var x, y := a[..k], a[k + 1..];
    assert a == x + ([a[k]] + y) && a[k := v] == x + ([v] + y);
    BitsOfAllMiddle(x, a[k], y);
    BitsOfAllMiddle(x, v, y);
    SameEnds(BitsOfAll(x), BitsOf(a[k]), BitsOf(v), BitsOfAll(y));
    BurstDetected(a, a[k := v], 8 * k);
  }

  lemma SameEnds(p: seq<bool>, u: seq<bool>, v: seq<bool>, q: seq<bool>)
    requires |u| == |v| <= 16
    ensures BurstAt(p + (u + q), p + (v + q), |p|)
  {
  }

  // ---- the register computes a polynomial remainder ---------------------------------

  function XorBits(p: seq<bool>, q: seq<bool>): (x: seq<bool>)
    requires |q| <= |p|
    ensures |x| == |p|
  {
    seq(|p|, i requires 0 <= i < |p| => if i < |q| then p[i] != q[i] else p[i])
  }

  function Zeros(n: nat): (z: seq<bool>)
    ensures |z| == n
  {
    seq(n, _ => false)
  }

  // x^16 + x^12 + x^5 + 1 without its leading term.
  const GENERATOR: seq<bool> :=
    [false, false, false, true, false, false, false, false,
     false, false, true, false, false, false, false, true]

  /** Schoolbook long division over GF(2): the remainder of the polynomial whose
      coefficients are `p`, highest first. */
  function Remainder(p: seq<bool>): (r: seq<bool>)
    ensures |r| == if |p| <= 16 then |p| else 16
    decreases |p|
  {
    if |p| <= 16 then p
    else Remainder(if p[0] then XorBits(p[1..], GENERATOR) else p[1..])
  }

  function Masked(r: Register, m: Register): (x: Register) {
    r & m
  }

  predicate Bit(r: Register, k: nat) {
    Masked(r, Pow(k)) != 0
  }

  /** The coefficients a register holds. */
  function Coefficients(r: Register): (c: seq<bool>)
    ensures |c| == 16
  {
    seq(16, i requires 0 <= i < 16 => Bit(r, 15 - i))
  }

  lemma MaskXor(a: Register, b: Register, m: Register)
    ensures Masked(Xor(a, b), m) == Xor(Masked(a, m), Masked(b, m))
  {
  }

  lemma MaskLeft(a: Register, m: Register)
    ensures Masked(Left(a), Left(m)) == Left(Masked(a, m))
    ensures Masked(Left(a), 1) == 0
  {
  }

  lemma MaskValue(r: Register, k: nat)
    requires k <= 15
    ensures Masked(r, Pow(k)) == 0 || Masked(r, Pow(k)) == Pow(k)
    ensures Pow(k) != 0
  {
    PowValues();
  }

  lemma BitXor(a: Register, b: Register, k: nat)
    requires k <= 15
    ensures Bit(Xor(a, b), k) <==> Bit(a, k) != Bit(b, k)
  {
    hide Xor, Masked, Pow;
    MaskXor(a, b, Pow(k));
    MaskValue(a, k);
    MaskValue(b, k);
    XorSelf(0);
    XorSelf(Pow(k));
  }

  lemma BitLeft(r: Register, k: nat)
    requires k <= 15
    ensures Bit(Left(r), k) <==> k > 0 && Bit(r, k - 1)
  {
    hide Masked, Pow, Left;
    PowSteps(k);
    if k == 0 {
      MaskLeft(r, 1);
    } else {
      MaskLeft(r, Pow(k - 1));
      MaskValue(r, k - 1);
      MaskValue(r, k);
    }
  }

  lemma PowSteps(k: nat)
    ensures Pow(k) == if k == 0 then 1 else Left(Pow(k - 1))
    ensures Left(0) == 0
  {
  }

  lemma BitConstants(k: nat)
    requires k <= 15
    ensures Bit(POLY, k) <==> k in {12, 5, 0}
    ensures Bit(0x8000, k) <==> k == 15
    ensures !Bit(0, k)
  {
    PowValues();
  }

  lemma TopIsBit(r: Register)
    ensures HasTop(r) <==> Bit(r, 15)
  {
    PowValues();
  }

  /** Feeding one bit is one step of the division. */
  lemma CoefficientsFed(r: Register, b: bool)
    ensures Coefficients(FeedBit(r, b)) ==
      var tail := Coefficients(r)[1..] + [false];
      if Coefficients(r)[0] != b then XorBits(tail, GENERATOR) else tail
  {
    hide Xor, Left, HasTop, Bit, BitOf;
    var s := Xor(r, BitOf(b));
    BitOfValue(b);
    TopIsBit(s);
    forall k: nat | k <= 15
      ensures Bit(FeedBit(r, b), k) <==>
        (k > 0 && Bit(r, k - 1)) != ((Bit(r, 15) != b) && k in {12, 5, 0})
    {
      BitConstants(k);
      BitXor(Left(s), POLY, k);
      BitLeft(s, k);
      if k > 0 {
        BitXor(r, BitOf(b), k - 1);
        BitConstants(k - 1);
      }
      BitXor(r, BitOf(b), 15);
      BitConstants(15);
    }
  }

  lemma BitOfValue(b: bool)
    ensures BitOf(b) == if b then 0x8000 else 0
  {
  }

  /** Register `r` about to be fed `m` stands for the polynomial m * x^16 with `r` added
      at its top; feeding leaves that polynomial's remainder. */
  lemma {:induction false} FedIsRemainder(r: Register, m: seq<bool>)
    ensures Coefficients(FeedBits(r, m)) == Remainder(XorBits(m + Zeros(16), Coefficients(r)))
    decreases |m|
  {
    hide FeedBit, Coefficients;
    var p := XorBits(m + Zeros(16), Coefficients(r));
    if m == [] {
      assert p == Coefficients(r);
    } else {
      CoefficientsFed(r, m[0]);
      var tail := Coefficients(r)[1..] + [false];
      var rest := m[1..] + Zeros(16);
      assert p[1..] == XorBits(rest, tail);
      assert XorBits(XorBits(rest, tail), GENERATOR) == XorBits(rest, XorBits(tail, GENERATOR));
      FedIsRemainder(FeedBit(r, m[0]), m[1..]);
    }
  }

  /** The CRC is the remainder of the message times x^16, its first sixteen coefficients
      inverted, divided by x^16 + x^12 + x^5 + 1. */
  lemma CrcIsRemainder(data: seq<byte>)
    ensures Coefficients(Crc(data)) ==
            Remainder(XorBits(BitsOfAll(data) + Zeros(16), seq(16, _ => true)))
  {
    hide FeedBytes, FeedBits, Remainder, XorBits;
    FeedBytesBits(INIT, data);
    FedIsRemainder(INIT, BitsOfAll(data));
    AllOnes();
  }

  lemma AllOnes()
    ensures Coefficients(INIT) == seq(16, _ => true)
  {
    PowValues();
  }

  // ---- the register is affine in what it is fed -------------------------------------

  /** Feeding the sum of two bit strings to the sum of two registers gives the sum. */
  lemma {:induction false} FeedBitsLinear(r: Register, s: Register, x: seq<bool>, y: seq<bool>)
    requires |x| == |y|
    ensures FeedBits(Xor(r, s), XorBits(x, y)) == Xor(FeedBits(r, x), FeedBits(s, y))
    decreases |x|
  {
    hide Shift, Xor, BitOf;
    if x != [] {
      var b, c := BitOf(x[0]), BitOf(y[0]);
      XorPairs(r, s, b, c);
      BitOfXor(x[0], y[0]);
      ShiftLinear(Xor(r, b), Xor(s, c));
      FeedBitsLinear(FeedBit(r, x[0]), FeedBit(s, y[0]), x[1..], y[1..]);
      assert XorBits(x, y)[1..] == XorBits(x[1..], y[1..]);
    }
  }

  lemma BitOfXor(b: bool, c: bool)
    ensures Xor(BitOf(b), BitOf(c)) == BitOf(b != c)
  {
    XorSelf(0x8000);
    XorSelf(0);
  }

  // ---- the register as two bytes ------------------------------------------------------

  function ValueOf(bits: seq<bool>): (x: nat)
    ensures x < Two(|bits|)
    decreases |bits|
  {
    if bits == [] then 0
    else 2 * ValueOf(bits[..|bits| - 1]) + if bits[|bits| - 1] then 1 else 0
  }

  lemma {:induction false} ValueOfBits(bits: seq<bool>)
    ensures LowBits(ValueOf(bits), |bits|) == bits
    decreases |bits|
  {
    if bits != [] {
      ValueOfBits(bits[..|bits| - 1]);
    }
  }

  lemma {:induction false} BitsOfValue(x: nat, n: nat)
    requires x < Two(n)
    ensures ValueOf(LowBits(x, n)) == x
    decreases n
  {
    if n > 0 {
      BitsOfValue(x / 2, n - 1);
      assert LowBits(x, n)[..n - 1] == LowBits(x / 2, n - 1);
    }
  }

  // crc & 0xFF and crc >> 8, as the bytes they are stored in.
  function LowByte(r: Register): (b: byte) {
    assert Two(8) == 256;
    ValueOf(Coefficients(r)[8..])
  }

  function HighByte(r: Register): (b: byte) {
    assert Two(8) == 256;
    ValueOf(Coefficients(r)[..8])
  }

  function Or(a: Register, b: Register): (x: Register) {
    a | b
  }

  /** The register read back from its two bytes. */
  function FromBytes(low: byte, high: byte): (r: Register) {
    Or(Word(low), Word(high) << 8)
  }

  lemma MaskOr(a: Register, b: Register, m: Register)
    ensures Masked(Or(a, b), m) == Or(Masked(a, m), Masked(b, m))
  {
  }

  lemma OrSelf(a: Register)
    ensures Or(a, a) == a && Or(a, 0) == a && Or(0, a) == a
  {
  }

  lemma BitOr(a: Register, b: Register, k: nat)
    requires k <= 15
    ensures Bit(Or(a, b), k) <==> Bit(a, k) || Bit(b, k)
  {
    hide Or, Masked, Pow;
    MaskOr(a, b, Pow(k));
    MaskValue(a, k);
    MaskValue(b, k);
    OrSelf(0);
    OrSelf(Pow(k));
  }

  lemma BitPow(j: nat, k: nat)
    requires j <= 15 && k <= 15
    ensures Bit(Pow(j), k) <==> j == k
  {
    PowValues();
  }

  lemma {:induction false} BitAligned(m: seq<bool>, k: int, j: nat)
    requires |m| <= k + 1 <= 16 && j <= 15
    ensures Bit(Aligned(m, k), j) <==> k - |m| < j <= k && m[k - j]
    decreases |m|
  {
    hide Bit, Pow, Xor;
    BitConstants(j);
    if m != [] {
      BitPow(k, j);
      BitXor(if m[0] then Pow(k) else 0, Aligned(m[1..], k - 1), j);
      BitAligned(m[1..], k - 1, j);
    }
  }

  lemma CoefficientsFromBytes(low: byte, high: byte)
    ensures Coefficients(FromBytes(low, high)) == BitsOf(high) + BitsOf(low)
  {
    hide Bit, Or, Aligned;
    AlignedByte(BitsOf(high));
    forall i | 0 <= i < 16
      ensures Bit(FromBytes(low, high), 15 - i) == (BitsOf(high) + BitsOf(low))[i]
    {
      BitOr(Word(low), Word(high) << 8, 15 - i);
      BitAligned(BitsOf(low), 7, 15 - i);
      BitAligned(BitsOf(high), 15, 15 - i);
    }
  }

  lemma NoBits(x: Register)
    requires forall k :: 0 <= k <= 15 ==> !Bit(x, k)
    ensures x == 0
  {
    PowValues();
    assert !Bit(x, 0) && !Bit(x, 1) && !Bit(x, 2) && !Bit(x, 3);
    assert !Bit(x, 4) && !Bit(x, 5) && !Bit(x, 6) && !Bit(x, 7);
    assert !Bit(x, 8) && !Bit(x, 9) && !Bit(x, 10) && !Bit(x, 11);
    assert !Bit(x, 12) && !Bit(x, 13) && !Bit(x, 14) && !Bit(x, 15);
  }

  lemma CoefficientsInjective(a: Register, b: Register)
    requires Coefficients(a) == Coefficients(b)
    ensures a == b
  {
    hide Bit, Xor;
    forall k | 0 <= k <= 15 ensures !Bit(Xor(a, b), k) {
      assert Coefficients(a)[15 - k] == Coefficients(b)[15 - k];
      BitXor(a, b, k);
    }
    NoBits(Xor(a, b));
    XorSelf(b);
    XorComm(a, b);
    XorCancel(b, a, b);
  }

  /** Two received bytes give back a register exactly when they are the ones stored. */
  lemma StoredBytes(r: Register, low: byte, high: byte)
    ensures FromBytes(low, high) == r <==> low == LowByte(r) && high == HighByte(r)
  {
    hide Coefficients, FromBytes, LowBits;
    assert Two(8) == 256;
    var c := Coefficients(r);
    assert c == c[..8] + c[8..];
    CoefficientsFromBytes(low, high);
    CoefficientsFromBytes(LowByte(r), HighByte(r));
    ValueOfBits(c[..8]);
    ValueOfBits(c[8..]);
    BitsOfValue(low, 8);
    BitsOfValue(high, 8);
    CoefficientsInjective(FromBytes(LowByte(r), HighByte(r)), r);
  }
}
