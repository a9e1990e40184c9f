// 64-bit words, C integer widths, and little-endian memory.
//
// A register holds a number 0 <= w < 2^64. A C value is a mathematical integer;
// `Conv` is the C conversion to an integer type and `Enc` is the value
// extended to all 64 bits, which is what the code generator promises rax holds.

module Words {

  const W64: int := 0x1_0000_0000_0000_0000

  type Word = w: int | 0 <= w < 0x1_0000_0000_0000_0000
  type Byte = b: int | 0 <= b < 256
  /** Program memory; the identity map leaves the top half of the address space out. */
  type Mem = m: seq<Byte> | |m| < 0x8000_0000_0000_0000

  datatype Width = B1 | B2 | B4 | B8 {
    /** 2 to the number of bits. */
    function Mod(): int {
      match this
      case B1 => 0x100
      case B2 => 0x1_0000
      case B4 => 0x1_0000_0000
      case B8 => 0x1_0000_0000_0000_0000
    }

    function Bytes(): nat {
      match this
      case B1 => 1
      case B2 => 2
      case B4 => 4
      case B8 => 8
    }
  }

  function Signed(r: int, m: int): int {
    if r < m / 2 then r else r - m
  }

  /** C11 section 6.3.1.3: conversion of `v` to a type of width `w`. */
  function Conv(v: int, w: Width, uns: bool): int {
    var r := v % w.Mod();
    if uns then r else Signed(r, w.Mod())
  }

  predicate Fits(v: int, w: Width, uns: bool) {
    if uns then 0 <= v < w.Mod() else -(w.Mod() / 2) <= v < w.Mod() / 2
  }

  /** The value sign- or zero-extended to 64 bits. */
  function Enc(v: int): Word {
    v % 0x1_0000_0000_0000_0000
  }

  /** The modulus of a 64-bit (`wide`) or 32-bit instruction. */
  function OpMod(wide: bool): int {
    if wide then 0x1_0000_0000_0000_0000 else 0x1_0000_0000
  }

  function OpBits(wide: bool): nat {
    if wide then 64 else 32
  }

  lemma ConvFits(v: int, w: Width, uns: bool)
    ensures Fits(Conv(v, w, uns), w, uns)
    ensures Conv(v, w, uns) % w.Mod() == v % w.Mod()
  {
  }

  lemma ConvOfFitting(v: int, w: Width, uns: bool)
    requires Fits(v, w, uns)
    ensures Conv(v, w, uns) == v
  {
  }

  lemma ConvCong(u: int, v: int, w: Width, uns: bool)
    requires u % w.Mod() == v % w.Mod()
    ensures Conv(u, w, uns) == Conv(v, w, uns)
  {
  }

  /** The low bits of the 64-bit encoding are the low bits of the value. */
  lemma EncLow(v: int, w: Width)
    ensures Enc(v) % w.Mod() == v % w.Mod()
  {
    var m := w.Mod();
    var k, q := W64 / m, v / W64;
    assert Enc(v) == v + m * -(k * q) by {
      assert v == W64 * q + v % W64 && W64 == m * k;
      assert W64 * q == m * (k * q);
    }
    AddMultiple(v, -(k * q), m);
  }

  lemma EncLowOp(v: int, wide: bool)
    ensures Enc(v) % OpMod(wide) == v % OpMod(wide)
  {
    EncLow(v, if wide then B8 else B4);
  }

  lemma ConvEnc(v: int, w: Width, uns: bool)
    ensures Conv(Enc(v), w, uns) == Conv(v, w, uns)
  {
    EncLow(v, w);
  }

  /** A fitting value is recovered from the low half an instruction reads. */
  lemma DecodeFits(v: int, w: Width, uns: bool, wide: bool)
    requires Fits(v, w, uns) && (w == B8 ==> wide)
    ensures uns ==> Enc(v) % OpMod(wide) == v
    ensures !uns ==> Signed(Enc(v) % OpMod(wide), OpMod(wide)) == v
  {
    EncLowOp(v, wide);
  }

  lemma EncZero(v: int, w: Width, uns: bool)
    requires Fits(v, w, uns)
    ensures Enc(v) == 0 <==> v == 0
  {
  }

  lemma EncInjective(u: int, v: int, w: Width, uns: bool)
    requires Fits(u, w, uns) && Fits(v, w, uns) && Enc(u) == Enc(v)
    ensures u == v
  {
  }

  // ---- powers of two, bitwise operators and division -------------------

  function Pow2(n: nat): (p: int)
    ensures p >= 1
  {
    if n == 0 then 1 else 2 * Pow2(n - 1)
  }


  datatype BitOp = And | Or | Xor

  function OneBit(op: BitOp, a: int, b: int): int {
    match op
    case And => if a == 1 && b == 1 then 1 else 0
    case Or => if a == 1 || b == 1 then 1 else 0
    case Xor => if a != b then 1 else 0
  }

  /** The bitwise operator on the low `n` bits of two representations. */
  function Bitwise(op: BitOp, a: nat, b: nat, n: nat): nat {
    if n == 0 then 0
    else OneBit(op, a % 2, b % 2) + 2 * Bitwise(op, a / 2, b / 2, n - 1)
  }

  /** Division that truncates toward zero (C11 section 6.5.5). */
  function TDiv(a: int, b: int): int
    requires b != 0
  {
    if a >= 0 then (if b > 0 then a / b else -(a / -b))
    else (if b > 0 then -(-a / b) else -a / -b)
  }

  function TMod(a: int, b: int): int
    requires b != 0
  {
    a - b * TDiv(a, b)
  }

  lemma MulMod(x: int, y: int, a: int, b: int, m: int)
    requires m > 0 && x % m == a % m && y % m == b % m
    ensures (x * y) % m == (a * b) % m
  {
    var p, q := x / m - a / m, y / m - b / m;
    assert x == a + m * p && y == b + m * q by {
      assert x == m * (x / m) + x % m && a == m * (a / m) + a % m;
      assert y == m * (y / m) + y % m && b == m * (b / m) + b % m;
    }
    var k := a * q + p * b + m * p * q;
    assert x * y == a * b + m * k;
    AddMultiple(a * b, k, m);
  }

  lemma AddMultiple(a: int, k: int, m: int)
    requires m > 0
    ensures (a + m * k) % m == a % m
  {
    var r := (a + m * k) % m;
    var q := (a + m * k) / m - k - a / m;
    assert r == a % m - m * q;
    assert q >= 1 ==> m * q >= m;
    assert q <= -1 ==> m * q <= -m;
  }

  // ---- little-endian memory ---------------------------------------------

  function LoadLE(mem: Mem, a: nat, n: nat): nat
    requires a + n <= |mem|
    decreases n
  {
    if n == 0 then 0 else mem[a] + 256 * LoadLE(mem, a + 1, n - 1)
  }

  function StoreLE(mem: Mem, a: nat, v: int, n: nat): (r: Mem)
    requires a + n <= |mem|
    ensures |r| == |mem|
    decreases n
  {
    if n == 0 then mem else StoreLE(mem[a := v % 256], a + 1, v / 256, n - 1)
  }

  function Pow256(n: nat): (p: int)
    ensures p >= 1
  {
    if n == 0 then 1 else 256 * Pow256(n - 1)
  }

  lemma {:induction false} StoreShift(mem: Mem, a: nat, u: int, q: int, n: nat)
    requires a + n <= |mem|
    ensures StoreLE(mem, a, u + q * Pow256(n), n) == StoreLE(mem, a, u, n)
    decreases n
  {
    if n > 0 {
      var t := q * Pow256(n - 1);
      assert q * Pow256(n) == 256 * t;
      assert (u + 256 * t) % 256 == u % 256 && (u + 256 * t) / 256 == u / 256 + t;
      StoreShift(mem[a := u % 256], a + 1, u / 256, q, n - 1);
    }
  }

  lemma Pow256Eight()
    ensures Pow256(8) == 0x1_0000_0000_0000_0000
  {
    assert Pow256(4) == 0x1_0000_0000;
  }

  lemma {:induction false} Pow256Add(m: nat, n: nat)
    ensures Pow256(m + n) == Pow256(m) * Pow256(n)
  {
    if m > 0 {
      Pow256Add(m - 1, n);
    }
  }

  /** Storing a register's low bytes stores the value it encodes. */
  lemma StoreEnc(mem: Mem, a: nat, v: int, n: nat)
    requires a + n <= |mem| && n <= 8
    ensures StoreLE(mem, a, Enc(v), n) == StoreLE(mem, a, v, n)
  {
    var q := v / 0x1_0000_0000_0000_0000;
    Pow256Eight();
    Pow256Add(n, 8 - n);
    var p := q * Pow256(8 - n);
    assert v == Enc(v) + p * Pow256(n);
    StoreShift(mem, a, Enc(v), p, n);
  }

  lemma {:induction false} StoreElsewhere(mem: Mem, a: nat, v: int, n: nat, i: nat)
    requires a + n <= |mem| && i < |mem| && !(a <= i < a + n)
    ensures StoreLE(mem, a, v, n)[i] == mem[i]
    decreases n
  {
    if n > 0 {
      StoreElsewhere(mem[a := v % 256], a + 1, v / 256, n - 1, i);
    }
  }

  lemma {:induction false} LoadCong(m1: Mem, m2: Mem, a: nat, n: nat)
    requires a + n <= |m1| && a + n <= |m2|
    requires forall i :: a <= i < a + n ==> m1[i] == m2[i]
    ensures LoadLE(m1, a, n) == LoadLE(m2, a, n)
    decreases n
  {
    if n > 0 {
      LoadCong(m1, m2, a + 1, n - 1);
    }
  }

  /** What a store of `n` bytes leaves behind is the value modulo 2^(8n). */
  lemma {:induction false} LoadStore(mem: Mem, a: nat, v: int, n: nat)
    requires a + n <= |mem|
    ensures LoadLE(StoreLE(mem, a, v, n), a, n) == v % Pow256(n)
    decreases n
  {
    if n > 0 {
      var mem1 := mem[a := v % 256];
      LoadStore(mem1, a + 1, v / 256, n - 1);
      StoreElsewhere(mem1, a + 1, v / 256, n - 1, a);
      ModSplit(v, Pow256(n - 1));
    }
  }

  lemma ModSplit(v: int, p: int)
    requires p >= 1
    ensures v % (256 * p) == v % 256 + 256 * ((v / 256) % p)
  {
    var x := v % 256 + 256 * ((v / 256) % p);
    var k := (v / 256) / p;
    assert v / 256 == p * k + (v / 256) % p;
    assert v == x + (256 * p) * k;
    AddMultiple(x, k, 256 * p);
    assert 0 <= x < 256 * p;
    SmallMod(x, 256 * p);
  }

  lemma SmallMod(x: int, m: int)
    requires 0 <= x < m
    ensures x % m == x
  {
  }
}
