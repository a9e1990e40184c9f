// What C's operators give, said without the functions that compute them: sums and
// products up to a multiple of the type's range, quotients toward zero, bit by bit;
// and that the trees the parser builds for operators mean just that.

module COps {
  import opened Basics
  import opened Words
  import opened Division
  import opened CTree
  import opened CTypes
  import CUpdate

  // ---- conversions -----------------------------------------------------------------------------

  /** `v` is `x` converted to `t`: a value of `t` that differs from `x` by a multiple
      of the number of values `t` has. */
  predicate Is(v: int, x: int, t: Ty) { t.Int? && Fits(v, t.w, t.uns) && (x - v) % t.w.Mod() == 0 }

  lemma IsUnique(u: int, v: int, x: int, t: Ty)
    requires Is(u, x, t) && Is(v, x, t)
    ensures u == v
  {
    var m := t.w.Mod();
    var p, q := (x - u) / m, (x - v) / m;
    assert x - u == m * p && x - v == m * q;
    assert u - v == m * (q - p);
    MulGap(m, q - p);
  }

  lemma AsIs(x: int, t: Ty)
    requires t.Int?
    ensures Is(As(x, t), x, t)
  {
    hide Conv;
    var m := t.w.Mod();
    ConvFits(x, t.w, t.uns);
    SameRest(x, Conv(x, t.w, t.uns), m);
  }

  lemma SameRest(x: int, y: int, m: int)
    requires m > 0 && x % m == y % m
    ensures (x - y) % m == 0
  {
    var k := x / m - y / m;
    assert x == m * (x / m) + x % m && y == m * (y / m) + y % m;
    assert x - y == 0 + m * k;
    AddMultiple(0, k, m);
  }

  /** What fits stays as it is. */
  lemma FittingIs(v: int, x: int, t: Ty)
    requires Is(v, x, t) && Fits(x, t.w, t.uns)
    ensures v == x
  {
    assert (x - x) % t.w.Mod() == 0;
    IsUnique(v, x, x, t);
  }

  lemma HeldIs(v: int, x: int, t: Ty, u: Ty)
    requires Is(v, x, t) && u.Int? && Holds(t, u) && Fits(x, u.w, u.uns)
    ensures v == x
  {
    FittingIs(v, x, t);
  }

  /** Numbers that differ by a multiple of the range convert to the same value. */
  lemma IsShifted(v: int, x: int, y: int, t: Ty)
    requires Is(v, x, t) && (x - y) % t.w.Mod() == 0
    ensures Is(v, y, t)
  {
    var m := t.w.Mod();
    var p, q := (x - v) / m, (x - y) / m;
    assert x - v == m * p && x - y == m * q;
    assert y - v == 0 + m * (p - q);
    AddMultiple(0, p - q, m);
  }

  // ---- powers of two and bits --------------------------------------------------------------------

  lemma {:induction false} Pow2Adds(m: nat, n: nat)
    ensures Pow2(m + n) == Pow2(m) * Pow2(n)
  {
    if m > 0 {
      Pow2Adds(m - 1, n);
    }
  }

  lemma Pow2Values()
    ensures Pow2(0) == 1 && Pow2(1) == 2 && Pow2(8) == 0x100 && Pow2(16) == 0x1_0000
    ensures Pow2(32) == 0x1_0000_0000 && Pow2(64) == 0x1_0000_0000_0000_0000
  {
    assert Pow2(4) == 16;
    Pow2Adds(4, 4);
    Pow2Adds(8, 8);
    Pow2Adds(16, 16);
    Pow2Adds(32, 32);
  }

  /** Bit `i` of a number, negative ones in two's complement. */
  function Bit(x: int, i: nat): int { x / Pow2(i) % 2 }

  lemma HalfDiv(x: int, p: int)
    requires p >= 1
    ensures x / (2 * p) == x / 2 / p && x % (2 * p) == x % 2 + 2 * (x / 2 % p)
  {
    var q, r := x / 2 / p, x / 2 % p;
    assert x / 2 == p * q + r;
    assert x == 2 * p * q + (x % 2 + 2 * r);
    DivIs(x, 2 * p, q, x % 2 + 2 * r);
  }

  lemma BitNext(x: int, i: nat)
    ensures Bit(x, 0) == x % 2 && Bit(x, i + 1) == Bit(x / 2, i)
  {
    HalfDiv(x, Pow2(i));
  }

  lemma {:induction false} BitLow(x: int, n: nat, i: nat)
    requires i < n
    ensures Bit(x % Pow2(n), i) == Bit(x, i)
    decreases i
  {
    hide Bit;
    var p := Pow2(n - 1);
    HalfDiv(x, p);
    var low := x % Pow2(n);
    assert low % 2 == x % 2 && low / 2 == x / 2 % p;
    if i > 0 {
      BitLow(x / 2, n - 1, i - 1);
      BitNext(x, i - 1);
      BitNext(low, i - 1);
    } else {
      BitNext(x, 0);
      BitNext(low, 0);
    }
  }

  /** The truth tables. */
  predicate Joins(op: BitOp, p: bool, q: bool) {
    match op
    case And => p && q
    case Or => p || q
    case Xor => p != q
  }

  lemma {:induction false} BitwiseAt(op: BitOp, a: nat, b: nat, n: nat, i: nat)
    requires i < n
    ensures Bit(Bitwise(op, a, b, n), i) == 1 <==> Joins(op, Bit(a, i) == 1, Bit(b, i) == 1)
    decreases i
  {
    hide Bit, Bitwise;
    var v := Bitwise(op, a, b, n);
    LowBit(op, a, b, n);
    if i > 0 {
      BitwiseAt(op, a / 2, b / 2, n - 1, i - 1);
      BitNext(v, i - 1);
      BitNext(a, i - 1);
      BitNext(b, i - 1);
    } else {
      BitNext(v, 0);
      BitNext(a, 0);
      BitNext(b, 0);
    }
  }

  lemma LowBit(op: BitOp, a: nat, b: nat, n: nat)
    requires n > 0
    ensures var v := Bitwise(op, a, b, n);
            && (v % 2 == 1 <==> Joins(op, a % 2 == 1, b % 2 == 1))
            && v / 2 == Bitwise(op, a / 2, b / 2, n - 1)
  {
    var low, high := OneBit(op, a % 2, b % 2), Bitwise(op, a / 2, b / 2, n - 1);
    hide Bitwise;
    Parity(low + 2 * high, low, high);
  }

  lemma Parity(v: int, low: int, high: int)
    requires v == low + 2 * high && 0 <= low < 2
    ensures v % 2 == low && v / 2 == high
  {
  }

  function Bits(t: Ty): nat
    requires t.Int?
  {
    8 * t.w.Bytes()
  }

  lemma BitsMod(t: Ty)
    requires t.Int?
    ensures Pow2(Bits(t)) == t.w.Mod() && Bits(t) <= OpBits(Wide(t)) && Pow2(OpBits(Wide(t))) == OpMod(Wide(t))
  {
    hide Pow2;
    Pow2Values();
  }

  /** `v` has, at each place of the type, the bit that `op` makes of those of `x`
      and `y`. */
  ghost predicate Bitten(op: BitOp, t: Ty, x: int, y: int, v: int)
    requires t.Int?
  {
    forall i :: 0 <= i < Bits(t) ==> (Bit(v, i) == 1 <==> Joins(op, Bit(x, i) == 1, Bit(y, i) == 1))
  }

  lemma BitwiseIs(op: BitOp, t: Ty, x: int, y: int)
    requires t.Int?
    ensures Bitten(op, t, x, y, BinVal(BinOp.Bit(op), t, x, y))
  {
    hide Bit, Pow2, Bitwise, Conv;
    BitsMod(t);
    var m, n := OpMod(Wide(t)), OpBits(Wide(t));
    var z := Bitwise(op, x % m, y % m, n);
    var v := BinVal(BinOp.Bit(op), t, x, y);
    ConvFits(z, t.w, t.uns);
    forall i | 0 <= i < Bits(t)
      ensures Bit(v, i) == 1 <==> Joins(op, Bit(x, i) == 1, Bit(y, i) == 1)
    {
      BitwiseAt(op, x % m, y % m, n, i);
      BitLow(x, n, i);
      BitLow(y, n, i);
      BitLow(v, Bits(t), i);
      BitLow(z, Bits(t), i);
    }
  }

  // ---- laws of the bitwise operators ---------------------------------------------------------------

  lemma {:induction false} AndMasks(a: nat, k: nat, n: nat)
    requires k <= n
    ensures Bitwise(And, a, Pow2(k) - 1, n) == a % Pow2(k)
    decreases n
  {
    if k > 0 {
      var p := Pow2(k - 1);
      HalfDiv(a, p);
      assert (2 * p - 1) % 2 == 1 && (2 * p - 1) / 2 == p - 1;
      AndMasks(a / 2, k - 1, n - 1);
    } else {
      AndNothing(a, n);
    }
  }

  lemma {:induction false} AndNothing(a: nat, n: nat)
    ensures Bitwise(And, a, 0, n) == 0
    decreases n
  {
    if n > 0 {
      AndNothing(a / 2, n - 1);
    }
  }

  lemma {:induction false} AndOr(a: nat, b: nat, n: nat)
    ensures Bitwise(And, a, b, n) + Bitwise(Or, a, b, n) == a % Pow2(n) + b % Pow2(n)
    ensures Bitwise(Xor, a, b, n) == Bitwise(Or, a, b, n) - Bitwise(And, a, b, n)
    decreases n
  {
    if n > 0 {
      AndOr(a / 2, b / 2, n - 1);
      HalfDiv(a, Pow2(n - 1));
      HalfDiv(b, Pow2(n - 1));
    }
  }

  lemma {:induction false} BitwiseSmall(op: BitOp, a: nat, b: nat, n: nat)
    ensures Bitwise(op, a, b, n) < Pow2(n)
    decreases n
  {
    if n > 0 {
      BitwiseSmall(op, a / 2, b / 2, n - 1);
    }
  }

  lemma RestOfRest(x: int, k: nat, n: nat)
    requires k <= n
    ensures x % Pow2(n) % Pow2(k) == x % Pow2(k)
  {
    hide Pow2;
    Pow2Adds(k, n - k);
    RestTwice(x, Pow2(k), Pow2(n - k));
  }

  lemma RestTwice(x: int, p: int, q: int)
    requires p >= 1 && q >= 1
    ensures p * q >= 1 && x % (p * q) % p == x % p
  {
    MulGap(p, q);
    var s, t := x / (p * q), x % (p * q);
    DivSplit(x, p * q);
    var u := q * s;
    assert p * q * s == p * u by {
      Associate(p, q, s);
    }
    assert p * -u == -(p * u);
    assert t == x + p * -u;
    AddMultiple(x, -u, p);
  }

  lemma Associate(p: int, q: int, s: int)
    ensures p * q * s == p * (q * s)
  {
  }

  /** `x & (2^k - 1)` is what is left of x after whole multiples of 2^k. */
  lemma MaskGives(t: Ty, x: int, k: nat)
    requires t.Int? && k < Bits(t)
    ensures BinVal(BinOp.Bit(And), t, x, Pow2(k) - 1) == x % Pow2(k)
  {
    hide Pow2, Bitwise, Conv;
    BitsMod(t);
    var m, n := OpMod(Wide(t)), OpBits(Wide(t));
    PowLess(k, Bits(t));
    PowLess(k, n);
    AndMasks(x % m, k, n);
    RestOfRest(x, k, n);
    var r := x % Pow2(k);
    assert Fits(r, t.w, t.uns);
    ConvOfFitting(r, t.w, t.uns);
  }

  lemma PowLess(k: nat, n: nat)
    requires k < n
    ensures 2 * Pow2(k) <= Pow2(n)
  {
    Pow2Adds(k + 1, n - k - 1);
    assert Pow2(k + 1) == 2 * Pow2(k);
    assert Pow2(k + 1) * Pow2(n - k - 1) >= Pow2(k + 1);
  }

  /** A value is its representation, less the whole range if its top bit is set. */
  lemma TopBit(r: int, n: nat)
    requires n > 0 && 0 <= r < Pow2(n)
    ensures Bit(r, n - 1) == if r < Pow2(n) / 2 then 0 else 1
  {
    var p := Pow2(n - 1);
    DivIs(r, p, if r < p then 0 else 1, if r < p then r else r - p);
  }

  /** What `x` is, from its representation `r`. */
  lemma FromRest(x: int, t: Ty, r: int)
    requires t.Int? && r == x % t.w.Mod()
    ensures Conv(r, t.w, t.uns) == r - (if !t.uns && r >= t.w.Mod() / 2 then t.w.Mod() else 0)
    ensures Fits(x, t.w, t.uns) ==> x == Conv(r, t.w, t.uns)
  {
  }

  /** And, or and exclusive or of values of a type add up as they should. */
  lemma AndOrGive(t: Ty, x: int, y: int)
    requires t.Int? && (t.w == B4 || t.w == B8) && Fits(x, t.w, t.uns) && Fits(y, t.w, t.uns)
    ensures var a, o := BinVal(BinOp.Bit(And), t, x, y), BinVal(BinOp.Bit(Or), t, x, y);
            a + o == x + y && BinVal(BinOp.Bit(Xor), t, x, y) == o - a
  {
    hide Pow2, Bitwise, Bit, Conv;
    BitsMod(t);
    var m, n := t.w.Mod(), Bits(t);
    var p, q := x % m, y % m;
    var a, o := Bitwise(And, p, q, n), Bitwise(Or, p, q, n);
    AndOrRest(p, q, n);
    FromRest(x, t, p);
    FromRest(y, t, q);
    SmallMod(a, m);
    SmallMod(o, m);
    FromRest(a, t, a);
    FromRest(o, t, o);
    SmallMod(o - a, m);
    FromRest(o - a, t, o - a);
  }

  lemma AndOrRest(p: nat, q: nat, n: nat)
    requires n > 0 && p < Pow2(n) && q < Pow2(n)
    ensures var a, o, h := Bitwise(And, p, q, n), Bitwise(Or, p, q, n), Pow2(n) / 2;
            && a + o == p + q && Bitwise(Xor, p, q, n) == o - a && a < Pow2(n) && o < Pow2(n)
            && (a >= h <==> p >= h && q >= h) && (o >= h <==> p >= h || q >= h)
            && 0 <= o - a < Pow2(n) && (o - a >= h <==> (p >= h) != (q >= h))
  {
    hide Pow2, Bitwise, Bit;
    var a, o := Bitwise(And, p, q, n), Bitwise(Or, p, q, n);
    AndOr(p, q, n);
    SmallMod(p, Pow2(n));
    SmallMod(q, Pow2(n));
    BitwiseSmall(And, p, q, n);
    BitwiseSmall(Or, p, q, n);
    BitwiseSmall(Xor, p, q, n);
    BitwiseAt(And, p, q, n, n - 1);
    BitwiseAt(Or, p, q, n, n - 1);
    BitwiseAt(Xor, p, q, n, n - 1);
    TopBit(Bitwise(Xor, p, q, n), n);
    TopBit(a, n);
    TopBit(o, n);
    TopBit(p, n);
    TopBit(q, n);
  }

  // ---- division traps ------------------------------------------------------------------------------

  /** Division traps on zero, and on the one quotient the type does not have. */
  lemma TrapsIff(op: BinOp, t: Ty, a: int, b: int)
    requires t.Int? && (t.w == B4 || t.w == B8) && Fits(a, t.w, t.uns) && Fits(b, t.w, t.uns)
    ensures BinTraps(op, t, a, b) <==>
            (op.Div? || op.Mod?) && (b == 0 || (!t.uns && a == Lowest(t) && b == -1))
  {
    if (op.Div? || op.Mod?) && b != 0 && !t.uns {
      hide TDiv;
      TDivIs(a, b);
      TDivSmall(a, b);
    }
  }

  // ---- what an operator gives ------------------------------------------------------------------------

  /** `v` is what `op` makes of `a` and `b`, all of type `t`. */
  ghost predicate Gives(op: BinOp, t: Ty, a: int, b: int, v: int)
    requires t.Int?
  {
    && Fits(v, t.w, t.uns)
    && match op
       case Add => Is(v, a + b, t)
       case Sub => Is(v, a - b, t)
       case Mul => Is(v, a * b, t)
       case Div => Truncated(v, a, b)
       case Mod => Remainder(v, a, b)
       case Bit(o) => Bitten(o, t, a, b, v)
       case Shl => Is(v, a * Pow2(b % OpBits(Wide(t))), t)
       case Shr => v * Pow2(b % OpBits(Wide(t))) <= a < (v + 1) * Pow2(b % OpBits(Wide(t)))
  }

  lemma BinGives(op: BinOp, t: Ty, a: int, b: int)
    requires t.Int? && (t.w == B4 || t.w == B8) && Fits(a, t.w, t.uns) && Fits(b, t.w, t.uns)
    requires !BinTraps(op, t, a, b)
    ensures Gives(op, t, a, b, BinVal(op, t, a, b))
  {
    hide Is, Bitten, Truncated, Remainder, Pow2, Conv, TDiv, TMod, Bitwise;
    BinFits(op, t, a, b);
    var k := b % OpBits(Wide(t));
    match op
    case Add => AsIs(a + b, t);
    case Sub => AsIs(a - b, t);
    case Mul => AsIs(a * b, t);
    case Div =>
      TDivIs(a, b);
      DivFits(t, a, b);
      ConvOfFitting(TDiv(a, b), t.w, t.uns);
    case Mod =>
      TDivIs(a, b);
      DivFits(t, a, b);
      ConvOfFitting(TMod(a, b), t.w, t.uns);
    case Bit(o) => BitwiseIs(o, t, a, b);
    case Shl => AsIs(a * Pow2(k), t);
    case Shr =>
      FloorFits(a, Pow2(k));
      ConvOfFitting(a / Pow2(k), t.w, t.uns);
  }

  lemma DivFits(t: Ty, a: int, b: int)
    requires t.Int? && (t.w == B4 || t.w == B8) && Fits(a, t.w, t.uns) && Fits(b, t.w, t.uns) && b != 0
    requires !BinTraps(BinOp.Div, t, a, b)
    ensures Fits(TDiv(a, b), t.w, t.uns) && Fits(TMod(a, b), t.w, t.uns)
  {
    hide TDiv, TMod, Truncated, Remainder;
    TDivIs(a, b);
    RestSmall(TMod(a, b), a, b);
    TDivSmall(a, b);
  }

  // ---- what the parser's trees mean ------------------------------------------------------------------
  // The right operand is evaluated first, then the left one; `a` and `b` are what
  // they gave, converted.

  /** The operands' outcomes in the order they are evaluated, the second one from
      where the first left off; the first that fails is the outcome. */
  function First(w: World, r: Expr, fp: int, sp: int, mem: Mem, fuel: nat): Out<int> { EvalE(w, r, fp, sp, mem, fuel) }

  function Then(w: World, y: Out<int>, l: Expr, fp: int, sp: int): Out<int> {
    if y.Ok? then EvalE(w, l, fp, sp, y.mem, y.fuel) else y
  }

  /** `l op r` at the common type of C's rules. */
  lemma ArithMeans(w: World, op: BinOp, l: Expr, r: Expr, fp: int, sp: int, mem: Mem, fuel: nat, a: int, b: int)
    requires WellTyped(w, l) && WellTyped(w, r) && ETy(l).Int? && ETy(r).Int?
    ensures var ct := Usual(ETy(l), ETy(r));
            var y := First(w, r, fp, sp, mem, fuel);
            var x := Then(w, y, l, fp, sp - 8);
            var v := EvalE(w, ArithTree(op, l, r), fp, sp, mem, fuel);
            if !x.Ok? then v == x
            else Is(a, x.v, ct) && Is(b, y.v, ct) ==>
                   if (op.Div? || op.Mod?) && (b == 0 || (!ct.uns && a == Lowest(ct) && b == -1)) then v.Trap?
                   else v.Ok? && v.mem == x.mem && v.fuel == x.fuel && Gives(op, ct, a, b, v.v)
  {
    hide EvalE, Is, Gives, Common, BinVal, BinTraps, As, WellTyped, ETy, Lowest, Usual;
    var ct := Common(ETy(l), ETy(r));
    CommonIsUsual(ETy(l), ETy(r));
    CommonWide(ETy(l), ETy(r));
    BinOpens(w, op, ct, Cast(ct, l), Cast(ct, r), fp, sp, mem, fuel);
    CastOpens(w, ct, r, fp, sp, mem, fuel);
    var y := First(w, r, fp, sp, mem, fuel);
    if y.Ok? {
      CastOpens(w, ct, l, fp, sp - 8, y.mem, y.fuel);
      var x := Then(w, y, l, fp, sp - 8);
      if x.Ok? && Is(a, x.v, ct) && Is(b, y.v, ct) {
        AsIs(x.v, ct);
        AsIs(y.v, ct);
        IsUnique(a, As(x.v, ct), x.v, ct);
        IsUnique(b, As(y.v, ct), y.v, ct);
        IsFits(a, x.v, ct);
        IsFits(b, y.v, ct);
        TrapsIff(op, ct, a, b);
        if !BinTraps(op, ct, a, b) {
          BinGives(op, ct, a, b);
        }
      }
    }
  }

  lemma IsFits(a: int, x: int, t: Ty)
    requires Is(a, x, t)
    ensures Fits(a, t.w, t.uns)
  {
  }

  lemma BinOpens(w: World, op: BinOp, t: Ty, l: Expr, r: Expr, fp: int, sp: int, mem: Mem, fuel: nat)
    requires t.Int?
    ensures var y := EvalE(w, r, fp, sp, mem, fuel);
            var x := if y.Ok? then EvalE(w, l, fp, sp - 8, y.mem, y.fuel) else y;
            EvalE(w, Bin(op, t, l, r), fp, sp, mem, fuel) ==
            if !x.Ok? then x else if BinTraps(op, t, x.v, y.v) then Trap
            else Ok(BinVal(op, t, x.v, y.v), x.mem, x.fuel)
  {
    hide BinTraps, BinVal;
  }

  lemma CastOpens(w: World, t: Ty, e: Expr, fp: int, sp: int, mem: Mem, fuel: nat)
    ensures var x := EvalE(w, e, fp, sp, mem, fuel);
            EvalE(w, Cast(t, e), fp, sp, mem, fuel) == if x.Ok? then Ok(As(x.v, t), x.mem, x.fuel) else x
  {
    hide As;
  }

  /** So where the common type has every value of both operands' types, it is the
      numbers themselves that are put together. */
  lemma ArithNumbers(w: World, op: BinOp, l: Expr, r: Expr, fp: int, sp: int, mem: Mem, fuel: nat)
    requires WellTyped(w, l) && WellTyped(w, r) && ETy(l).Int? && ETy(r).Int?
    requires var ct := Usual(ETy(l), ETy(r)); Holds(ct, ETy(l)) && Holds(ct, ETy(r))
    ensures var ct := Usual(ETy(l), ETy(r));
            var y := First(w, r, fp, sp, mem, fuel);
            var x := Then(w, y, l, fp, sp - 8);
            var v := EvalE(w, ArithTree(op, l, r), fp, sp, mem, fuel);
            x.Ok? && v.Ok? ==>
              && Gives(op, ct, x.v, y.v, v.v)
              && (op.Add? && Fits(x.v + y.v, ct.w, ct.uns) ==> v.v == x.v + y.v)
              && (op.Sub? && Fits(x.v - y.v, ct.w, ct.uns) ==> v.v == x.v - y.v)
              && (op.Mul? && Fits(x.v * y.v, ct.w, ct.uns) ==> v.v == x.v * y.v)
  {
    hide EvalE, WellTyped, ETy, ArithTree, Usual, Lowest, Highest, Bitten, Truncated, Remainder, Pow2, Is;
    var ct := Usual(ETy(l), ETy(r));
    var y := First(w, r, fp, sp, mem, fuel);
    var x := Then(w, y, l, fp, sp - 8);
    var v := EvalE(w, ArithTree(op, l, r), fp, sp, mem, fuel);
    if x.Ok? && v.Ok? {
      EvalFits(w, r, fp, sp, mem, fuel);
      EvalFits(w, l, fp, sp - 8, y.mem, y.fuel);
      SelfIs(x.v, ct, ETy(l));
      SelfIs(y.v, ct, ETy(r));
      ArithMeans(w, op, l, r, fp, sp, mem, fuel, x.v, y.v);
      if op.Add? && Fits(x.v + y.v, ct.w, ct.uns) {
        FittingIs(v.v, x.v + y.v, ct);
      }
      if op.Sub? && Fits(x.v - y.v, ct.w, ct.uns) {
        FittingIs(v.v, x.v - y.v, ct);
      }
      if op.Mul? && Fits(x.v * y.v, ct.w, ct.uns) {
        FittingIs(v.v, x.v * y.v, ct);
      }
    }
  }

  lemma SelfIs(x: int, t: Ty, u: Ty)
    requires t.Int? && u.Int? && Holds(t, u) && Fits(x, u.w, u.uns)
    ensures Is(x, x, t)
  {
    assert (x - x) % t.w.Mod() == 0;
  }

  predicate Compares(op: CmpOp, a: int, b: int) {
    match op
    case Eq => a == b
    case Ne => a != b
    case Lt => a < b
    case Le => a <= b
  }

  /** A comparison gives 1 or 0 as the operands compare at their common type; where
      that has both types' values, as the numbers do. */
  lemma CompareMeans(w: World, op: CmpOp, l: Expr, r: Expr, fp: int, sp: int, mem: Mem, fuel: nat, a: int, b: int)
    requires WellTyped(w, l) && WellTyped(w, r) && ETy(l).Int? && ETy(r).Int?
    ensures var ct := Usual(ETy(l), ETy(r));
            var y := First(w, r, fp, sp, mem, fuel);
            var x := Then(w, y, l, fp, sp - 8);
            var v := EvalE(w, CompareTree(op, l, r), fp, sp, mem, fuel);
            if !x.Ok? then v == x
            else
              && (Is(a, x.v, ct) && Is(b, y.v, ct) ==> v == Ok(if Compares(op, a, b) then 1 else 0, x.mem, x.fuel))
              && (Holds(ct, ETy(l)) && Holds(ct, ETy(r)) ==>
                    v == Ok(if Compares(op, x.v, y.v) then 1 else 0, x.mem, x.fuel))
  {
    hide EvalE, Is, Common, As, WellTyped, ETy, Usual, Holds;
    var ct := Common(ETy(l), ETy(r));
    CommonIsUsual(ETy(l), ETy(r));
    CmpOpens(w, op, Cast(ct, l), Cast(ct, r), fp, sp, mem, fuel);
    CastOpens(w, ct, r, fp, sp, mem, fuel);
    var y := First(w, r, fp, sp, mem, fuel);
    if y.Ok? {
      CastOpens(w, ct, l, fp, sp - 8, y.mem, y.fuel);
      var x := Then(w, y, l, fp, sp - 8);
      if x.Ok? {
        AsIs(x.v, ct);
        AsIs(y.v, ct);
        if Is(a, x.v, ct) && Is(b, y.v, ct) {
          IsUnique(a, As(x.v, ct), x.v, ct);
          IsUnique(b, As(y.v, ct), y.v, ct);
        }
        if Holds(ct, ETy(l)) && Holds(ct, ETy(r)) {
          EvalFits(w, r, fp, sp, mem, fuel);
          EvalFits(w, l, fp, sp - 8, y.mem, y.fuel);
          HeldIs(As(x.v, ct), x.v, ct, ETy(l));
          HeldIs(As(y.v, ct), y.v, ct, ETy(r));
        }
      }
    }
  }

  lemma CmpOpens(w: World, op: CmpOp, l: Expr, r: Expr, fp: int, sp: int, mem: Mem, fuel: nat)
    ensures var y := EvalE(w, r, fp, sp, mem, fuel);
            var x := if y.Ok? then EvalE(w, l, fp, sp - 8, y.mem, y.fuel) else y;
            EvalE(w, Cmp(op, l, r), fp, sp, mem, fuel) ==
            if !x.Ok? then x else Ok(if Compares(op, x.v, y.v) then 1 else 0, x.mem, x.fuel)
  {
  }

  /** `v` is `x` times 2^k, or divided by it and rounded down. */
  predicate Shifted(right: bool, t: Ty, x: int, k: nat, v: int) {
    if right then v * Pow2(k) <= x < (v + 1) * Pow2(k) else Is(v, x * Pow2(k), t)
  }

  /** A shift by a count inside the width: times or divided by that power of two,
      at the promoted type of the left operand. */
  lemma ShiftMeans(w: World, right: bool, l: Expr, r: Expr, fp: int, sp: int, mem: Mem, fuel: nat)
    requires WellTyped(w, l) && WellTyped(w, r) && ETy(l).Int? && ETy(r).Int?
    ensures var t := Promoted(ETy(l));
            var y := First(w, r, fp, sp, mem, fuel);
            var x := Then(w, y, l, fp, sp - 8);
            var v := EvalE(w, ShiftTree(right, l, r), fp, sp, mem, fuel);
            if !x.Ok? then v == x
            else v.Ok? && v.mem == x.mem && v.fuel == x.fuel && Fits(v.v, t.w, t.uns)
                   && (0 <= y.v < Bits(t) ==> Shifted(right, t, x.v, y.v, v.v))
  {
    hide EvalE, Is, Gives, BinVal, BinTraps, As, WellTyped, ETy, Promoted, Shifted, Fits, Bits;
    var t := Promoted(ETy(l));
    PromotedIs(ETy(l));
    var op := if right then BinOp.Shr else BinOp.Shl;
    BinOpens(w, op, t, Cast(t, l), Cast(INT, r), fp, sp, mem, fuel);
    CastOpens(w, INT, r, fp, sp, mem, fuel);
    var y := First(w, r, fp, sp, mem, fuel);
    if y.Ok? {
      CastOpens(w, t, l, fp, sp - 8, y.mem, y.fuel);
      var x := Then(w, y, l, fp, sp - 8);
      if x.Ok? {
        EvalFits(w, l, fp, sp - 8, y.mem, y.fuel);
        ShiftValue(right, ETy(l), x.v, y.v);
      }
    }
  }

  lemma ShiftValue(right: bool, lt: Ty, x: int, y: int)
    requires lt.Int? && Fits(x, lt.w, lt.uns)
    ensures var t, op := Promoted(lt), if right then BinOp.Shr else BinOp.Shl;
            && !BinTraps(op, t, As(x, t), As(y, INT))
            && var v := BinVal(op, t, As(x, t), As(y, INT));
               Fits(v, t.w, t.uns) && (0 <= y < Bits(t) ==> Shifted(right, t, x, y, v))
  {
    hide BinVal, As, Promoted, Shifted, Fits, Bits, Is, Holds;
    var t, op := Promoted(lt), if right then BinOp.Shr else BinOp.Shl;
    PromotedHolds(lt);
    AsIs(x, t);
    HeldIs(As(x, t), x, t, lt);
    var c := As(y, INT);
    BinFits(op, t, x, c);
    if 0 <= y < Bits(t) {
      AsIs(y, INT);
      CountFits(y, t);
      FittingIs(c, y, INT);
      IsFits(As(x, t), x, t);
      ShiftGives(right, t, x, y);
    }
  }

  lemma PromotedHolds(t: Ty)
    requires t.Int?
    ensures var p := Promoted(t); (p.w == B4 || p.w == B8) && Holds(p, t) && OpBits(Wide(p)) == Bits(p)
  {
  }

  lemma CountFits(k: int, t: Ty)
    requires t.Int? && 0 <= k < Bits(t)
    ensures Fits(k, INT.w, INT.uns)
  {
  }

  lemma ShiftGives(right: bool, t: Ty, a: int, k: int)
    requires t.Int? && Fits(a, t.w, t.uns) && 0 <= k < OpBits(Wide(t))
    ensures var v := BinVal(if right then BinOp.Shr else BinOp.Shl, t, a, k);
            Shifted(right, t, a, k, v)
  {
    hide Is, Pow2, Conv;
    SmallMod(k, OpBits(Wide(t)));
    if right {
      FloorFits(a, Pow2(k));
      ConvOfFitting(a / Pow2(k), t.w, t.uns);
    } else {
      AsIs(a * Pow2(k), t);
    }
  }

  // ---- pointers --------------------------------------------------------------------------------------

  /** `p + i` and `p - i`: the address moves by i things of `size` bytes, around the
      end of the address space. */
  lemma StepMeans(w: World, down: bool, p: Expr, i: Expr, size: int, fp: int, sp: int, mem: Mem, fuel: nat)
    requires WellTyped(w, p) && WellTyped(w, i) && ETy(p) == PTR && ETy(i).Int? && 0 < size < 0x8000_0000
    ensures var y := First(w, i, fp, sp - 8, mem, fuel);
            var x := Then(w, y, p, fp, sp - 8);
            var v := EvalE(w, StepTree(down, p, i, size), fp, sp, mem, fuel);
            if !x.Ok? then v == x
            else v.Ok? && v.mem == x.mem && v.fuel == x.fuel
                   && Is(v.v, if down then x.v - y.v * size else x.v + y.v * size, PTR)
  {
    hide EvalE, Is, BinVal, BinTraps, As, WellTyped, ETy;
    var op := if down then BinOp.Sub else BinOp.Add;
    var scaled := Bin(BinOp.Mul, LONG, Cast(LONG, i), Num(LONG, size));
    BinOpens(w, op, PTR, p, scaled, fp, sp, mem, fuel);
    BinOpens(w, BinOp.Mul, LONG, Cast(LONG, i), Num(LONG, size), fp, sp, mem, fuel);
    NumOpens(w, LONG, size, fp, sp, mem, fuel);
    CastOpens(w, LONG, i, fp, sp - 8, mem, fuel);
    assert !BinTraps(BinOp.Mul, LONG, 0, 0) by {
      NoTrap(BinOp.Mul, LONG, 0, 0);
    }
    var y := First(w, i, fp, sp - 8, mem, fuel);
    if y.Ok? {
      var c := As(y.v, LONG);
      NoTrap(BinOp.Mul, LONG, c, size);
      var m := BinVal(BinOp.Mul, LONG, c, size);
      var x := Then(w, y, p, fp, sp - 8);
      if x.Ok? {
        NoTrap(op, PTR, x.v, m);
        AsIs(y.v, LONG);
        ProductIs(c, size);
        SumIs(op, x.v, m);
        Moves(down, x.v, y.v, size, c, m, BinVal(op, PTR, x.v, m));
      }
    }
  }

  lemma NumOpens(w: World, t: Ty, v: int, fp: int, sp: int, mem: Mem, fuel: nat)
    ensures EvalE(w, Num(t, v), fp, sp, mem, fuel) == Ok(v, mem, fuel)
  {
  }

  lemma NoTrap(op: BinOp, t: Ty, x: int, y: int)
    requires t.Int? && !op.Div? && !op.Mod?
    ensures !BinTraps(op, t, x, y)
  {
  }

  lemma ProductIs(c: int, size: int)
    ensures Is(BinVal(BinOp.Mul, LONG, c, size), c * size, LONG)
  {
    hide Is;
    AsIs(c * size, LONG);
  }

  lemma SumIs(op: BinOp, x: int, m: int)
    requires op.Add? || op.Sub?
    ensures Is(BinVal(op, PTR, x, m), if op.Sub? then x - m else x + m, PTR)
  {
    hide Is;
    AsIs(if op.Sub? then x - m else x + m, PTR);
  }

  lemma Moves(down: bool, x: int, y: int, size: int, c: int, m: int, v: int)
    requires Is(c, y, LONG) && Is(m, c * size, LONG) && Is(v, if down then x - m else x + m, PTR)
    ensures Is(v, if down then x - y * size else x + y * size, PTR)
  {
    var r := PTR.w.Mod();
    var j, k := (y - c) / r, (c * size - m) / r;
    DivSplit(y - c, r);
    DivSplit(c * size - m, r);
    assert y * size == c * size + r * (j * size) by {
      assert (c + r * j) * size == c * size + r * j * size;
      Associate(r, j, size);
    }
    var d := k + j * size;
    assert y * size - m == r * d;
    AddMultiple(0, d, r);
    AddMultiple(0, -d, r);
    Signs(d, r);
    IsShifted(v, if down then x - m else x + m, if down then x - y * size else x + y * size, PTR);
  }

  /** `p - q` counts the things between them. */
  lemma DistanceMeans(w: World, p: Expr, q: Expr, size: int, fp: int, sp: int, mem: Mem, fuel: nat, d: int)
    requires WellTyped(w, p) && WellTyped(w, q) && ETy(p) == PTR && ETy(q) == PTR && 0 < size < 0x8000_0000
    ensures var y := First(w, q, fp, sp - 8, mem, fuel);
            var x := Then(w, y, p, fp, sp - 16);
            var v := EvalE(w, DistanceTree(p, q, size), fp, sp, mem, fuel);
            if !x.Ok? then v == x
            else v.Ok? && v.mem == x.mem && v.fuel == x.fuel
                   && (Is(d, x.v - y.v, LONG) ==> Truncated(v.v, d, size))
  {
    hide EvalE, Is, BinVal, BinTraps, As, WellTyped, ETy, Truncated;
    var gap := Bin(BinOp.Sub, LONG, p, q);
    BinOpens(w, BinOp.Div, LONG, gap, Num(LONG, size), fp, sp, mem, fuel);
    NumOpens(w, LONG, size, fp, sp, mem, fuel);
    BinOpens(w, BinOp.Sub, LONG, p, q, fp, sp - 8, mem, fuel);
    var y := First(w, q, fp, sp - 8, mem, fuel);
    if y.Ok? {
      var x := Then(w, y, p, fp, sp - 16);
      if x.Ok? {
        NoTrap(BinOp.Sub, LONG, x.v, y.v);
        var g := BinVal(BinOp.Sub, LONG, x.v, y.v);
        GapIs(x.v, y.v);
        IsFits(g, x.v - y.v, LONG);
        TrapsIff(BinOp.Div, LONG, g, size);
        BinGives(BinOp.Div, LONG, g, size);
        if Is(d, x.v - y.v, LONG) {
          IsUnique(d, g, x.v - y.v, LONG);
        }
      }
    }
  }

  lemma GapIs(x: int, y: int)
    ensures Is(BinVal(BinOp.Sub, LONG, x, y), x - y, LONG)
  {
    hide Is;
    AsIs(x - y, LONG);
  }

  // ---- compound assignment ---------------------------------------------------------------------------

  /** What `x op= y` stores: the operator at the common type and then converted to
      the type of the left side, nothing if that traps; a shift of the left side at its
      own type; a pointer moved by whole things. `a` and `b` are the operands, converted. */
  lemma UpdateGives(up: CUpdate.Up, ty: Ty, x: int, y: int, a: int, b: int) returns (v: int)
    requires ty.Int? && Fits(x, ty.w, ty.uns)
    requires up.Arith? ==> up.ct.Int? && (up.ct.w == B4 || up.ct.w == B8) && Is(a, x, up.ct) && Is(b, y, up.ct)
    requires up.Step? ==> ty == PTR
    ensures var r := CUpdate.Updated(up, ty, x, y);
            match up
            case Arith(op, ct) =>
              if (op.Div? || op.Mod?) && (b == 0 || (!ct.uns && a == Lowest(ct) && b == -1)) then r.None?
              else r.Some? && Gives(op, ct, a, b, v) && Is(r.value, v, ty)
            case Shift(right) => r.Some? && (0 <= y < OpBits(Wide(ty)) ==> Shifted(right, ty, x, y, r.value))
            case Step(down, size) => r.Some? && Is(r.value, if down then x - y * size else x + y * size, PTR)
  {
    hide Is, Gives, Shifted, BinVal, BinTraps, As, Lowest, Fits, Pow2, Bitten;
    v := 0;
    match up
    case Arith(op, ct) =>
      AsIs(x, ct);
      AsIs(y, ct);
      IsUnique(a, As(x, ct), x, ct);
      IsUnique(b, As(y, ct), y, ct);
      IsFits(a, x, ct);
      IsFits(b, y, ct);
      TrapsIff(op, ct, a, b);
      if !BinTraps(op, ct, a, b) {
        v := BinVal(op, ct, a, b);
        BinGives(op, ct, a, b);
        AsIs(v, ty);
      }
    case Shift(right) =>
      NoTrap(if right then BinOp.Shr else BinOp.Shl, ty, x, As(y, INT));
      if 0 <= y < OpBits(Wide(ty)) {
        AsIs(y, INT);
        SmallFits(y);
        FittingIs(As(y, INT), y, INT);
        ShiftGives(right, ty, x, y);
      }
    case Step(down, size) =>
      var op, c := if down then BinOp.Sub else BinOp.Add, As(y, LONG);
      NoTrap(BinOp.Mul, LONG, c, size);
      var m := BinVal(BinOp.Mul, LONG, c, size);
      NoTrap(op, PTR, x, m);
      AsIs(y, LONG);
      ProductIs(c, size);
      SumIs(op, x, m);
      var s := BinVal(op, PTR, x, m);
      IsFits(s, if down then x - m else x + m, PTR);
      AsIs(s, PTR);
      FittingIs(As(s, PTR), s, PTR);
      Moves(down, x, y, size, c, m, s);
  }

  lemma SmallFits(k: int)
    requires 0 <= k < 64
    ensures Fits(k, INT.w, INT.uns)
  {
  }

  // ---- bytes -----------------------------------------------------------------------------------------

  /** Byte `i` of what is stored at `a` is the value's digit `i` in base 256. */
  lemma {:induction false} StoredByte(mem: Mem, a: nat, v: int, n: nat, i: nat)
    requires a + n <= |mem| && i < n
    ensures StoreLE(mem, a, v, n)[a + i] == v / Pow256(i) % 256
    decreases n
  {
    if i == 0 {
      StoreElsewhere(mem[a := v % 256], a + 1, v / 256, n - 1, a);
    } else {
      StoredByte(mem[a := v % 256], a + 1, v / 256, n - 1, i - 1);
      ByteDiv(v, Pow256(i - 1));
    }
  }

  lemma ByteDiv(x: int, p: int)
    requires p >= 1
    ensures x / (256 * p) == x / 256 / p
  {
    var q, r := x / 256 / p, x / 256 % p;
    assert x / 256 == p * q + r;
    assert x == 256 * p * q + (x % 256 + 256 * r);
    DivIs(x, 256 * p, q, x % 256 + 256 * r);
  }

  /** And digit `i` of what is loaded is the byte there. */
  lemma {:induction false} LoadedByte(mem: Mem, a: nat, n: nat, i: nat)
    requires a + n <= |mem| && i < n
    ensures LoadLE(mem, a, n) / Pow256(i) % 256 == mem[a + i]
    decreases n
  {
    var rest := LoadLE(mem, a + 1, n - 1);
    var v := LoadLE(mem, a, n);
    assert v == mem[a] + 256 * rest;
    assert v % 256 == mem[a] && v / 256 == rest;
    if i > 0 {
      LoadedByte(mem, a + 1, n - 1, i - 1);
      ByteDiv(v, Pow256(i - 1));
    }
  }
}
