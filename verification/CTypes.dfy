// Conversions in the tree the parser builds: the usual arithmetic conversions,
// the operators' trees, and case labels.

module CTypes {
  import opened Words
  import opened CTree

  const UINT: Ty := Int(B4, true)

  // ---- the usual arithmetic conversions ---------------------------------------------------

  /** What the parser computes from sizes and signs alone. */
  function Common(a: Ty, b: Ty): (r: Ty)
    requires a.Int? && b.Int?
    ensures r.Int?
  {
    var a1 := if a.w.Bytes() < 4 then INT else a;
    var b1 := if b.w.Bytes() < 4 then INT else b;
    if a1.w.Bytes() != b1.w.Bytes() then (if a1.w.Bytes() > b1.w.Bytes() then a1 else b1)
    else if b1.uns then b1 else a1
  }

  function Lowest(t: Ty): int
    requires t.Int?
  {
    if t.uns then 0 else -(t.w.Mod() / 2)
  }

  function Highest(t: Ty): int
    requires t.Int?
  {
    if t.uns then t.w.Mod() - 1 else t.w.Mod() / 2 - 1
  }

  /** Every value of `u` is a value of `t`. */
  predicate Holds(t: Ty, u: Ty)
    requires t.Int? && u.Int?
  {
    Lowest(t) <= Lowest(u) && Highest(u) <= Highest(t)
  }

  function Rank(t: Ty): nat
    requires t.Int?
  {
    t.w.Bytes()
  }

  /** Section 6.3.1.1 of C11: what ranks no higher than int becomes int if int
      holds all its values, and unsigned int otherwise. */
  function Promoted(t: Ty): (r: Ty)
    requires t.Int?
    ensures r.Int?
  {
    if Rank(t) > Rank(INT) then t else if Holds(INT, t) then INT else UINT
  }

  /** Section 6.3.1.8 of C11. */
  function Usual(a: Ty, b: Ty): (r: Ty)
    requires a.Int? && b.Int?
    ensures r.Int?
  {
    var p, q := Promoted(a), Promoted(b);
    if p == q then p
    else if p.uns == q.uns then (if Rank(p) > Rank(q) then p else q)
    else
      var u, s := if p.uns then p else q, if p.uns then q else p;
      if Rank(u) >= Rank(s) then u
      else if Holds(s, u) then s
      else Int(s.w, true)
  }

  lemma CommonIsUsual(a: Ty, b: Ty)
    requires a.Int? && b.Int?
    ensures Common(a, b) == Usual(a, b)
  {
    PromotedIs(a);
    PromotedIs(b);
  }

  /** A conversion to a type that holds the old one changes nothing. */
  lemma HeldStays(v: int, t: Ty, u: Ty)
    requires t.Int? && u.Int? && Holds(t, u) && Fits(v, u.w, u.uns)
    ensures As(v, t) == v
  {
    ConvOfFitting(v, t.w, t.uns);
  }

  // ---- operators -----------------------------------------------------------------------------

  /** Both operands at the common type. */
  function ArithTree(op: BinOp, l: Expr, r: Expr): Expr
    requires ETy(l).Int? && ETy(r).Int?
  {
    var ct := Common(ETy(l), ETy(r));
    Bin(op, ct, Cast(ct, l), Cast(ct, r))
  }

  function CompareTree(op: CmpOp, l: Expr, r: Expr): Expr
    requires ETy(l).Int? && ETy(r).Int?
  {
    var ct := Common(ETy(l), ETy(r));
    Cmp(op, Cast(ct, l), Cast(ct, r))
  }

  /** The result has the promoted type of the left operand alone. */
  function ShiftTree(right: bool, l: Expr, r: Expr): Expr
    requires ETy(l).Int? && ETy(r).Int?
  {
    var lt := if ETy(l).w.Bytes() < 4 then INT else ETy(l);
    Bin(if right then Shr else Shl, lt, Cast(lt, l), Cast(INT, r))
  }

  /** `p + i` and `p - i`: `i` counts elements of `size` bytes. */
  function StepTree(down: bool, p: Expr, i: Expr, size: int): Expr {
    Bin(if down then Sub else Add, PTR, p, Bin(Mul, LONG, Cast(LONG, i), Num(LONG, size)))
  }

  /** `p - q` in elements. */
  function DistanceTree(p: Expr, q: Expr, size: int): Expr {
    Bin(Div, LONG, Bin(Sub, LONG, p, q), Num(LONG, size))
  }

  lemma TreesTyped(w: World, op: BinOp, cmp: CmpOp, right: bool, l: Expr, r: Expr)
    requires WellTyped(w, l) && WellTyped(w, r) && ETy(l).Int? && ETy(r).Int? && !op.Shl? && !op.Shr?
    ensures WellTyped(w, ArithTree(op, l, r)) && ETy(ArithTree(op, l, r)) == Usual(ETy(l), ETy(r))
    ensures WellTyped(w, CompareTree(cmp, l, r)) && ETy(CompareTree(cmp, l, r)) == INT
    ensures WellTyped(w, ShiftTree(right, l, r)) && ETy(ShiftTree(right, l, r)) == Promoted(ETy(l))
  {
    CommonIsUsual(ETy(l), ETy(r));
    PromotedIs(ETy(l));
  }

  lemma PromotedIs(t: Ty)
    requires t.Int?
    ensures Promoted(t) == if t.w.Bytes() < 4 then INT else t
  {
  }

  lemma PointerTreesTyped(w: World, down: bool, p: Expr, q: Expr, i: Expr, size: int)
    requires WellTyped(w, p) && WellTyped(w, q) && WellTyped(w, i) && ETy(p) == PTR && ETy(q) == PTR && ETy(i).Int?
    requires 0 < size < 0x8000_0000
    ensures WellTyped(w, StepTree(down, p, i, size)) && ETy(StepTree(down, p, i, size)) == PTR
    ensures WellTyped(w, DistanceTree(p, q, size)) && ETy(DistanceTree(p, q, size)) == LONG
  {
  }

  /** Where the common type holds both operands' types and the exact result, an
      operation gives the exact result. */
  lemma ArithExact(op: BinOp, a: Ty, b: Ty, x: int, y: int)
    requires a.Int? && b.Int? && Fits(x, a.w, a.uns) && Fits(y, b.w, b.uns) && Holds(Common(a, b), a)
    requires Holds(Common(a, b), b)
    requires op.Add? || op.Sub? || op.Mul? || ((op.Div? || op.Mod?) && y != 0)
    requires var ct := Common(a, b); var v := Exact(op, x, y);
             Fits(v, ct.w, ct.uns) && (op.Mod? ==> Fits(TDiv(x, y), ct.w, ct.uns))
    ensures var ct := Common(a, b);
            As(x, ct) == x && As(y, ct) == y && !BinTraps(op, ct, x, y) && BinVal(op, ct, x, y) == Exact(op, x, y)
  {
    hide TDiv, TMod, Bitwise, Pow2, Conv;
    var ct := Common(a, b);
    HeldStays(x, ct, a);
    HeldStays(y, ct, b);
    ConvOfFitting(Exact(op, x, y), ct.w, ct.uns);
    CommonWide(a, b);
  }

  lemma CommonWide(a: Ty, b: Ty)
    requires a.Int? && b.Int?
    ensures Common(a, b).w == B4 || Common(a, b).w == B8
  {
  }

  function Exact(op: BinOp, x: int, y: int): int
    requires op.Add? || op.Sub? || op.Mul? || ((op.Div? || op.Mod?) && y != 0)
  {
    match op
    case Add => x + y
    case Sub => x - y
    case Mul => x * y
    case Div => TDiv(x, y)
    case Mod => TMod(x, y)
  }

  /** Where the common type holds both operands' types, a comparison compares the
      numbers themselves. */
  lemma CompareExact(op: CmpOp, a: Ty, b: Ty, x: int, y: int)
    requires a.Int? && b.Int? && Fits(x, a.w, a.uns) && Fits(y, b.w, b.uns) && Holds(Common(a, b), a)
    requires Holds(Common(a, b), b)
    ensures CmpVal(op, As(x, Common(a, b)), As(y, Common(a, b))) == CmpVal(op, x, y)
  {
    HeldStays(x, Common(a, b), a);
    HeldStays(y, Common(a, b), b);
  }

  /** The narrow unsigned types: their difference can be negative, as in C. */
  lemma NarrowDifference(x: int, y: int)
    requires Fits(x, B1, true) && Fits(y, B1, true)
    ensures var a := Int(B1, true); Common(a, a) == INT && BinVal(Sub, INT, As(x, INT), As(y, INT)) == x - y
  {
    var a := Int(B1, true);
    ArithExact(Sub, a, a, x, y);
  }

  /** The common type fails to hold an operand's type exactly when one operand is
      signed and the common type is not. */
  lemma HoldsIff(a: Ty, b: Ty)
    requires a.Int? && b.Int?
    ensures Holds(Common(a, b), a) && Holds(Common(a, b), b) <==> !(Common(a, b).uns && (!a.uns || !b.uns))
  {
  }

  // ---- v++ ---------------------------------------------------------------------------------------

  /** What `v++` gives: the new value less one, at the common type with int. */
  function PostfixVal(t: Ty, up: bool, x: int): int
    requires t.Int?
  {
    var ct := Common(t, INT);
    var now := As(BinVal(if up then Add else Sub, ct, As(x, ct), 1), t);
    BinVal(if up then Sub else Add, ct, As(now, ct), 1)
  }

  /** The old value, except where a one- or two-byte variable wraps. */
  lemma PostfixIff(t: Ty, up: bool, x: int)
    requires t.Int? && Fits(x, t.w, t.uns)
    ensures PostfixVal(t, up, x) == x <==> !(t.w.Bytes() < 4 && x == if up then Highest(t) else Lowest(t))
  {
    match t.w
    case B1 => PostfixNarrow(t, up, x);
    case B2 => PostfixNarrow(t, up, x);
    case B4 => PostfixFull(t, up, x);
    case B8 => PostfixFull(t, up, x);
  }

  /** One step up or down, exact or wrapped to the type. */
  lemma StepVal(t: Ty, up: bool, x: int)
    requires t.Int?
    ensures !BinTraps(if up then Add else Sub, t, x, 1)
    ensures BinVal(if up then Add else Sub, t, x, 1) == Conv(if up then x + 1 else x - 1, t.w, t.uns)
  {
    hide Conv;
  }

  lemma PostfixNarrow(t: Ty, up: bool, x: int)
    requires t.Int? && Fits(x, t.w, t.uns) && (t.w == B1 || t.w == B2)
    ensures PostfixVal(t, up, x) == x <==> x != if up then Highest(t) else Lowest(t)
  {
    hide BinVal, BinTraps;
    assert Common(t, INT) == INT;
    var next := if up then x + 1 else x - 1;
    ConvOfFitting(x, B4, false);
    StepVal(INT, up, x);
    ConvOfFitting(next, B4, false);
    var now := Conv(next, t.w, t.uns);
    ConvFits(next, t.w, t.uns);
    ConvOfFitting(now, B4, false);
    StepVal(INT, !up, now);
    ConvOfFitting(if up then now - 1 else now + 1, B4, false);
    if Fits(next, t.w, t.uns) {
      ConvOfFitting(next, t.w, t.uns);
    }
  }

  lemma PostfixFull(t: Ty, up: bool, x: int)
    requires t.Int? && Fits(x, t.w, t.uns) && (t.w == B4 || t.w == B8)
    ensures PostfixVal(t, up, x) == x
  {
    hide BinVal, BinTraps, Conv;
    assert Common(t, INT) == t;
    var next := if up then x + 1 else x - 1;
    ConvOfFitting(x, t.w, t.uns);
    StepVal(t, up, x);
    var now := Conv(next, t.w, t.uns);
    ConvFits(next, t.w, t.uns);
    ConvOfFitting(now, t.w, t.uns);
    StepVal(t, !up, now);
    UndoStep(t, up, x, next, now);
  }

  lemma UndoStep(t: Ty, up: bool, x: int, next: int, now: int)
    requires t.Int? && Fits(x, t.w, t.uns) && next == (if up then x + 1 else x - 1) && now == Conv(next, t.w, t.uns)
    ensures Conv(if up then now - 1 else now + 1, t.w, t.uns) == x
  {
    var m := t.w.Mod();
    var back := if up then now - 1 else now + 1;
    assert now == next || now == next - m || now == next + m by { Nearby(t, next); }
    assert back == x || back == x - m || back == x + m;
    ConvOfFitting(x, t.w, t.uns);
    ShiftedSame(back, x, t);
  }

  lemma Nearby(t: Ty, v: int)
    requires t.Int? && Lowest(t) - 1 <= v <= Highest(t) + 1
    ensures var c := Conv(v, t.w, t.uns); c == v || c == v - t.w.Mod() || c == v + t.w.Mod()
  {
  }

  lemma ShiftedSame(u: int, v: int, t: Ty)
    requires t.Int? && (u == v || u == v - t.w.Mod() || u == v + t.w.Mod())
    ensures Conv(u, t.w, t.uns) == Conv(v, t.w, t.uns)
  {
    hide Conv;
    var m := t.w.Mod();
    AddMultiple(v, 1, m);
    AddMultiple(v, -1, m);
    ConvCong(u, v, t.w, t.uns);
  }

  // ---- compile-time values ----------------------------------------------------------------------------

  /** The cast to an unsigned or signed type of the same size and back to 64 bits. */
  function AsType(v: Word, t: Ty): Word {
    if t.Void? || t.w == B8 then v
    else
      var low := v % t.w.Mod();
      if t.uns || low < t.w.Mod() / 2 then low else low + (0x1_0000_0000_0000_0000 - t.w.Mod())
  }

  /** A 64-bit pattern becomes the pattern the generated code would hold. */
  lemma AsTypeIs(v: int, t: Ty)
    requires t.Int?
    ensures AsType(Enc(v), t) == Enc(Conv(v, t.w, t.uns))
  {
    EncLow(v, t.w);
  }
}
