// Compound assignment: what `lhs op= rhs` means, the form with a hidden pointer
// temporary the parser builds for it, and that the two agree.

module CUpdate {
  import opened Basics
  import opened Words
  import opened CTree
  import opened CFence

  const SLOTS: nat := 16

  /** How the old value and the operand are put together: at a common type, as a
      shift, or by steps of `size` bytes. */
  datatype Up = Arith(op: BinOp, ct: Ty) | Shift(right: bool) | Step(down: bool, size: int)

  datatype Unary = ToType(ty: Ty) | LogNot | Flip(ty: Ty)

  /** Expressions as written, with compound assignment as one operation. */
  datatype Src =
    | SNum(ty: Ty, val: int)
    | SLoad(ty: Ty, lv: SrcL)
    | SAddr(lv: SrcL)
    | SAssign(ty: Ty, lv: SrcL, rhs: Src)
    | SUnary(u: Unary, x: Src)
    | SBin(op: BinOp, ty: Ty, l: Src, r: Src)
    | SCmp(cmp: CmpOp, l: Src, r: Src)
    | SLog(both: bool, l: Src, r: Src)
    | SCond(ty: Ty, c: Src, t: Src, f: Src)
    | SComma(l: Src, r: Src)
    | SCall(callee: Callee, ty: Ty, args: SrcA)
    | SUpdate(up: Up, ty: Ty, lv: SrcL, rhs: Src)

  datatype SrcL = SLocal(off: int) | SGlobal(a: int) | SDeref(e: Src) | SMember(lv: SrcL, moff: int) | SCommaL(e: Src,
    lv: SrcL)

  datatype SrcA = SNone | SArg(e: Src, rest: SrcA)

  // ---- the meaning as written ----------------------------------------------------------

  function UnaryOf(u: Unary, v: int): int {
    match u
    case ToType(ty) => As(v, ty)
    case LogNot => 1 - Truth(v)
    case Flip(ty) => As(-v - 1, ty)
  }

  /** The new value, or nothing where the processor traps. */
  function Updated(up: Up, ty: Ty, x: int, y: int): Option<int>
    requires ty.Int?
  {
    match up
    case Arith(op, ct) =>
      if !ct.Int? || BinTraps(op, ct, As(x, ct), As(y, ct)) then None
      else Some(As(BinVal(op, ct, As(x, ct), As(y, ct)), ty))
    case Shift(right) => Some(BinVal(if right then Shr else Shl, ty, x, As(y, INT)))
    case Step(down, size) =>
      Some(As(BinVal(if down then Sub else Add, PTR, x, BinVal(Mul, LONG, As(y, LONG), size)), ty))
  }

  /** One read, one write, one address: the address, then the operand, then the
      old value, then the store. */
  function Modify(w: World, up: Up, ty: Ty, a: nat, y: Out<int>): Out<int> {
    if !y.Ok? then y else
    var x := Get(w, a, ty, y.mem, y.fuel);
    if !x.Ok? then x
    else if up.Arith? && !up.ct.Int? then Wild
    else
      var v := Updated(up, ty, x.v, y.v);
      if v.None? then Trap else Put(w, a, ty, v.value, x.mem, x.fuel)
  }

  /** Where the operand of an update finds the stack. */
  function OperandAt(up: Up, sp: int): int { if up.Step? then sp - 16 else sp - 8 }

  function MeanE(w: World, e: Src, fp: int, sp: int, mem: Mem, fuel: nat): (r: Out<int>)
    ensures r.Ok? ==> r.fuel <= fuel
    decreases fuel, e, 0
  {
    match e
    case SNum(_, v) => Ok(v, mem, fuel)
    case SLoad(ty, lv) =>
      var a := MeanL(w, lv, fp, sp, mem, fuel);
      if !a.Ok? then a else Get(w, a.v, ty, a.mem, a.fuel)
    case SAddr(lv) => MeanL(w, lv, fp, sp, mem, fuel)
    case SAssign(ty, lv, rhs) =>
      var a := MeanL(w, lv, fp, sp, mem, fuel);
      if !a.Ok? then a else
      var v := MeanE(w, rhs, fp, sp - 8, a.mem, a.fuel);
      if !v.Ok? then v else Put(w, a.v, ty, v.v, v.mem, v.fuel)
    case SUnary(u, x) =>
      var v := MeanE(w, x, fp, sp, mem, fuel);
      if !v.Ok? then v else Ok(UnaryOf(u, v.v), v.mem, v.fuel)
    case SBin(op, ty, l, rr) =>
      var y := MeanE(w, rr, fp, sp, mem, fuel);
      if !y.Ok? then y else
      var x := MeanE(w, l, fp, sp - 8, y.mem, y.fuel);
      if !x.Ok? then x
      else if ty.Void? then Wild
      else if BinTraps(op, ty, x.v, y.v) then Trap
      else Ok(BinVal(op, ty, x.v, y.v), x.mem, x.fuel)
    case SCmp(op, l, rr) =>
      var y := MeanE(w, rr, fp, sp, mem, fuel);
      if !y.Ok? then y else
      var x := MeanE(w, l, fp, sp - 8, y.mem, y.fuel);
      if !x.Ok? then x else Ok(CmpVal(op, x.v, y.v), x.mem, x.fuel)
    case SLog(both, l, rr) =>
      var x := MeanE(w, l, fp, sp, mem, fuel);
      if !x.Ok? then x
      else if (x.v != 0) != both then Ok(if both then 0 else 1, x.mem, x.fuel)
      else
        var y := MeanE(w, rr, fp, sp, x.mem, x.fuel);
        if !y.Ok? then y else Ok(Truth(y.v), y.mem, y.fuel)
    case SCond(_, c, t, f) =>
      var b := MeanE(w, c, fp, sp, mem, fuel);
      if !b.Ok? then b
      else if b.v != 0 then MeanE(w, t, fp, sp, b.mem, b.fuel)
      else MeanE(w, f, fp, sp, b.mem, b.fuel)
    case SComma(l, rr) =>
      var x := MeanE(w, l, fp, sp, mem, fuel);
      if !x.Ok? then x else MeanE(w, rr, fp, sp, x.mem, x.fuel)
    case SCall(callee, ty, args) =>
      var a := MeanA(w, args, fp, sp, mem, fuel);
      if !a.Ok? then a.Fail()
      else if a.fuel == 0 then NoFuel(a.mem)
      else
        var v := Invoke(w, callee, a.v, sp - sp % 16, a.mem, a.fuel - 1);
        if !v.Ok? then v else Ok(As(v.v, ty), v.mem, v.fuel)
    case SUpdate(up, ty, lv, rhs) =>
      var a := MeanL(w, lv, fp, sp - 8, mem, fuel);
      if !a.Ok? then a
      else Modify(w, up, ty, a.v, MeanE(w, rhs, fp, OperandAt(up, sp), a.mem, a.fuel))
  }

  function MeanL(w: World, lv: SrcL, fp: int, sp: int, mem: Mem, fuel: nat): (r: Out<int>)
    ensures r.Ok? ==> r.fuel <= fuel && 0 <= r.v < 0x1_0000_0000_0000_0000
    decreases fuel, lv, 0
  {
    match lv
    case SLocal(off) => Ok(Enc(fp + off), mem, fuel)
    case SGlobal(a) => Ok(Enc(a), mem, fuel)
    case SDeref(e) =>
      var v := MeanE(w, e, fp, sp, mem, fuel);
      if !v.Ok? then v else Ok(Enc(v.v), v.mem, v.fuel)
    case SMember(x, off) =>
      var a := MeanL(w, x, fp, sp, mem, fuel);
      if !a.Ok? then a else Ok(Enc(a.v + off), a.mem, a.fuel)
    case SCommaL(e, x) =>
      var v := MeanE(w, e, fp, sp, mem, fuel);
      if !v.Ok? then v else MeanL(w, x, fp, sp, v.mem, v.fuel)
  }

  function MeanA(w: World, args: SrcA, fp: int, sp: int, mem: Mem, fuel: nat): (r: Out<seq<int>>)
    ensures r.Ok? ==> r.fuel <= fuel
    decreases fuel, args, 0
  {
    match args
    case SNone => Ok([], mem, fuel)
    case SArg(e, rest) =>
      var v := MeanE(w, e, fp, sp, mem, fuel);
      if !v.Ok? then v.Fail() else
      var vs := MeanA(w, rest, fp, sp - 8, v.mem, v.fuel);
      if !vs.Ok? then vs else Ok([v.v] + vs.v, vs.mem, vs.fuel)
  }

  // ---- the form with temporaries ----------------------------------------------------------

  /** Temporary `n` lies just below the frame pointer, whatever the locals are. */
  function Temp(n: nat): LVal { Local(-8 * (n + 1)) }

  /** The new value from the old one, `old`, and the operand. */
  function Combined(up: Up, ty: Ty, was: Expr, rhs: Expr): Expr {
    match up
    case Arith(op, ct) => Cast(ty, Bin(op, ct, Cast(ct, was), Cast(ct, rhs)))
    case Shift(right) => Bin(if right then Shr else Shl, ty, was, Cast(INT, rhs))
    case Step(down, size) => Cast(ty,
      Bin(if down then Sub else Add, PTR, was, Bin(Mul, LONG, Cast(LONG, rhs), Num(LONG, size))))
  }

  /** `tmp = &lv, *tmp = *tmp op rhs`. */
  function Hidden(up: Up, ty: Ty, lv: LVal, rhs: Expr, n: nat): Expr {
    var at := Deref(Load(PTR, Temp(n)));
    Comma(Assign(PTR, Temp(n), Addr(lv)), Assign(ty, at, Combined(up, ty, Load(ty, at), rhs)))
  }

  function LowerUnary(u: Unary, e: Expr): Expr {
    match u
    case ToType(ty) => Cast(ty, e)
    case LogNot => Not(e)
    case Flip(ty) => BitNot(ty, e)
  }

  /** The tree and the next free temporary: operands take theirs first, left to
      right, the operation itself last. */
  function Lower(e: Src, n: nat): (r: (Expr, nat))
    ensures n <= r.1
  {
    match e
    case SNum(ty, v) => (Num(ty, v), n)
    case SLoad(ty, lv) =>
      var a := LowerL(lv, n);
      (Load(ty, a.0), a.1)
    case SAddr(lv) =>
      var a := LowerL(lv, n);
      (Addr(a.0), a.1)
    case SAssign(ty, lv, rhs) =>
      var a := LowerL(lv, n);
      var v := Lower(rhs, a.1);
      (Assign(ty, a.0, v.0), v.1)
    case SUnary(u, x) =>
      var v := Lower(x, n);
      (LowerUnary(u, v.0), v.1)
    case SBin(op, ty, l, rr) =>
      var x := Lower(l, n);
      var y := Lower(rr, x.1);
      (Bin(op, ty, x.0, y.0), y.1)
    case SCmp(op, l, rr) =>
      var x := Lower(l, n);
      var y := Lower(rr, x.1);
      (Cmp(op, x.0, y.0), y.1)
    case SLog(both, l, rr) =>
      var x := Lower(l, n);
      var y := Lower(rr, x.1);
      (if both then LogAnd(x.0, y.0) else LogOr(x.0, y.0), y.1)
    case SCond(ty, c, t, f) =>
      var b := Lower(c, n);
      var x := Lower(t, b.1);
      var y := Lower(f, x.1);
      (Cond(ty, b.0, x.0, y.0), y.1)
    case SComma(l, rr) =>
      var x := Lower(l, n);
      var y := Lower(rr, x.1);
      (Comma(x.0, y.0), y.1)
    case SCall(callee, ty, args) =>
      var a := LowerA(args, n);
      (Call(callee, ty, a.0), a.1)
    case SUpdate(up, ty, lv, rhs) =>
      var a := LowerL(lv, n);
      var v := Lower(rhs, a.1);
      (Hidden(up, ty, a.0, v.0, v.1), v.1 + 1)
  }

  function LowerL(lv: SrcL, n: nat): (r: (LVal, nat))
    ensures n <= r.1
  {
    match lv
    case SLocal(off) => (Local(off), n)
    case SGlobal(a) => (Global(a), n)
    case SDeref(e) =>
      var v := Lower(e, n);
      (Deref(v.0), v.1)
    case SMember(x, off) =>
      var a := LowerL(x, n);
      (Member(a.0, off), a.1)
    case SCommaL(e, x) =>
      var v := Lower(e, n);
      var a := LowerL(x, v.1);
      (CommaL(v.0, a.0), a.1)
  }

  function LowerA(args: SrcA, n: nat): (r: (Args, nat))
    ensures n <= r.1
  {
    match args
    case SNone => (NoArgs, n)
    case SArg(e, rest) =>
      var v := Lower(e, n);
      var a := LowerA(rest, v.1);
      (Arg(v.0, a.0), a.1)
  }
}
