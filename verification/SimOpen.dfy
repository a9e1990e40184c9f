// One level of the code and of the meaning of each expression, so that a proof
// about one construct need not look inside its operands.

module SimOpen {
  import opened Words
  import opened CTree
  import opened X64
  import opened Gen

  // ---- code ----------------------------------------------------------------

  lemma CodeBin(e: Expr, d: nat, at: int, k: Links) returns (c1: seq<Instr>, c2: seq<Instr>)
    requires e.Bin?
    ensures c1 == GenE(e.r, d, at, k) && c2 == GenE(e.l, d + 1, at + |c1| + 1, k)
    ensures GenE(e, d, at, k) == c1 + [PushRax] + c2 + [Pop(Rdi)] + (BinCode(e.op, e.ty) + Norm(e.ty))
  {
    hide BinCode, Norm;
    c1 := GenE(e.r, d, at, k);
    c2 := GenE(e.l, d + 1, at + |c1| + 1, k);
    assert GenE(e, d, at, k) == c1 + [PushRax] + c2 + [Pop(Rdi)] + BinCode(e.op, e.ty) + Norm(e.ty);
  }

  lemma CodeCmp(e: Expr, d: nat, at: int, k: Links) returns (c1: seq<Instr>, c2: seq<Instr>)
    requires e.Cmp?
    ensures c1 == GenE(e.r, d, at, k) && c2 == GenE(e.l, d + 1, at + |c1| + 1, k)
    ensures GenE(e, d, at, k) == c1 + [PushRax] + c2 + [Pop(Rdi)] + CmpCode(e.cmp, ETy(e.l))
  {
    hide CmpCode, ETy;
    c1 := GenE(e.r, d, at, k);
    c2 := GenE(e.l, d + 1, at + |c1| + 1, k);
  }

  lemma CodeAssign(e: Expr, d: nat, at: int, k: Links) returns (c1: seq<Instr>, c2: seq<Instr>)
    requires e.Assign? && e.ty.Int?
    ensures c1 == GenL(e.lv, d, at, k) && c2 == GenE(e.rhs, d + 1, at + |c1| + 1, k)
    ensures GenE(e, d, at, k) == c1 + [PushRax] + c2 + [Pop(Rdi)] + [StoreRdi(e.ty.w)]
  {
    c1 := GenL(e.lv, d, at, k);
    c2 := GenE(e.rhs, d + 1, at + |c1| + 1, k);
    assert [Pop(Rdi), StoreRdi(e.ty.w)] == [Pop(Rdi)] + [StoreRdi(e.ty.w)];
    assert GenE(e, d, at, k) == c1 + [PushRax] + c2 + [Pop(Rdi), StoreRdi(e.ty.w)];
  }

  /** What follows the operand of a one-operand construct. */
  function Suffix(e: Expr): seq<Instr> {
    match e
    case Load(ty, _) => LoadCode(ty)
    case Cast(ty, _) => Norm(ty)
    case Not(_) => [TestRax, SetCC(Z), MovzxAl]
    case BitNot(ty, _) => [NotRax(Wide(ty))] + Norm(ty)
    case _ => []
  }

  lemma CodeUnary(e: Expr, d: nat, at: int, k: Links) returns (c1: seq<Instr>)
    requires e.Load? || e.Cast? || e.Not? || e.BitNot? || e.Addr?
    ensures c1 == if e.Load? || e.Addr? then GenL(e.lv, d, at, k) else GenE(e.e, d, at, k)
    ensures GenE(e, d, at, k) == c1 + Suffix(e)
  {
    hide Norm, LoadCode;
    c1 := if e.Load? || e.Addr? then GenL(e.lv, d, at, k) else GenE(e.e, d, at, k);
    if e.BitNot? {
      assert GenE(e, d, at, k) == c1 + [NotRax(Wide(e.ty))] + Norm(e.ty);
    }
  }

  /** The code after the second operand of && or ||; the last instruction is
      where the first operand jumps when it decides. */
  function BoolCode(or: bool): seq<Instr> {
    if or then [TestRax, J(NZ, 2), XorEax, J(Always, 1), MovEaxImm(1)]
    else [TestRax, J(Z, 2), MovEaxImm(1), J(Always, 1), XorEax]
  }

  lemma CodeLog(e: Expr, d: nat, at: int, k: Links) returns (c1: seq<Instr>, c2: seq<Instr>)
    requires e.LogAnd? || e.LogOr?
    ensures c1 == GenE(e.l, d, at, k) && c2 == GenE(e.r, d, at + |c1| + 2, k)
    ensures GenE(e, d, at, k)
            == c1 + [TestRax, J(if e.LogOr? then NZ else Z, |c2| + 4)] + c2 + BoolCode(e.LogOr?)
  {
    c1 := GenE(e.l, d, at, k);
    c2 := GenE(e.r, d, at + |c1| + 2, k);
  }

  lemma CodeCond(e: Expr, d: nat, at: int, k: Links)
    returns (c1: seq<Instr>, c2: seq<Instr>, c3: seq<Instr>)
    requires e.Cond?
    ensures c1 == GenE(e.c, d, at, k) && c2 == GenE(e.t, d, at + |c1| + 2, k)
    ensures c3 == GenE(e.f, d, at + |c1| + |c2| + 3, k)
    ensures GenE(e, d, at, k) == c1 + [TestRax, J(Z, |c2| + 1)] + c2 + [J(Always, |c3|)] + c3
  {
    hide GenL, GenA, Enter, Norm, BinCode, LoadCode, CmpCode, ETy, Enc, Count;
    c1 := GenE(e.c, d, at, k);
    c2 := GenE(e.t, d, at + |c1| + 2, k);
    c3 := GenE(e.f, d, at + |c1| + |c2| + 3, k);
  }

  lemma CodeComma(e: Expr, d: nat, at: int, k: Links) returns (c1: seq<Instr>, c2: seq<Instr>)
    requires e.Comma?
    ensures c1 == GenE(e.l, d, at, k) && c2 == GenE(e.r, d, at + |c1|, k)
    ensures GenE(e, d, at, k) == c1 + c2
  {
    c1 := GenE(e.l, d, at, k);
    c2 := GenE(e.r, d, at + |c1|, k);
  }

  lemma CodeCall(e: Expr, d: nat, at: int, k: Links) returns (c1: seq<Instr>, c2: seq<Instr>)
    requires e.Call?
    ensures c1 == GenA(e.args, d, at, k)
    ensures c2 == Enter(e.callee, e.ty, Count(e.args), d, at + |c1|, k)
    ensures GenE(e, d, at, k) == c1 + c2
  {
    hide Enter;
    c1 := GenA(e.args, d, at, k);
    c2 := Enter(e.callee, e.ty, Count(e.args), d, at + |c1|, k);
  }

  lemma CodeArg(args: Args, d: nat, at: int, k: Links) returns (c1: seq<Instr>, c2: seq<Instr>)
    requires args.Arg?
    ensures c1 == GenE(args.e, d, at, k) && c2 == GenA(args.rest, d + 1, at + |c1| + 1, k)
    ensures GenA(args, d, at, k) == c1 + [PushRax] + c2
  {
    c1 := GenE(args.e, d, at, k);
    c2 := GenA(args.rest, d + 1, at + |c1| + 1, k);
  }

  lemma CodeMember(lv: LVal, d: nat, at: int, k: Links) returns (c1: seq<Instr>)
    requires lv.Member?
    ensures c1 == GenL(lv.lv, d, at, k)
    ensures GenL(lv, d, at, k) == c1 + (if lv.moff == 0 then [] else [AddRaxImm(lv.moff)])
  {
    c1 := GenL(lv.lv, d, at, k);
  }

  lemma CodeCommaL(lv: LVal, d: nat, at: int, k: Links) returns (c1: seq<Instr>, c2: seq<Instr>)
    requires lv.CommaL?
    ensures c1 == GenE(lv.e, d, at, k) && c2 == GenL(lv.lv, d, at + |c1|, k)
    ensures GenL(lv, d, at, k) == c1 + c2
  {
    c1 := GenE(lv.e, d, at, k);
    c2 := GenL(lv.lv, d, at + |c1|, k);
  }

  // ---- meaning -------------------------------------------------------------

  lemma MeanBin(w: World, e: Expr, fp: int, sp: int, mem: Mem, fuel: nat) returns (y: Out<int>, x: Out<int>)
    requires e.Bin? && WellTyped(w, e)
    ensures WellTyped(w, e.l) && WellTyped(w, e.r) && ETy(e) == e.ty && e.ty.Int?
    ensures ETy(e.l).Int? && ETy(e.r).Int?
    ensures e.op.Shr? || e.op.Div? || e.op.Mod? ==> ETy(e.l) == e.ty
    ensures e.op.Div? || e.op.Mod? ==> ETy(e.r) == e.ty
    ensures y == EvalE(w, e.r, fp, sp, mem, fuel)
    ensures x == if y.Ok? then EvalE(w, e.l, fp, sp - 8, y.mem, y.fuel) else Wild
    ensures EvalE(w, e, fp, sp, mem, fuel)
            == if !y.Ok? then y else if !x.Ok? then x
               else if BinTraps(e.op, e.ty, x.v, y.v) then Trap
               else Ok(BinVal(e.op, e.ty, x.v, y.v), x.mem, x.fuel)
  {
    hide BinTraps, BinVal, Fits;
    y := EvalE(w, e.r, fp, sp, mem, fuel);
    x := if y.Ok? then EvalE(w, e.l, fp, sp - 8, y.mem, y.fuel) else Wild;
  }

  lemma MeanCmp(w: World, e: Expr, fp: int, sp: int, mem: Mem, fuel: nat) returns (y: Out<int>, x: Out<int>)
    requires e.Cmp? && WellTyped(w, e)
    ensures WellTyped(w, e.l) && WellTyped(w, e.r) && ETy(e) == INT
    ensures ETy(e.l).Int? && ETy(e.r) == ETy(e.l)
    ensures y == EvalE(w, e.r, fp, sp, mem, fuel)
    ensures x == if y.Ok? then EvalE(w, e.l, fp, sp - 8, y.mem, y.fuel) else Wild
    ensures EvalE(w, e, fp, sp, mem, fuel)
            == if !y.Ok? then y else if !x.Ok? then x else Ok(CmpVal(e.cmp, x.v, y.v), x.mem, x.fuel)
  {
    hide CmpVal, Fits;
    y := EvalE(w, e.r, fp, sp, mem, fuel);
    x := if y.Ok? then EvalE(w, e.l, fp, sp - 8, y.mem, y.fuel) else Wild;
  }

  lemma MeanAssign(w: World, e: Expr, fp: int, sp: int, mem: Mem, fuel: nat) returns (a: Out<int>, v: Out<int>)
    requires e.Assign? && WellTyped(w, e)
    ensures WellTypedL(w, e.lv) && WellTyped(w, e.rhs) && ETy(e) == e.ty && ETy(e.rhs) == e.ty && e.ty.Int?
    ensures a == EvalL(w, e.lv, fp, sp, mem, fuel)
    ensures v == if a.Ok? then EvalE(w, e.rhs, fp, sp - 8, a.mem, a.fuel) else Wild
    ensures EvalE(w, e, fp, sp, mem, fuel)
            == if !a.Ok? then a else if !v.Ok? then v else Put(w, a.v, e.ty, v.v, v.mem, v.fuel)
  {
    hide Put, Fits;
    a := EvalL(w, e.lv, fp, sp, mem, fuel);
    v := if a.Ok? then EvalE(w, e.rhs, fp, sp - 8, a.mem, a.fuel) else Wild;
  }

  lemma MeanLoad(w: World, e: Expr, fp: int, sp: int, mem: Mem, fuel: nat) returns (a: Out<int>)
    requires (e.Load? || e.Addr?) && WellTyped(w, e)
    ensures WellTypedL(w, e.lv) && ETy(e).Int? && (e.Load? ==> ETy(e) == e.ty)
    ensures a == EvalL(w, e.lv, fp, sp, mem, fuel)
    ensures EvalE(w, e, fp, sp, mem, fuel)
            == if !a.Ok? || e.Addr? then a else Get(w, a.v, e.ty, a.mem, a.fuel)
  {
    hide Get, Fits;
    a := EvalL(w, e.lv, fp, sp, mem, fuel);
  }

  /** The value a cast, `!` or `~` gives its operand. */
  function UnaryVal(e: Expr, v: int): int
    requires e.Cast? || e.Not? || e.BitNot?
  {
    match e
    case Cast(ty, _) => As(v, ty)
    case Not(_) => 1 - Truth(v)
    case BitNot(ty, _) => As(-v - 1, ty)
  }

  lemma MeanUnary(w: World, e: Expr, fp: int, sp: int, mem: Mem, fuel: nat) returns (v: Out<int>)
    requires (e.Cast? || e.Not? || e.BitNot?) && WellTyped(w, e)
    ensures WellTyped(w, e.e) && ETy(e) == (if e.Not? then INT else e.ty)
    ensures ETy(e).Int? ==> ETy(e.e).Int?
    ensures v == EvalE(w, e.e, fp, sp, mem, fuel)
    ensures EvalE(w, e, fp, sp, mem, fuel) == if !v.Ok? then v else Ok(UnaryVal(e, v.v), v.mem, v.fuel)
  {
    hide As, Truth, Fits;
    v := EvalE(w, e.e, fp, sp, mem, fuel);
  }

  lemma MeanLog(w: World, e: Expr, fp: int, sp: int, mem: Mem, fuel: nat) returns (x: Out<int>, y: Out<int>)
    requires (e.LogAnd? || e.LogOr?) && WellTyped(w, e)
    ensures WellTyped(w, e.l) && WellTyped(w, e.r) && ETy(e.l).Int? && ETy(e.r).Int? && ETy(e) == INT
    ensures x == EvalE(w, e.l, fp, sp, mem, fuel)
    ensures y == if x.Ok? then EvalE(w, e.r, fp, sp, x.mem, x.fuel) else Wild
    ensures EvalE(w, e, fp, sp, mem, fuel)
            == if !x.Ok? then x
               else if (x.v != 0) == e.LogOr? then Ok(if e.LogOr? then 1 else 0, x.mem, x.fuel)
               else if !y.Ok? then y else Ok(Truth(y.v), y.mem, y.fuel)
  {
    hide Truth, Fits;
    x := EvalE(w, e.l, fp, sp, mem, fuel);
    y := if x.Ok? then EvalE(w, e.r, fp, sp, x.mem, x.fuel) else Wild;
  }

  lemma MeanCond(w: World, e: Expr, fp: int, sp: int, mem: Mem, fuel: nat) returns (b: Out<int>, x: Out<int>)
    requires e.Cond? && WellTyped(w, e)
    ensures WellTyped(w, e.c) && ETy(e.c).Int? && WellTyped(w, e.t) && WellTyped(w, e.f)
    ensures ETy(e).Int? ==> ETy(e.t) == ETy(e) && ETy(e.f) == ETy(e)
    ensures b == EvalE(w, e.c, fp, sp, mem, fuel)
    ensures x == if !b.Ok? then Wild
                 else if b.v != 0 then EvalE(w, e.t, fp, sp, b.mem, b.fuel)
                 else EvalE(w, e.f, fp, sp, b.mem, b.fuel)
    ensures EvalE(w, e, fp, sp, mem, fuel) == if !b.Ok? then b else x
  {
    hide Fits;
    b := EvalE(w, e.c, fp, sp, mem, fuel);
    x := if !b.Ok? then Wild
         else if b.v != 0 then EvalE(w, e.t, fp, sp, b.mem, b.fuel)
         else EvalE(w, e.f, fp, sp, b.mem, b.fuel);
  }

  lemma MeanComma(w: World, e: Expr, fp: int, sp: int, mem: Mem, fuel: nat) returns (x: Out<int>, y: Out<int>)
    requires e.Comma? && WellTyped(w, e)
    ensures WellTyped(w, e.l) && WellTyped(w, e.r) && ETy(e) == ETy(e.r)
    ensures x == EvalE(w, e.l, fp, sp, mem, fuel)
    ensures y == if x.Ok? then EvalE(w, e.r, fp, sp, x.mem, x.fuel) else Wild
    ensures EvalE(w, e, fp, sp, mem, fuel) == if !x.Ok? then x else y
  {
    hide Fits;
    x := EvalE(w, e.l, fp, sp, mem, fuel);
    y := if x.Ok? then EvalE(w, e.r, fp, sp, x.mem, x.fuel) else Wild;
  }

  lemma MeanCall(w: World, e: Expr, fp: int, sp: int, mem: Mem, fuel: nat)
    returns (a: Out<seq<int>>, v: Out<int>)
    requires e.Call? && WellTyped(w, e)
    ensures WellTypedA(w, e.args) && Count(e.args) <= 6 && ETy(e) == e.ty
    ensures e.callee.Unit? ==> e.callee.index < |w.funcs|
                               && |w.funcs[e.callee.index].params| == Count(e.args)
                               && (e.ty.Int? ==> w.funcs[e.callee.index].ret.Int?)
    ensures a == EvalA(w, e.args, fp, sp, mem, fuel)
    ensures v == if a.Ok? && a.fuel > 0 then Invoke(w, e.callee, a.v, sp - sp % 16, a.mem, a.fuel - 1) else Wild
    ensures EvalE(w, e, fp, sp, mem, fuel)
            == if !a.Ok? then a.Fail() else if a.fuel == 0 then NoFuel(a.mem)
               else if !v.Ok? then v else Ok(As(v.v, e.ty), v.mem, v.fuel)
  {
    hide Fits, As, Invoke;
    a := EvalA(w, e.args, fp, sp, mem, fuel);
    v := if a.Ok? && a.fuel > 0 then Invoke(w, e.callee, a.v, sp - sp % 16, a.mem, a.fuel - 1) else Wild;
  }

  lemma MeanArg(w: World, args: Args, fp: int, sp: int, mem: Mem, fuel: nat)
    returns (v: Out<int>, vs: Out<seq<int>>)
    requires args.Arg? && WellTypedA(w, args)
    ensures WellTyped(w, args.e) && ETy(args.e).Int? && WellTypedA(w, args.rest)
    ensures Count(args) == 1 + Count(args.rest)
    ensures v == EvalE(w, args.e, fp, sp, mem, fuel)
    ensures vs == if v.Ok? then EvalA(w, args.rest, fp, sp - 8, v.mem, v.fuel) else Wild
    ensures EvalA(w, args, fp, sp, mem, fuel)
            == if !v.Ok? then v.Fail() else if !vs.Ok? then vs else Ok([v.v] + vs.v, vs.mem, vs.fuel)
  {
    v := EvalE(w, args.e, fp, sp, mem, fuel);
    vs := if v.Ok? then EvalA(w, args.rest, fp, sp - 8, v.mem, v.fuel) else Wild;
  }

  lemma MeanDeref(w: World, lv: LVal, fp: int, sp: int, mem: Mem, fuel: nat) returns (v: Out<int>)
    requires lv.Deref? && WellTypedL(w, lv)
    ensures WellTyped(w, lv.e) && ETy(lv.e) == PTR
    ensures v == EvalE(w, lv.e, fp, sp, mem, fuel)
    ensures EvalL(w, lv, fp, sp, mem, fuel) == if !v.Ok? then v else Ok(Enc(v.v), v.mem, v.fuel)
  {
    hide Enc;
    v := EvalE(w, lv.e, fp, sp, mem, fuel);
  }

  lemma MeanMember(w: World, lv: LVal, fp: int, sp: int, mem: Mem, fuel: nat) returns (a: Out<int>)
    requires lv.Member? && WellTypedL(w, lv)
    ensures WellTypedL(w, lv.lv)
    ensures a == EvalL(w, lv.lv, fp, sp, mem, fuel)
    ensures EvalL(w, lv, fp, sp, mem, fuel) == if !a.Ok? then a else Ok(Enc(a.v + lv.moff), a.mem, a.fuel)
  {
    hide Enc;
    a := EvalL(w, lv.lv, fp, sp, mem, fuel);
  }

  lemma MeanCommaL(w: World, lv: LVal, fp: int, sp: int, mem: Mem, fuel: nat) returns (v: Out<int>, a: Out<int>)
    requires lv.CommaL? && WellTypedL(w, lv)
    ensures WellTyped(w, lv.e) && WellTypedL(w, lv.lv)
    ensures v == EvalE(w, lv.e, fp, sp, mem, fuel)
    ensures a == if v.Ok? then EvalL(w, lv.lv, fp, sp, v.mem, v.fuel) else Wild
    ensures EvalL(w, lv, fp, sp, mem, fuel) == if !v.Ok? then v else a
  {
    v := EvalE(w, lv.e, fp, sp, mem, fuel);
    a := if v.Ok? then EvalL(w, lv.lv, fp, sp, v.mem, v.fuel) else Wild;
  }
}
