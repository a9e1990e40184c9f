// The emitted code computes what the tree means.
//
// One small lemma per construct; they call each other as the tree nests, and a
// loop back-edge or a call goes round again with less fuel.

module Sim {
  import opened Basics
  import opened Words
  import opened CTree
  import opened X64
  import opened Gen
  import opened SimBase
  import opened SimOps
  import opened SimOpen
  import opened SimSizes
  import opened SimOpenS
  import opened SimMoves
  import opened SimCalls
  import opened SimBlocks

  // ---- what is to be shown -------------------------------------------------

  /** About to run the code of `e` in a frame with `d` words pushed. */
  ghost predicate StartE(w: World, code: seq<Instr>, k: Links, per: nat, e: Expr, d: nat, s: State) {
    Ready(w, code, k, per) && InFrame(w, s, d) && WellTyped(w, e) && CodeAt(code, s.pc, GenE(e, d, s.pc, k))
  }

  ghost predicate DoneE(w: World, code: seq<Instr>, k: Links, per: nat, e: Expr, d: nat, s: State, n: nat) {
    0 <= s.fuel &&
    Computes(w, code, k, per, |GenE(e, d, s.pc, k)|, s, n, ETy(e),
             EvalE(w, e, s.rbp, s.rsp, s.mem, s.fuel))
  }

  ghost predicate StartL(w: World, code: seq<Instr>, k: Links, per: nat, lv: LVal, d: nat, s: State) {
    Ready(w, code, k, per) && InFrame(w, s, d) && WellTypedL(w, lv) && CodeAt(code, s.pc, GenL(lv, d, s.pc, k))
  }

  ghost predicate DoneL(w: World, code: seq<Instr>, k: Links, per: nat, lv: LVal, d: nat, s: State, n: nat) {
    0 <= s.fuel &&
    Computes(w, code, k, per, |GenL(lv, d, s.pc, k)|, s, n, PTR,
             EvalL(w, lv, s.rbp, s.rsp, s.mem, s.fuel))
  }

  /** After the code of an argument list: every value waits on the stack. */
  ghost predicate Pushed(w: World, code: seq<Instr>, k: Links, per: nat, size: nat, s: State, n: nat,
                         r: Out<seq<int>>)
  {
    var t := Run(w, code, s, n);
    if r.Ok? then
      && t.status == Running && t.pc == s.pc + size && t.rsp == s.rsp - 8 * |r.v| && t.rbp == s.rbp
      && t.rt == s.rt && StkKept(s.rsp, s.stk, t.stk) && Waiting(t.stk, s.rsp, r.v)
      && t.mem == r.mem && t.fuel == r.fuel && n + per * r.fuel <= size + per * s.fuel
    else Left(k, per, size, s, n, t, r)
  }

  ghost predicate StartA(w: World, code: seq<Instr>, k: Links, per: nat, args: Args, d: nat, s: State) {
    Ready(w, code, k, per) && InFrame(w, s, d) && WellTypedA(w, args)
    && CodeAt(code, s.pc, GenA(args, d, s.pc, k))
  }

  ghost predicate DoneA(w: World, code: seq<Instr>, k: Links, per: nat, args: Args, d: nat, s: State, n: nat) {
    0 <= s.fuel &&
    Pushed(w, code, k, per, |GenA(args, d, s.pc, k)|, s, n, EvalA(w, args, s.rbp, s.rsp, s.mem, s.fuel))
  }

  /** At the entry of function `i`, its return address on top of the stack. */
  ghost predicate StartF(w: World, code: seq<Instr>, k: Links, per: nat, i: nat, vs: seq<int>, s: State) {
    && Ready(w, code, k, per) && i < |w.funcs| && s.status == Running && 0 <= s.fuel
    && s.rt.limit == w.limit && s.pc == k.fn[i] && (s.rsp + 8) % 16 == 0
    && |vs| == |w.funcs[i].params| && InRegs(s.r, vs)
  }

  ghost predicate DoneF(w: World, code: seq<Instr>, k: Links, per: nat, i: nat, vs: seq<int>, s: State, n: nat)
    requires i < |w.funcs|
  {
    0 <= s.fuel &&
    var r := RunFunc(w, w.funcs[i], vs, s.rsp + 8, s.mem, s.fuel);
    var t := Run(w, code, s, n);
    if r.Ok? then
      && t.status == Running && t.pc == At(s.stk, s.rsp) && t.rsp == s.rsp + 8 && t.rbp == s.rbp
      && t.rt == s.rt && StkKept(s.rsp + 8, s.stk, t.stk) && t.mem == r.mem && t.fuel == r.fuel
      && (w.funcs[i].ret.Int? ==> t.rax == Enc(r.v)) && n + per * r.fuel <= per + per * s.fuel
    else Left(k, per, per, s, n, t, r)
  }

  /** Where a statement's code is, where it may go, what surrounds it. */
  datatype Ctx = Ctx(at: int, x: Exits, ret: Ty, brk: bool, cont: bool)

  function Target(v: Flow, goal: int, x: Exits): int {
    match v
    case Next => goal
    case Brk => x.brk
    case Cont => x.cont
    case Gone(_) => x.epi
  }

  /** The outcome `r`, with control at the place it calls for. */
  ghost predicate Ends(w: World, code: seq<Instr>, k: Links, per: nat, wt: nat, goal: int, x: Exits, ret: Ty,
                       s: State, n: nat, r: Out<Flow>)
  {
    var t := Run(w, code, s, n);
    if r.Ok? then
      && t.pc == Target(r.v, goal, x) && Kept(s, t) && t.mem == r.mem && t.fuel == r.fuel
      && (r.v.Gone? && ret.Int? ==> t.rax == Enc(r.v.v))
      && n + per * r.fuel <= wt + per * s.fuel
    else Left(k, per, wt, s, n, t, r)
  }

  ghost predicate StartS(w: World, code: seq<Instr>, k: Links, per: nat, b: Stmt, key: Option<Key>, c: Ctx, s: State) {
    && Ready(w, code, k, per) && InFrame(w, s, 0) && WellFormed(w, b, c.ret, c.brk, c.cont)
    && Weight(b) <= per && CodeAt(code, c.at, GenS(b, c.at, k, c.x))
    && Enters(b, key) && s.pc == c.at + Entry(b, key)
  }

  ghost predicate DoneS(w: World, code: seq<Instr>, k: Links, per: nat, b: Stmt, key: Option<Key>, c: Ctx,
                        s: State, n: nat)
  {
    0 <= s.fuel &&
    Ends(w, code, k, per, Weight(b), c.at + SizeS(b), c.x, c.ret, s, n,
         Exec(w, b, key, s.rbp, s.rsp, s.mem, s.fuel))
  }

  // ---- operators -----------------------------------------------------------

  lemma SimNum(w: World, code: seq<Instr>, k: Links, per: nat, e: Expr, d: nat, s: State) returns (n: nat)
    requires e.Num? && StartE(w, code, k, per, e, d, s)
    ensures DoneE(w, code, k, per, e, d, s, n)
  {
    hide Run, All, Data, Ready, Fits, Enc;
    n := 1;
    var i := MovRaxImm(Enc(e.val));
    assert InLine([i]);
    RunAll(w, code, s, [i]);
    All1(w, i, s);
    DataAlu(w, i, s.(pc := s.pc + 1));
  }

  /** Two operands, the first pushed while the second is computed. */
  lemma SimBin(w: World, code: seq<Instr>, k: Links, per: nat, e: Expr, d: nat, s: State) returns (n: nat)
    requires e.Bin? && StartE(w, code, k, per, e, d, s)
    ensures DoneE(w, code, k, per, e, d, s, n)
    decreases s.fuel, e, 0
  {
    hide Run, All, Data, Ready, Fits, Enc, BinVal, BinTraps, BinCode, Norm, InLine, CodeAt, At, GenE, GenL,
      EvalE, WellTyped, ETy, StkKept;
    var c1, c2 := CodeBin(e, d, s.pc, k);
    var y, x := MeanBin(w, e, s.rbp, s.rsp, s.mem, s.fuel);
    var seg := BinCode(e.op, e.ty) + Norm(e.ty);
    Parts(code, s.pc, c1, [PushRax], c2, [Pop(Rdi)], seg);
    n := SimE(w, code, k, per, e.r, d, s);
    if y.Ok? {
      var s2 := AfterFirst(w, code, per, |c1|, d, s, n, y);
      var m := SimE(w, code, k, per, e.l, d + 1, s2);
      if !x.Ok? {
        LeftAfter(w, code, k, per, |GenE(e, d, s.pc, k)|, s, n + 1, m, |c2|, x);
        n := n + 1 + m;
      } else {
        var t := AfterSecond(w, code, per, |c1|, |c2|, s, n, y, s2, m, x);
        EvalFits(w, e.r, s.rbp, s.rsp, s.mem, s.fuel);
        EvalFits(w, e.l, s2.rbp, s2.rsp, s2.mem, s2.fuel);
        n := n + 1 + m + 1;
        InLineCodes(e.op, Eq, e.ty);
        RunThen(w, code, s, n, seg);
        BinRun(w, t, e.op, e.ty, x.v, y.v);
        n := n + |seg|;
      }
    }
  }

  lemma SimCmp(w: World, code: seq<Instr>, k: Links, per: nat, e: Expr, d: nat, s: State) returns (n: nat)
    requires e.Cmp? && StartE(w, code, k, per, e, d, s)
    ensures DoneE(w, code, k, per, e, d, s, n)
    decreases s.fuel, e, 0
  {
    hide Run, All, Data, Ready, Fits, Enc, CmpVal, CmpCode, InLine, CodeAt, At, GenE, GenL,
      EvalE, WellTyped, ETy, StkKept;
    var c1, c2 := CodeCmp(e, d, s.pc, k);
    var y, x := MeanCmp(w, e, s.rbp, s.rsp, s.mem, s.fuel);
    var seg := CmpCode(e.cmp, ETy(e.l));
    Parts(code, s.pc, c1, [PushRax], c2, [Pop(Rdi)], seg);
    n := SimE(w, code, k, per, e.r, d, s);
    if y.Ok? {
      var s2 := AfterFirst(w, code, per, |c1|, d, s, n, y);
      var m := SimE(w, code, k, per, e.l, d + 1, s2);
      if !x.Ok? {
        LeftAfter(w, code, k, per, |GenE(e, d, s.pc, k)|, s, n + 1, m, |c2|, x);
        n := n + 1 + m;
      } else {
        var t := AfterSecond(w, code, per, |c1|, |c2|, s, n, y, s2, m, x);
        EvalFits(w, e.r, s.rbp, s.rsp, s.mem, s.fuel);
        EvalFits(w, e.l, s2.rbp, s2.rsp, s2.mem, s2.fuel);
        n := n + 1 + m + 1;
        InLineCodes(Add, e.cmp, ETy(e.l));
        RunThen(w, code, s, n, seg);
        CmpRun(w, t, e.cmp, ETy(e.l), x.v, y.v);
        CmpSize(e.cmp, ETy(e.l));
        n := n + |seg|;
      }
    }
  }

  lemma CmpSize(op: CmpOp, ty: Ty)
    ensures |CmpCode(op, ty)| == 3
  {
  }

  /** The address is pushed while the value is computed. */
  lemma SimAssign(w: World, code: seq<Instr>, k: Links, per: nat, e: Expr, d: nat, s: State) returns (n: nat)
    requires e.Assign? && StartE(w, code, k, per, e, d, s)
    ensures DoneE(w, code, k, per, e, d, s, n)
    decreases s.fuel, e, 0
  {
    hide Run, All, Data, Ready, Fits, Enc, Put, InLine, CodeAt, At, GenE, GenL,
      EvalE, EvalL, WellTyped, WellTypedL, ETy, StkKept;
    var a, v := MeanAssign(w, e, s.rbp, s.rsp, s.mem, s.fuel);
    var c1, c2 := CodeAssign(e, d, s.pc, k);
    var seg := [StoreRdi(e.ty.w)];
    Parts(code, s.pc, c1, [PushRax], c2, [Pop(Rdi)], seg);
    n := SimL(w, code, k, per, e.lv, d, s);
    if a.Ok? {
      var s2 := AfterFirst(w, code, per, |c1|, d, s, n, a);
      var m := SimE(w, code, k, per, e.rhs, d + 1, s2);
      if !v.Ok? {
        LeftAfter(w, code, k, per, |GenE(e, d, s.pc, k)|, s, n + 1, m, |c2|, v);
        n := n + 1 + m;
      } else {
        var t := AfterSecond(w, code, per, |c1|, |c2|, s, n, a, s2, m, v);
        n := n + 1 + m + 1;
        StoreInLine(e.ty.w);
        RunThen(w, code, s, n, seg);
        EncWord(a.v);
        StoreRun(w, t, e.ty, a.v, v.v);
        n := n + 1;
      }
    }
  }

  lemma StoreInLine(w: Width)
    ensures InLine([StoreRdi(w)])
  {
  }

  /** A load, or the address itself. */
  lemma SimLoad(w: World, code: seq<Instr>, k: Links, per: nat, e: Expr, d: nat, s: State) returns (n: nat)
    requires (e.Load? || e.Addr?) && StartE(w, code, k, per, e, d, s)
    ensures DoneE(w, code, k, per, e, d, s, n)
    decreases s.fuel, e, 0
  {
    hide Run, All, Data, Ready, Fits, Enc, Get, InLine, CodeAt, GenE, GenL, EvalE, EvalL,
      WellTyped, WellTypedL, ETy, StkKept, LoadCode;
    var c1 := CodeUnary(e, d, s.pc, k);
    var a := MeanLoad(w, e, s.rbp, s.rsp, s.mem, s.fuel);
    CodeSplit(code, s.pc, c1, Suffix(e));
    n := SimL(w, code, k, per, e.lv, d, s);
    if e.Load? {
      if a.Ok? {
        EncWord(a.v);
        LoadRun(w, Run(w, code, s, n), e.ty);
      }
      InLineCodes(Add, Eq, e.ty);
      n := AppendSeg(w, code, k, per, |c1|, s, n, PTR, a, LoadCode(e.ty), e.ty,
                     EvalE(w, e, s.rbp, s.rsp, s.mem, s.fuel));
    }
  }

  lemma SuffixRun(w: World, s: State, e: Expr, v: int)
    requires (e.Cast? || e.Not? || e.BitNot?) && WellTyped(w, e) && s.status == Running && 0 <= s.fuel
    requires ETy(e.e).Int? ==> s.rax == Enc(v) && Fits(v, ETy(e.e).w, ETy(e.e).uns)
    ensures InLine(Suffix(e))
    ensures Onward(s, All(w, Suffix(e), s), |Suffix(e)|, ETy(e), Ok(UnaryVal(e, v), s.mem, s.fuel))
  {
    hide All, Data, Enc, Conv, Fits;
    match e
    case Cast(ty, _) =>
      CastRun(w, s, ty, v);
    case Not(x) =>
      NotRun(w, s, ETy(x), v);
    case BitNot(ty, _) =>
      BitNotRun(w, s, ty, v);
  }

  lemma SimUnary(w: World, code: seq<Instr>, k: Links, per: nat, e: Expr, d: nat, s: State) returns (n: nat)
    requires (e.Cast? || e.Not? || e.BitNot?) && StartE(w, code, k, per, e, d, s)
    ensures DoneE(w, code, k, per, e, d, s, n)
    decreases s.fuel, e, 0
  {
    hide Run, All, Data, Ready, Fits, Enc, InLine, CodeAt, GenE, GenL, EvalE, EvalL,
      WellTyped, ETy, StkKept, Suffix, UnaryVal;
    var c1 := CodeUnary(e, d, s.pc, k);
    var v := MeanUnary(w, e, s.rbp, s.rsp, s.mem, s.fuel);
    CodeSplit(code, s.pc, c1, Suffix(e));
    n := SimE(w, code, k, per, e.e, d, s);
    if v.Ok? {
      if ETy(e.e).Int? {
        EvalFits(w, e.e, s.rbp, s.rsp, s.mem, s.fuel);
      }
      SuffixRun(w, Run(w, code, s, n), e, v.v);
      n := AppendSeg(w, code, k, per, |c1|, s, n, ETy(e.e), v, Suffix(e), ETy(e),
                     EvalE(w, e, s.rbp, s.rsp, s.mem, s.fuel));
    }
  }

  // ---- control -------------------------------------------------------------

  lemma SimComma(w: World, code: seq<Instr>, k: Links, per: nat, e: Expr, d: nat, s: State) returns (n: nat)
    requires e.Comma? && StartE(w, code, k, per, e, d, s)
    ensures DoneE(w, code, k, per, e, d, s, n)
    decreases s.fuel, e, 0
  {
    hide Run, Ready, CodeAt, GenE, EvalE, WellTyped, ETy, StkKept, Enc;
    var c1, c2 := CodeComma(e, d, s.pc, k);
    var x, y := MeanComma(w, e, s.rbp, s.rsp, s.mem, s.fuel);
    CodeSplit(code, s.pc, c1, c2);
    n := SimE(w, code, k, per, e.l, d, s);
    if x.Ok? {
      var s1 := Run(w, code, s, n);
      var m := SimE(w, code, k, per, e.r, d, s1);
      ComputesAfter(w, code, k, per, |c1| + |c2|, |c2|, s, n, m, ETy(e.r), y);
      n := n + m;
    }
  }

  lemma SimCond(w: World, code: seq<Instr>, k: Links, per: nat, e: Expr, d: nat, s: State) returns (n: nat)
    requires e.Cond? && StartE(w, code, k, per, e, d, s)
    ensures DoneE(w, code, k, per, e, d, s, n)
    decreases s.fuel, e, 0
  {
    hide Run, Ready, CodeAt, GenE, EvalE, WellTyped, ETy, StkKept, Enc, Fits;
    var c1, c2, c3 := CodeCond(e, d, s.pc, k);
    var b, x := MeanCond(w, e, s.rbp, s.rsp, s.mem, s.fuel);
    Parts(code, s.pc, c1, [TestRax, J(Z, |c2| + 1)], c2, [J(Always, |c3|)], c3);
    n := SimE(w, code, k, per, e.c, d, s);
    if b.Ok? {
      EvalFits(w, e.c, s.rbp, s.rsp, s.mem, s.fuel);
      var s1 := AfterTest(w, code, per, |c1|, s, n, ETy(e.c), b, Z, |c2| + 1);
      n := n + 2;
      if b.v != 0 {
        var m := SimE(w, code, k, per, e.t, d, s1);
        ComputesAfter(w, code, k, per, |c1| + 2 + |c2|, |c2|, s, n, m, ETy(e.t), x);
        n := AppendJump(w, code, k, per, |c1| + 2 + |c2|, s, n + m, ETy(e.t), x, |c3|);
      } else {
        var m := SimE(w, code, k, per, e.f, d, s1);
        ComputesAfter(w, code, k, per, |c1| + |c2| + |c3| + 3, |c3|, s, n, m, ETy(e.f), x);
        n := n + m;
      }
    }
  }

  lemma BoolEnd(code: seq<Instr>, pc: int, or: bool)
    requires CodeAt(code, pc, BoolCode(or))
    ensures CodeAt(code, pc + 4, [BoolLast(or)]) && |BoolCode(or)| == 5
  {
    BoolParts(code, pc, or);
  }

  /** The second operand of && or ||, already run to its end. */
  lemma LogRight(w: World, code: seq<Instr>, k: Links, per: nat, size: nat, s: State, n: nat,
                 ty: Ty, y: Out<int>, or: bool) returns (n2: nat)
    requires Computes(w, code, k, per, size, s, n, ty, y)
    requires CodeAt(code, s.pc + size, BoolCode(or)) && ty.Int? && (y.Ok? ==> Fits(y.v, ty.w, ty.uns))
    ensures Computes(w, code, k, per, size + 5, s, n2, INT,
                     if y.Ok? then Ok(Truth(y.v), y.mem, y.fuel) else y)
  {
    hide Run, CodeAt, StkKept, Enc, Fits, BoolCode, Truth;
    n2 := n;
    if y.Ok? {
      var m := BoolTail(w, code, Run(w, code, s, n), ty, y.v, or);
      RunAdd(w, code, s, n, m);
      n2 := n + m;
    }
  }

  lemma SimLog(w: World, code: seq<Instr>, k: Links, per: nat, e: Expr, d: nat, s: State) returns (n: nat)
    requires (e.LogAnd? || e.LogOr?) && StartE(w, code, k, per, e, d, s)
    ensures DoneE(w, code, k, per, e, d, s, n)
    decreases s.fuel, e, 0
  {
    hide Run, Ready, CodeAt, GenE, EvalE, WellTyped, ETy, StkKept, Enc, Fits, BoolCode, Truth, BoolLast;
    var c1, c2 := CodeLog(e, d, s.pc, k);
    var x, y := MeanLog(w, e, s.rbp, s.rsp, s.mem, s.fuel);
    var cc := if e.LogOr? then NZ else Z;
    Parts4(code, s.pc, c1, [TestRax, J(cc, |c2| + 4)], c2, BoolCode(e.LogOr?));
    BoolEnd(code, s.pc + |c1| + 2 + |c2|, e.LogOr?);
    n := SimE(w, code, k, per, e.l, d, s);
    if x.Ok? {
      EvalFits(w, e.l, s.rbp, s.rsp, s.mem, s.fuel);
      var s1 := AfterTest(w, code, per, |c1|, s, n, ETy(e.l), x, cc, |c2| + 4);
      n := n + 2;
      if (x.v != 0) == e.LogOr? {
        BoolRun(w, code, s1, e.LogOr?);
        RunAdd(w, code, s, n, 1);
        n := n + 1;
      } else {
        var m := SimE(w, code, k, per, e.r, d, s1);
        EvalFits(w, e.r, s1.rbp, s1.rsp, s1.mem, s1.fuel);
        m := LogRight(w, code, k, per, |c2|, s1, m, ETy(e.r), y, e.LogOr?);
        ComputesAfter(w, code, k, per, |c1| + 2 + |c2| + 5, |c2| + 5, s, n, m, INT,
                      EvalE(w, e, s.rbp, s.rsp, s.mem, s.fuel));
        n := n + m;
      }
    }
  }

  // ---- lvalues ---------------------------------------------------------------

  lemma SimName(w: World, code: seq<Instr>, k: Links, per: nat, lv: LVal, d: nat, s: State) returns (n: nat)
    requires (lv.Local? || lv.Global?) && StartL(w, code, k, per, lv, d, s)
    ensures DoneL(w, code, k, per, lv, d, s, n)
  {
    hide Run, All, Data, Ready, Fits;
    n := 1;
    var i := if lv.Local? then LeaRaxRbp(lv.off) else MovRaxImm(Enc(lv.a));
    assert InLine([i]);
    RunAll(w, code, s, [i]);
    All1(w, i, s);
    if lv.Local? {
      DataOther(w, i, s.(pc := s.pc + 1));
    } else {
      DataAlu(w, i, s.(pc := s.pc + 1));
    }
  }

  lemma SimDeref(w: World, code: seq<Instr>, k: Links, per: nat, lv: LVal, d: nat, s: State) returns (n: nat)
    requires lv.Deref? && StartL(w, code, k, per, lv, d, s)
    ensures DoneL(w, code, k, per, lv, d, s, n)
    decreases s.fuel, lv, 0
  {
    hide Run, Ready, CodeAt, GenE, EvalE, EvalL, WellTyped, WellTypedL, ETy, StkKept;
    var v := MeanDeref(w, lv, s.rbp, s.rsp, s.mem, s.fuel);
    n := SimE(w, code, k, per, lv.e, d, s);
  }

  lemma AddRun(w: World, s: State, off: int, a: int)
    requires s.status == Running && s.rax == Enc(a) && 0 <= s.fuel
    ensures InLine([AddRaxImm(off)])
    ensures Onward(s, All(w, [AddRaxImm(off)], s), 1, PTR, Ok(Enc(a + off), s.mem, s.fuel))
  {
    hide Data;
    All1(w, AddRaxImm(off), s);
    DataAlu(w, AddRaxImm(off), s.(pc := s.pc + 1));
  }

  lemma SimMember(w: World, code: seq<Instr>, k: Links, per: nat, lv: LVal, d: nat, s: State) returns (n: nat)
    requires lv.Member? && StartL(w, code, k, per, lv, d, s)
    ensures DoneL(w, code, k, per, lv, d, s, n)
    decreases s.fuel, lv, 0
  {
    hide Run, All, Ready, CodeAt, GenE, GenL, EvalE, EvalL, WellTyped, WellTypedL, ETy, StkKept, Enc, InLine;
    var a := MeanMember(w, lv, s.rbp, s.rsp, s.mem, s.fuel);
    var c1 := CodeMember(lv, d, s.pc, k);
    n := SimL(w, code, k, per, lv.lv, d, s) by {
      CodeSplit(code, s.pc, c1, if lv.moff == 0 then [] else [AddRaxImm(lv.moff)]);
    }
    if a.Ok? {
      EncWord(a.v);
      if lv.moff != 0 {
        CodeSplit(code, s.pc, c1, [AddRaxImm(lv.moff)]);
        AddRun(w, Run(w, code, s, n), lv.moff, a.v);
        n := AppendSeg(w, code, k, per, |c1|, s, n, PTR, a, [AddRaxImm(lv.moff)], PTR,
                       EvalL(w, lv, s.rbp, s.rsp, s.mem, s.fuel));
      }
    }
  }

  lemma SimCommaL(w: World, code: seq<Instr>, k: Links, per: nat, lv: LVal, d: nat, s: State) returns (n: nat)
    requires lv.CommaL? && StartL(w, code, k, per, lv, d, s)
    ensures DoneL(w, code, k, per, lv, d, s, n)
    decreases s.fuel, lv, 0
  {
    hide Run, Ready, CodeAt, GenE, GenL, EvalE, EvalL, WellTyped, WellTypedL, ETy, StkKept, Enc;
    var c1, c2 := CodeCommaL(lv, d, s.pc, k);
    var v, a := MeanCommaL(w, lv, s.rbp, s.rsp, s.mem, s.fuel);
    CodeSplit(code, s.pc, c1, c2);
    n := SimE(w, code, k, per, lv.e, d, s);
    if v.Ok? {
      var s1 := Run(w, code, s, n);
      var m := SimL(w, code, k, per, lv.lv, d, s1);
      ComputesAfter(w, code, k, per, |c1| + |c2|, |c2|, s, n, m, PTR, a);
      n := n + m;
    }
  }

  lemma SimL(w: World, code: seq<Instr>, k: Links, per: nat, lv: LVal, d: nat, s: State) returns (n: nat)
    requires StartL(w, code, k, per, lv, d, s)
    ensures DoneL(w, code, k, per, lv, d, s, n)
    decreases s.fuel, lv, 1
  {
    hide *;
    match lv
    case Local(_) => n := SimName(w, code, k, per, lv, d, s);
    case Global(_) => n := SimName(w, code, k, per, lv, d, s);
    case Deref(_) => n := SimDeref(w, code, k, per, lv, d, s);
    case Member(_, _) => n := SimMember(w, code, k, per, lv, d, s);
    case CommaL(_, _) => n := SimCommaL(w, code, k, per, lv, d, s);
  }

  lemma SimE(w: World, code: seq<Instr>, k: Links, per: nat, e: Expr, d: nat, s: State) returns (n: nat)
    requires StartE(w, code, k, per, e, d, s)
    ensures DoneE(w, code, k, per, e, d, s, n)
    decreases s.fuel, e, 1
  {
    hide *;
    match e
    case Num(_, _) => n := SimNum(w, code, k, per, e, d, s);
    case Load(_, _) => n := SimLoad(w, code, k, per, e, d, s);
    case Addr(_) => n := SimLoad(w, code, k, per, e, d, s);
    case Assign(_, _, _) => n := SimAssign(w, code, k, per, e, d, s);
    case Cast(_, _) => n := SimUnary(w, code, k, per, e, d, s);
    case Bin(_, _, _, _) => n := SimBin(w, code, k, per, e, d, s);
    case Cmp(_, _, _) => n := SimCmp(w, code, k, per, e, d, s);
    case Not(_) => n := SimUnary(w, code, k, per, e, d, s);
    case BitNot(_, _) => n := SimUnary(w, code, k, per, e, d, s);
    case LogAnd(_, _) => n := SimLog(w, code, k, per, e, d, s);
    case LogOr(_, _) => n := SimLog(w, code, k, per, e, d, s);
    case Cond(_, _, _, _) => n := SimCond(w, code, k, per, e, d, s);
    case Comma(_, _) => n := SimComma(w, code, k, per, e, d, s);
    case Call(_, _, _) => n := SimCall(w, code, k, per, e, d, s);
  }

  // ---- calls -------------------------------------------------------------------

  lemma WaitingCons(stk: map<int, int>, base: int, v: int, vs: seq<int>)
    requires At(stk, base - 8) == Enc(v) && Waiting(stk, base - 8, vs)
    ensures Waiting(stk, base, [v] + vs)
  {
    hide Enc, At;
    forall i | 0 <= i < |[v] + vs|
      ensures At(stk, base - 8 * (i + 1)) == Enc(([v] + vs)[i])
    {
      if i > 0 {
        assert At(stk, base - 8 - 8 * (i - 1 + 1)) == Enc(vs[i - 1]);
      }
    }
  }

  lemma SimA(w: World, code: seq<Instr>, k: Links, per: nat, args: Args, d: nat, s: State) returns (n: nat)
    requires StartA(w, code, k, per, args, d, s)
    ensures DoneA(w, code, k, per, args, d, s, n)
    decreases s.fuel, args, 1
  {
    hide Run, Ready, CodeAt, GenE, EvalE, WellTyped, ETy, StkKept, Enc, Waiting, At;
    if args.NoArgs? {
      n := 0;
      RunNone(w, code, s);
      NoneWaiting(s);
    } else {
      n := SimArg(w, code, k, per, args, d, s);
    }
  }

  lemma NoneWaiting(s: State)
    ensures Waiting(s.stk, s.rsp, []) && StkKept(s.rsp, s.stk, s.stk)
  {
  }

  lemma SimArg(w: World, code: seq<Instr>, k: Links, per: nat, args: Args, d: nat, s: State) returns (n: nat)
    requires args.Arg? && StartA(w, code, k, per, args, d, s)
    ensures DoneA(w, code, k, per, args, d, s, n)
    decreases s.fuel, args, 0
  {
    hide Run, Ready, CodeAt, GenE, GenA, EvalE, EvalA, WellTyped, WellTypedA, ETy, StkKept, Enc, Waiting, At;
    var c1, c2 := CodeArg(args, d, s.pc, k);
    var v, vs := MeanArg(w, args, s.rbp, s.rsp, s.mem, s.fuel);
    CodeSplit(code, s.pc, c1 + [PushRax], c2);
    CodeSplit(code, s.pc, c1, [PushRax]);
    n := SimE(w, code, k, per, args.e, d, s);
    if v.Ok? {
      var s2 := AfterFirst(w, code, per, |c1|, d, s, n, v);
      var m := SimA(w, code, k, per, args.rest, d + 1, s2);
      if !vs.Ok? {
        LeftAfter(w, code, k, per, |c1| + 1 + |c2|, s, n + 1, m, |c2|, vs);
      } else {
        var u, t := Run(w, code, s, n), Run(w, code, s2, m);
        RunAdd(w, code, s, n + 1, m);
        StkPush(s.rsp, u.stk, s.rsp - 8, u.rax, t.stk);
        StkKeptThrough(s.rsp, s.stk, u.stk, t.stk);
        WaitingCons(t.stk, s.rsp, v.v, vs.v);
      }
      n := n + 1 + m;
    }
  }

  /** The call instruction itself, with aligned stack and loaded registers. */
  ghost predicate Called(w: World, code: seq<Instr>, k: Links, per: nat, size: nat, callee: Callee,
                         vs: seq<int>, s: State, n: nat, ty: Ty)
  {
    0 <= s.fuel &&
    var r := Invoke(w, callee, vs, s.rsp, s.mem, s.fuel);
    var t := Run(w, code, s, n);
    if r.Ok? then
      && Kept(s, t) && t.pc == s.pc + size && t.mem == r.mem && t.fuel == r.fuel
      && (ty.Int? ==> t.rax == Enc(r.v)) && n + per * r.fuel <= size + per + per * s.fuel
    else Left(k, per, size + per, s, n, t, r)
  }

  lemma SimKernel(w: World, code: seq<Instr>, k: Links, per: nat, callee: Callee, vs: seq<int>, s: State, ty: Ty)
    returns (n: nat)
    requires callee.Kernel? && s.status == Running && 0 <= s.fuel && s.rsp % 16 == 0 && InRegs(s.r, vs)
    requires CodeAt(code, s.pc, CallCode(callee, |vs|, s.pc, k))
    ensures Called(w, code, k, per, |CallCode(callee, |vs|, s.pc, k)|, callee, vs, s, n, ty)
  {
    hide Run, InRegs, CodeAt;
    KernelRun(w, code, s, callee.addr, vs);
    var v := w.kern(callee.addr, Encs(vs), s.mem, s.fuel).v;
    EncWord(v);
    n := 2;
  }

  lemma SimUnitCall(w: World, code: seq<Instr>, k: Links, per: nat, callee: Callee, vs: seq<int>, s: State, ty: Ty)
    returns (n: nat)
    requires callee.Unit? && callee.index < |w.funcs| && |vs| == |w.funcs[callee.index].params|
    requires ty.Int? ==> w.funcs[callee.index].ret.Int?
    requires Ready(w, code, k, per) && InFrame(w, s, 0) && InRegs(s.r, vs)
    requires CodeAt(code, s.pc, CallCode(callee, |vs|, s.pc, k))
    ensures Called(w, code, k, per, |CallCode(callee, |vs|, s.pc, k)|, callee, vs, s, n, ty)
    decreases s.fuel, 1
  {
    hide Run, InRegs, CodeAt, RunFunc, Enc, StkKept, At;
    ReadyLinks(w, code, k, per);
    CallStep(w, code, s, k.fn[callee.index] - (s.pc + 1));
    var s1 := Run(w, code, s, 1);
    var m := SimF(w, code, k, per, callee.index, vs, s1);
    RunAdd(w, code, s, 1, m);
    n := 1 + m;
    var r := RunFunc(w, w.funcs[callee.index], vs, s.rsp, s.mem, s.fuel);
    if r.Ok? {
      CallKept(s, s1, Run(w, code, s1, m));
    } else {
      LeftAfter(w, code, k, per, 1 + per, s, 1, m, per, r);
    }
  }

  lemma ReadyLinks(w: World, code: seq<Instr>, k: Links, per: nat)
    requires Ready(w, code, k, per)
    ensures |k.fn| == |w.funcs|
  {
  }

  lemma CallKept(s: State, s1: State, t: State)
    requires s1.rsp == s.rsp - 8 && s1.stk == s.stk[s.rsp - 8 := s.pc + 1] && StkKept(s1.rsp + 8, s1.stk, t.stk)
    ensures StkKept(s.rsp, s.stk, t.stk) && At(s1.stk, s1.rsp) == s.pc + 1
  {
    forall x | x >= s.rsp
      ensures At(s.stk, x) == At(t.stk, x)
    {
      assert At(s1.stk, x) == At(t.stk, x);
    }
  }

  /** From the arguments waiting on the stack to the normalised result. */
  lemma SimEnter(w: World, code: seq<Instr>, k: Links, per: nat, e: Expr, vs: seq<int>, d: nat, base: int,
                 v: Out<int>, s: State) returns (n: nat)
    requires e.Call? && |vs| == Count(e.args) <= 6
    requires e.callee.Unit? ==> e.callee.index < |w.funcs|
                                && |w.funcs[e.callee.index].params| == |vs|
                                && (e.ty.Int? ==> w.funcs[e.callee.index].ret.Int?)
    requires Ready(w, code, k, per) && s.status == Running && s.rt.limit == w.limit && 0 < s.fuel
    requires s.rsp == base - 8 * |vs| && Waiting(s.stk, base, vs) && (base + 8 * d) % 16 == 0
    requires v == Invoke(w, e.callee, vs, base - base % 16, s.mem, s.fuel - 1)
    requires CodeAt(code, s.pc, Enter(e.callee, e.ty, |vs|, d, s.pc, k))
    ensures var size := |Enter(e.callee, e.ty, |vs|, d, s.pc, k)|;
            var t := Run(w, code, s, n);
            if v.Ok? then
              && t.status == Running && t.pc == s.pc + size && t.rsp == base && t.rbp == s.rbp && t.rt == s.rt
              && StkKept(base - base % 16, s.stk, t.stk) && t.mem == v.mem && t.fuel == v.fuel
              && (e.ty.Int? ==> t.rax == Enc(As(v.v, e.ty))) && n + per * v.fuel <= size + per * s.fuel
            else Left(k, per, size, s, n, t, v)
    decreases s.fuel, e.args, 0
  {
    hide Run, CodeAt, Enc, As, StkKept, At, Waiting, InRegs, Enter, Pops, Pad, CallCode, Norm, Invoke, Ready;
    EnterParts(code, s.pc, e.callee, e.ty, |vs|, d, k);
    var m, t := EnterRun(w, code, s, d, vs, base, k.fuel);
    AlignPad(base, d);
    var c := |CallCode(e.callee, |vs|, t.pc, k)|;
    var m2: nat;
    if e.callee.Kernel? {
      m2 := SimKernel(w, code, k, per, e.callee, vs, t, e.ty);
    } else {
      m2 := SimUnitCall(w, code, k, per, e.callee, vs, t, e.ty);
    }
    Spend(per, s.fuel);
    if v.Ok? {
      RunAdd(w, code, s, m, m2);
      var m3, u := LeaveRun(w, code, Run(w, code, t, m2), d, base, e.ty, v.v);
      RunAdd(w, code, s, m + m2, m3);
      n := m + m2 + m3;
    } else {
      LeftAfter(w, code, k, per, |Enter(e.callee, e.ty, |vs|, d, s.pc, k)|, s, m, m2, c + per, v);
      n := m + m2;
    }
  }

  lemma Spend(per: nat, fuel: int)
    ensures per * fuel == per + per * (fuel - 1)
  {
  }

  lemma StkKeptUp(lo: int, hi: int, a: map<int, int>, b: map<int, int>)
    requires lo <= hi && StkKept(lo, a, b)
    ensures StkKept(hi, a, b)
  {
  }

  lemma SimCall(w: World, code: seq<Instr>, k: Links, per: nat, e: Expr, d: nat, s: State) returns (n: nat)
    requires e.Call? && StartE(w, code, k, per, e, d, s)
    ensures DoneE(w, code, k, per, e, d, s, n)
    decreases s.fuel, e, 0
  {
    hide Run, CodeAt, Enc, As, StkKept, At, Waiting, Enter, Invoke, Ready, GenE, GenA, EvalE, EvalA, WellTyped,
      WellTypedA, ETy, Count;
    var c1, c2 := CodeCall(e, d, s.pc, k);
    var a, v := MeanCall(w, e, s.rbp, s.rsp, s.mem, s.fuel);
    CodeSplit(code, s.pc, c1, c2);
    n := SimA(w, code, k, per, e.args, d, s);
    if a.Ok? {
      var s1 := Run(w, code, s, n);
      if a.fuel == 0 {
        var m := SimNoFuel(w, code, k, per, e, a.v, d, s.rsp, s1);
        LeftAfter<int>(w, code, k, per, |c1| + |c2|, s, n, m, |c2|, NoFuel(a.mem));
        n := n + m;
      } else {
        var m := SimEnter(w, code, k, per, e, a.v, d, s.rsp, v, s1);
        if v.Ok? {
          var t := Run(w, code, s1, m);
          RunAdd(w, code, s, n, m);
          StkKeptUp(s.rsp - s.rsp % 16, s.rsp, s1.stk, t.stk);
          StkKeptThrough(s.rsp, s.stk, s1.stk, t.stk);
        } else {
          LeftAfter(w, code, k, per, |c1| + |c2|, s, n, m, |c2|, v);
        }
        n := n + m;
      }
    }
  }

  /** A call with no fuel left aborts before it is made. */
  lemma SimNoFuel(w: World, code: seq<Instr>, k: Links, per: nat, e: Expr, vs: seq<int>, d: nat, base: int, s: State)
    returns (n: nat)
    requires e.Call? && |vs| == Count(e.args) <= 6
    requires s.status == Running && s.fuel == 0
    requires s.rsp == base - 8 * |vs| && Waiting(s.stk, base, vs) && (base + 8 * d) % 16 == 0
    requires CodeAt(code, s.pc, Enter(e.callee, e.ty, |vs|, d, s.pc, k))
    ensures Left<int>(k, per, |Enter(e.callee, e.ty, |vs|, d, s.pc, k)|, s, n, Run(w, code, s, n), NoFuel(s.mem))
  {
    hide Run, CodeAt, Enc, Waiting, InRegs, Enter, Pops, Pad, CallCode, Norm;
    EnterParts(code, s.pc, e.callee, e.ty, |vs|, d, k);
    var m, t := EnterRun(w, code, s, d, vs, base, k.fuel);
    n := m;
  }

  lemma Parts(code: seq<Instr>, pc: int, a: seq<Instr>, b: seq<Instr>, c: seq<Instr>, d: seq<Instr>, e: seq<Instr>)
    requires CodeAt(code, pc, a + b + c + d + e)
    ensures CodeAt(code, pc, a) && CodeAt(code, pc + |a|, b) && CodeAt(code, pc + |a| + |b|, c)
    ensures CodeAt(code, pc + |a| + |b| + |c|, d) && CodeAt(code, pc + |a| + |b| + |c| + |d|, e)
  {
    hide CodeAt;
    CodeSplit(code, pc, a + b + c + d, e);
    CodeSplit(code, pc, a + b + c, d);
    CodeSplit(code, pc, a + b, c);
    CodeSplit(code, pc, a, b);
  }

  lemma Parts4(code: seq<Instr>, pc: int, a: seq<Instr>, b: seq<Instr>, c: seq<Instr>, d: seq<Instr>)
    requires CodeAt(code, pc, a + b + c + d)
    ensures CodeAt(code, pc, a) && CodeAt(code, pc + |a|, b) && CodeAt(code, pc + |a| + |b|, c)
    ensures CodeAt(code, pc + |a| + |b| + |c|, d)
  {
    hide CodeAt;
    CodeSplit(code, pc, a + b + c, d);
    CodeSplit(code, pc, a + b, c);
    CodeSplit(code, pc, a, b);
  }

  // ---- functions -----------------------------------------------------------------

  lemma FuncParts(w: World, code: seq<Instr>, k: Links, per: nat, i: nat) returns (size: nat, epi: int)
    requires Ready(w, code, k, per) && i < |w.funcs|
    ensures |k.fn| == |w.funcs|
    ensures var f, at := w.funcs[i], k.fn[i];
            && WellFormedFunc(w, f) && size == |Prologue(f, at, k)| && epi == at + size + SizeS(f.body) + 1
            && CodeAt(code, at, Prologue(f, at, k))
            && CodeAt(code, at + size, GenS(f.body, at + size, k, Exits(0, 0, epi)))
            && CodeAt(code, epi - 1, [BoolLast(false)]) && CodeAt(code, epi, [MovRspRbp, PopRbp, Ret])
            && size + Weight(f.body) + 4 <= per
  {
    hide CodeAt, Prologue, GenS, SizeS, Weight, WellFormedFunc;
    var f, at := w.funcs[i], k.fn[i];
    LenPrologue(f, at, k, 0, Links(0, 0, []));
    var c1 := Prologue(f, at, k);
    size := |c1|;
    epi := at + size + SizeS(f.body) + 1;
    var c2 := GenS(f.body, at + size, k, Exits(0, 0, epi));
    SizeOfS(f.body, at + size, k, Exits(0, 0, epi));
    assert WeightF(f) <= per;
    assert CodeAt(code, at, GenF(f, at, k));
    assert GenF(f, at, k) == c1 + c2 + [XorEax] + [MovRspRbp, PopRbp, Ret];
    CodeSplit(code, at, c1 + c2 + [XorEax], [MovRspRbp, PopRbp, Ret]);
    CodeSplit(code, at, c1 + c2, [XorEax]);
    CodeSplit(code, at, c1, c2);
  }

  lemma ArgsFromStart(r: Regs, vs: seq<int>)
    requires InRegs(r, vs)
    ensures ArgsFrom(r, 0, vs)
  {
  }

  /** The prologue to its end: both checks passed, the parameters stored. */
  lemma SimPrologue(w: World, code: seq<Instr>, k: Links, per: nat, f: Func, vs: seq<int>, s: State)
    returns (n: nat)
    requires s.status == Running && 0 <= s.fuel && s.rt.limit == w.limit
    requires |f.params| == |vs| <= 6 && InRegs(s.r, vs) && CodeAt(code, s.pc, Prologue(f, s.pc, k))
    ensures n <= |Prologue(f, s.pc, k)|
    ensures var t := Run(w, code, s, n);
            var fp := s.rsp - 8;
            if s.fuel == 0 then
              t.status == Running && t.pc == k.fuel && t.mem == s.mem && t.fuel == -1 && t.rt == s.rt
            else if fp - f.frame < w.limit then
              t.status == Running && t.pc == k.stack && t.mem == s.mem && t.fuel == s.fuel - 1 && t.rt == s.rt
            else
              var p := PutParams(w, f.params, vs, fp, s.mem, s.fuel - 1);
              if p.Ok? then
                && t.status == Running && t.pc == s.pc + |Prologue(f, s.pc, k)| && t.rbp == fp
                && t.rsp == fp - f.frame && t.mem == p.mem && t.fuel == s.fuel - 1 && t.rt == s.rt
                && t.stk == s.stk[fp := s.rbp]
              else p.Wild? || (p.Trap? && t.status == Trapped)
  {
    hide Run, All, CodeAt, InLine, Prologue, InRegs, ArgsFrom, PutParams, ParamCode, Frame;
    PrologueParts(code, s.pc, f, k);
    var m, t := EntryRun(w, code, s, f, k);
    n := m;
    if s.fuel > 0 && s.rsp - 8 - f.frame >= w.limit {
      ArgsFromStart(t.r, vs);
      ParamRun(w, t, f.params, 0, vs);
      RunThen(w, code, s, m, ParamCode(f.params, 0));
      n := m + |ParamCode(f.params, 0)|;
    }
  }

  lemma MeanFunc(w: World, f: Func, vs: seq<int>, top: int, mem: Mem, fuel: nat)
    returns (p: Out<int>, b: Out<Flow>)
    ensures p == if fuel == 0 then NoFuel(mem)
                 else if top - 16 - f.frame < w.limit then NoStack(mem, fuel - 1)
                 else PutParams(w, f.params, vs, top - 16, mem, fuel - 1)
    ensures b == if p.Ok? then Exec(w, f.body, None, top - 16, top - 16 - f.frame, p.mem, fuel - 1) else Wild
    ensures RunFunc(w, f, vs, top, mem, fuel)
            == if !p.Ok? then p
               else if !b.Ok? then b.Fail()
               else if b.v.Gone? then Ok(b.v.v, b.mem, b.fuel)
               else if b.v.Next? then Ok(0, b.mem, b.fuel) else Wild
  {
    hide PutParams, Exec;
    p := if fuel == 0 then NoFuel(mem)
         else if top - 16 - f.frame < w.limit then NoStack(mem, fuel - 1)
         else PutParams(w, f.params, vs, top - 16, mem, fuel - 1);
    b := if p.Ok? then Exec(w, f.body, None, top - 16, top - 16 - f.frame, p.mem, fuel - 1) else Wild;
  }

  lemma FrameKept(s: State, u: State, t: State, fp: int)
    requires fp == s.rsp - 8 && u.rsp <= fp && u.stk == s.stk[fp := s.rbp] && StkKept(u.rsp, u.stk, t.stk)
    ensures At(t.stk, fp) == s.rbp && At(t.stk, fp + 8) == At(s.stk, s.rsp)
    ensures StkKept(s.rsp + 8, s.stk, t.stk)
  {
    assert At(u.stk, fp) == At(t.stk, fp) && At(u.stk, fp + 8) == At(t.stk, fp + 8);
    forall x | x >= s.rsp + 8
      ensures At(s.stk, x) == At(t.stk, x)
    {
      assert At(u.stk, x) == At(t.stk, x);
    }
  }

  /** Falling off the end returns 0; both ways out restore the caller's frame. */
  lemma SimReturn(w: World, code: seq<Instr>, s: State, epi: int, falls: bool) returns (n: nat)
    requires s.status == Running && s.pc == (if falls then epi - 1 else epi)
    requires CodeAt(code, epi - 1, [BoolLast(false)]) && CodeAt(code, epi, [MovRspRbp, PopRbp, Ret])
    ensures n <= 4
    ensures Run(w, code, s, n)
            == s.(pc := At(s.stk, s.rbp + 8), rsp := s.rbp + 16, rbp := At(s.stk, s.rbp),
                  rax := if falls then 0 else s.rax)
  {
    hide Run, CodeAt, At;
    if falls {
      BoolRun(w, code, s, false);
      EpilogueRun(w, code, Run(w, code, s, 1));
      RunAdd(w, code, s, 1, 3);
      n := 4;
    } else {
      EpilogueRun(w, code, s);
      n := 3;
    }
  }

  lemma SimF(w: World, code: seq<Instr>, k: Links, per: nat, i: nat, vs: seq<int>, s: State) returns (n: nat)
    requires StartF(w, code, k, per, i, vs, s)
    ensures DoneF(w, code, k, per, i, vs, s, n)
    decreases s.fuel, 0
  {
    hide Run, CodeAt, At, StkKept, Enc, InRegs, GenS, SizeS, Weight, WellFormed, Prologue, PutParams, Exec, RunFunc,
      BoolLast;
    var f := w.funcs[i];
    var size, epi := FuncParts(w, code, k, per, i);
    var p, b := MeanFunc(w, f, vs, s.rsp + 8, s.mem, s.fuel);
    n := SimPrologue(w, code, k, per, f, vs, s);
    NonNeg(per, s.fuel);
    if p.Ok? {
      Spend(per, s.fuel);
      var u := Run(w, code, s, n);
      var c := Ctx(u.pc, Exits(0, 0, epi), f.ret, false, false);
      StartBody(f.body);
      var m := SimS(w, code, k, per, f.body, None, c, u);
      if !b.Ok? {
        LeftAfter(w, code, k, per, per, s, n, m, Weight(f.body), b);
        n := n + m;
      } else if b.v.Next? || b.v.Gone? {
        RunAdd(w, code, s, n, m);
        var t := Run(w, code, u, m);
        FrameKept(s, u, t, s.rsp - 8);
        var l := SimReturn(w, code, t, epi, b.v.Next?);
        RunAdd(w, code, s, n + m, l);
        EncWord(0);
        n := n + m + l;
      }
    }
  }

  lemma StartBody(b: Stmt)
    ensures Enters(b, None) && Entry(b, None) == 0
  {
  }

  // ---- statements ------------------------------------------------------------------

  lemma EndsAfter(w: World, code: seq<Instr>, k: Links, per: nat, wt: nat, wt2: nat, goal: int, x: Exits, ret: Ty,
                  s: State, n1: nat, n2: nat, r: Out<Flow>)
    requires var s1 := Run(w, code, s, n1);
             && Kept(s, s1) && 0 <= s1.fuel && n1 + per * s1.fuel + wt2 <= wt + per * s.fuel
             && Ends(w, code, k, per, wt2, goal, x, ret, s1, n2, r)
    ensures Ends(w, code, k, per, wt, goal, x, ret, s, n1 + n2, r)
  {
    hide Run, Enc, Kept;
    var s1 := Run(w, code, s, n1);
    if r.Ok? {
      RunAdd(w, code, s, n1, n2);
      KeptThrough(s, s1, Run(w, code, s1, n2));
    } else {
      KeptRt(s, s1);
      LeftAfter(w, code, k, per, wt, s, n1, n2, wt2, r);
    }
  }

  lemma EndsFail(w: World, code: seq<Instr>, k: Links, per: nat, wt: nat, size: nat, goal: int, x: Exits, ret: Ty,
                 s: State, n: nat, r: Out<int>)
    requires !r.Ok? && size <= wt && Left(k, per, size, s, n, Run(w, code, s, n), r)
    ensures Ends(w, code, k, per, wt, goal, x, ret, s, n, r.Fail<Flow>())
  {
    hide Run;
  }

  /** A statement followed by a jump over `rel` instructions. */
  lemma EndsJump(w: World, code: seq<Instr>, k: Links, per: nat, wt: nat, mid: int, x: Exits, ret: Ty,
                 s: State, n: nat, r: Out<Flow>, rel: int) returns (n2: nat)
    requires Ends(w, code, k, per, wt, mid, x, ret, s, n, r) && CodeAt(code, mid, [J(Always, rel)])
    ensures Ends(w, code, k, per, wt + 1, mid + 1 + rel, x, ret, s, n2, r)
  {
    hide Run, Enc, CodeAt, StkKept;
    n2 := n;
    if r.Ok? && r.v.Next? {
      JumpStep(w, code, Run(w, code, s, n), Always, rel);
      RunAdd(w, code, s, n, 1);
      n2 := n + 1;
    }
  }

  lemma EndsNow(w: World, code: seq<Instr>, k: Links, per: nat, wt: nat, goal: int, x: Exits, ret: Ty,
                s: State, n: nat, v: Flow)
    requires var t := Run(w, code, s, n);
             && Kept(s, t) && 0 <= t.fuel && t.pc == Target(v, goal, x) && !v.Gone?
             && n + per * t.fuel <= wt + per * s.fuel
    ensures var t := Run(w, code, s, n);
            Ends(w, code, k, per, wt, goal, x, ret, s, n, Ok(v, t.mem, t.fuel))
  {
    hide Run;
  }

  lemma SimSeq(w: World, code: seq<Instr>, k: Links, per: nat, b: Stmt, key: Option<Key>, c: Ctx, s: State)
    returns (n: nat)
    requires b.Seq? && StartS(w, code, k, per, b, key, c, s)
    ensures DoneS(w, code, k, per, b, key, c, s, n)
    decreases s.fuel, b, 0
  {
    hide Run, Ready, CodeAt, GenS, SizeS, Weight, Exec, HasCase, CaseOff, Kept, StkKept, Enc, Enters, Entry;
    var c1, c2 := CodeSeq(b, c.at, k, c.x);
    var x, y := MeanSeq(w, b, key, s.rbp, s.rsp, s.mem, s.fuel);
    CodeSplit(code, c.at, c1, c2);
    SeqEntry(b, key);
    var cb := c.(at := c.at + |c1|);
    if key.Some? && !HasCase(b.s1, key.value) {
      n := SimS(w, code, k, per, b.s2, key, cb, s);
      EndsWider(w, code, k, per, Weight(b), Weight(b.s2), c.at + SizeS(b), c.x, c.ret, s, n, y);
    } else {
      n := SimS(w, code, k, per, b.s1, key, c, s);
      if x.Ok? && x.v.Next? {
        var s1 := Run(w, code, s, n);
        KeptRt(s, s1);
        StartBody(b.s2);
        var m := SimS(w, code, k, per, b.s2, None, cb, s1);
        EndsAfter(w, code, k, per, Weight(b), Weight(b.s2), c.at + SizeS(b), c.x, c.ret, s, n, m, y);
        n := n + m;
      }
    }
  }

  lemma EndsWider(w: World, code: seq<Instr>, k: Links, per: nat, wt: nat, wt2: nat, goal: int, x: Exits, ret: Ty,
                  s: State, n: nat, r: Out<Flow>)
    requires wt2 <= wt && Ends(w, code, k, per, wt2, goal, x, ret, s, n, r)
    ensures Ends(w, code, k, per, wt, goal, x, ret, s, n, r)
  {
    hide Run, Kept, Enc;
  }

  /** Nothing, a break, a continue: at most one jump. */
  lemma SimGo(w: World, code: seq<Instr>, k: Links, per: nat, b: Stmt, key: Option<Key>, c: Ctx, s: State)
    returns (n: nat)
    requires (b.Nop? || b.Break? || b.Continue?) && StartS(w, code, k, per, b, key, c, s)
    ensures DoneS(w, code, k, per, b, key, c, s, n)
  {
    hide Run, Ready, CodeAt, Enc, WellTyped, EvalE, HasCase, Enters;
    if b.Nop? {
      n := 0;
      RunNone(w, code, s);
    } else {
      n := 1;
      var to := if b.Break? then c.x.brk else c.x.cont;
      JumpStep(w, code, s, Always, to - (c.at + 1));
    }
  }

  lemma SimEval(w: World, code: seq<Instr>, k: Links, per: nat, b: Stmt, key: Option<Key>, c: Ctx, s: State)
    returns (n: nat)
    requires b.Eval? && StartS(w, code, k, per, b, key, c, s)
    ensures DoneS(w, code, k, per, b, key, c, s, n)
    decreases s.fuel, b, 0
  {
    hide Run, Ready, CodeAt, Enc, WellTyped, EvalE, GenE, ETy, SizeE, HasCase, Enters, StkKept;
    SizeOfE(b.e, 0, c.at, k);
    n := SimE(w, code, k, per, b.e, 0, s);
  }

  lemma SimReturnS(w: World, code: seq<Instr>, k: Links, per: nat, b: Stmt, key: Option<Key>, c: Ctx, s: State)
    returns (n: nat)
    requires b.Return? && StartS(w, code, k, per, b, key, c, s)
    ensures DoneS(w, code, k, per, b, key, c, s, n)
    decreases s.fuel, b, 0
  {
    hide Run, Ready, CodeAt, Enc, WellTyped, EvalE, GenE, ETy, SizeO, HasCase, Enters, StkKept, GenS, Weight, SizeS;
    var c1 := CodeReturn(b, c.at, k, c.x);
    var j := Far(Always, c.x.epi, c.at + |c1|);
    CodeSplit(code, c.at, c1, [j]);
    n := 0;
    if b.ret.None? {
      NoneWaiting(s);
      JumpStep(w, code, s, Always, j.rel);
      n := 1;
    } else {
      n := SimE(w, code, k, per, b.ret.value, 0, s);
      var r := EvalE(w, b.ret.value, s.rbp, s.rsp, s.mem, s.fuel);
      if r.Ok? {
        JumpStep(w, code, Run(w, code, s, n), Always, j.rel);
        RunAdd(w, code, s, n, 1);
        n := n + 1;
      } else {
        EndsFail(w, code, k, per, Weight(b), |c1|, c.at + SizeS(b), c.x, c.ret, s, n, r);
      }
    }
  }

  lemma SimZero(w: World, code: seq<Instr>, k: Links, per: nat, b: Stmt, key: Option<Key>, c: Ctx, s: State)
    returns (n: nat)
    requires b.MemZero? && StartS(w, code, k, per, b, key, c, s)
    ensures DoneS(w, code, k, per, b, key, c, s, n)
  {
    hide Run, All, Data, Ready, CodeAt, Enc, ZeroFill, ZeroCode, HasCase, Enters;
    var i := LeaRaxRbp(b.off);
    CodeSplit(code, c.at, [i], ZeroCode(b.size));
    assert InLine([i]);
    RunAll(w, code, s, [i]);
    All1(w, i, s);
    DataOther(w, i, s.(pc := s.pc + 1));
    var s1 := Run(w, code, s, 1);
    n := 1;
    NonNeg(per, s.fuel);
    if b.size > 0 {
      var m := ZeroRun(w, code, s1, b.size);
      RunAdd(w, code, s, 1, m);
      n := 1 + m;
    } else {
      NoZero();
    }
  }

  lemma NoZero()
    ensures ZeroCode(0) == []
  {
  }

  lemma SimCase(w: World, code: seq<Instr>, k: Links, per: nat, b: Stmt, key: Option<Key>, c: Ctx, s: State)
    returns (n: nat)
    requires b.Case? && StartS(w, code, k, per, b, key, c, s)
    ensures DoneS(w, code, k, per, b, key, c, s, n)
    decreases s.fuel, b, 0
  {
    hide Run, Ready, CodeAt, Enc, Enters, Entry, HasCase, Ends;
    CaseEntry(b, key);
    n := SimS(w, code, k, per, b.body, if key == Some(b.key) then None else key, c, s);
  }

  // ---- if --------------------------------------------------------------------------

  lemma SimIfElse(w: World, code: seq<Instr>, k: Links, per: nat, b: Stmt, c: Ctx, s: State) returns (n: nat)
    requires b.If? && b.f.Some? && StartS(w, code, k, per, b, None, c, s)
    ensures DoneS(w, code, k, per, b, None, c, s, n)
    decreases s.fuel, b, 0
  {
    hide Run, Ready, CodeAt, Enc, Fits, WellTyped, WellFormed, EvalE, GenE, ETy, HasCase, Enters, Entry, StkKept,
      GenS, Weight, SizeS, Exec, SizeE, CaseOff;
    var c1, c2, c3 := CodeIf(b, c.at, k, c.x);
    var v, x := MeanIf(w, b, s.rbp, s.rsp, s.mem, s.fuel);
    Parts(code, c.at, c1, [TestRax, J(Z, |c2| + 1)], c2, [J(Always, |c3|)], c3);
    IfTyped(w, b, c.ret, c.brk, c.cont);
    StartBody(b);
    n := SimE(w, code, k, per, b.c, 0, s);
    if !v.Ok? {
      EndsFail(w, code, k, per, Weight(b), |c1|, c.at + SizeS(b), c.x, c.ret, s, n, v);
    } else {
      EvalFits(w, b.c, s.rbp, s.rsp, s.mem, s.fuel);
      var s1 := AfterTest(w, code, per, |c1|, s, n, ETy(b.c), v, Z, |c2| + 1);
      n := n + 2;
      var m: nat;
      if v.v != 0 {
        StartBody(b.t);
        m := SimS(w, code, k, per, b.t, None, c.(at := c.at + |c1| + 2), s1);
        m := EndsJump(w, code, k, per, Weight(b.t), c.at + |c1| + 2 + |c2|, c.x, c.ret, s1, m, x, |c3|);
        EndsAfter(w, code, k, per, Weight(b), Weight(b.t) + 1, c.at + SizeS(b), c.x, c.ret, s, n, m, x);
      } else {
        StartBody(b.f.value);
        m := SimS(w, code, k, per, b.f.value, None, c.(at := c.at + |c1| + 2 + |c2| + 1), s1);
        EndsAfter(w, code, k, per, Weight(b), Weight(b.f.value), c.at + SizeS(b), c.x, c.ret, s, n, m, x);
      }
      n := n + m;
    }
  }

  lemma SimIfOnly(w: World, code: seq<Instr>, k: Links, per: nat, b: Stmt, c: Ctx, s: State) returns (n: nat)
    requires b.If? && b.f.None? && StartS(w, code, k, per, b, None, c, s)
    ensures DoneS(w, code, k, per, b, None, c, s, n)
    decreases s.fuel, b, 0
  {
    hide Run, Ready, CodeAt, Enc, Fits, WellTyped, WellFormed, EvalE, GenE, ETy, HasCase, Enters, Entry, StkKept,
      GenS, Weight, SizeS, Exec, SizeE, CaseOff;
    var c1, c2 := CodeWhen(b, c.at, k, c.x);
    var v, x := MeanIf(w, b, s.rbp, s.rsp, s.mem, s.fuel);
    CodeSplit(code, c.at, c1 + [TestRax, J(Z, |c2|)], c2);
    CodeSplit(code, c.at, c1, [TestRax, J(Z, |c2|)]);
    IfTyped(w, b, c.ret, c.brk, c.cont);
    StartBody(b);
    n := SimE(w, code, k, per, b.c, 0, s);
    if !v.Ok? {
      EndsFail(w, code, k, per, Weight(b), |c1|, c.at + SizeS(b), c.x, c.ret, s, n, v);
    } else {
      EvalFits(w, b.c, s.rbp, s.rsp, s.mem, s.fuel);
      var s1 := AfterTest(w, code, per, |c1|, s, n, ETy(b.c), v, Z, |c2|);
      n := n + 2;
      if v.v != 0 {
        StartBody(b.t);
        var m := SimS(w, code, k, per, b.t, None, c.(at := c.at + |c1| + 2), s1);
        EndsAfter(w, code, k, per, Weight(b), Weight(b.t), c.at + SizeS(b), c.x, c.ret, s, n, m, x);
        n := n + m;
      } else {
        EndsNow(w, code, k, per, Weight(b), c.at + SizeS(b), c.x, c.ret, s, n, Next);
      }
    }
  }

  /** Entering an if at a case label inside one of its branches. */
  lemma SimIfCase(w: World, code: seq<Instr>, k: Links, per: nat, b: Stmt, key: Key, c: Ctx, s: State) returns (n: nat)
    requires b.If? && StartS(w, code, k, per, b, Some(key), c, s)
    ensures DoneS(w, code, k, per, b, Some(key), c, s, n)
    decreases s.fuel, b, 0
  {
    hide Run, Ready, CodeAt, Enc, WellTyped, WellFormed, EvalE, GenE, ETy, HasCase, StkKept,
      GenS, Weight, SizeS, Exec, SizeE, CaseOff;
    MeanIfCase(w, b, key, s.rbp, s.rsp, s.mem, s.fuel);
    IfTyped(w, b, c.ret, c.brk, c.cont);
    var r := Exec(w, b, Some(key), s.rbp, s.rsp, s.mem, s.fuel);
    if b.f.Some? {
      var c1, c2, c3 := CodeIf(b, c.at, k, c.x);
      Parts(code, c.at, c1, [TestRax, J(Z, |c2| + 1)], c2, [J(Always, |c3|)], c3);
      if HasCase(b.t, key) {
        n := SimS(w, code, k, per, b.t, Some(key), c.(at := c.at + |c1| + 2), s);
        n := EndsJump(w, code, k, per, Weight(b.t), c.at + |c1| + 2 + |c2|, c.x, c.ret, s, n, r, |c3|);
        EndsWider(w, code, k, per, Weight(b), Weight(b.t) + 1, c.at + SizeS(b), c.x, c.ret, s, n, r);
      } else {
        n := SimS(w, code, k, per, b.f.value, Some(key), c.(at := c.at + |c1| + 2 + |c2| + 1), s);
        EndsWider(w, code, k, per, Weight(b), Weight(b.f.value), c.at + SizeS(b), c.x, c.ret, s, n, r);
      }
    } else {
      var c1, c2 := CodeWhen(b, c.at, k, c.x);
      CodeSplit(code, c.at, c1 + [TestRax, J(Z, |c2|)], c2);
      n := SimS(w, code, k, per, b.t, Some(key), c.(at := c.at + |c1| + 2), s);
      EndsWider(w, code, k, per, Weight(b), Weight(b.t), c.at + SizeS(b), c.x, c.ret, s, n, r);
    }
  }

  // ---- loops -----------------------------------------------------------------------

  lemma SimO(w: World, code: seq<Instr>, k: Links, per: nat, e: Option<Expr>, s: State) returns (n: nat)
    requires Ready(w, code, k, per) && InFrame(w, s, 0) && (e.Some? ==> WellTyped(w, e.value))
    requires CodeAt(code, s.pc, GenO(e, s.pc, k))
    ensures Computes(w, code, k, per, |GenO(e, s.pc, k)|, s, n, Void, EvalO(w, e, s.rbp, s.rsp, s.mem, s.fuel))
    decreases s.fuel, e, 0
  {
    hide Run, Ready, CodeAt, Enc, WellTyped, EvalE, GenE, ETy, StkKept;
    n := 0;
    if e.Some? {
      n := SimE(w, code, k, per, e.value, 0, s);
    } else {
      RunNone(w, code, s);
      NoneWaiting(s);
    }
  }

  /** The test came out `r`: control is past it, or at the loop's end. */
  ghost predicate Tested(w: World, code: seq<Instr>, k: Links, per: nat, size: nat, lend: int,
                         s: State, n: nat, r: Out<int>)
  {
    var t := Run(w, code, s, n);
    if r.Ok? then
      && Kept(s, t) && t.mem == r.mem && t.fuel == r.fuel && n + per * r.fuel <= size + per * s.fuel
      && t.pc == if r.v == 0 then lend else s.pc + size
    else Left(k, per, size, s, n, t, r)
  }

  lemma SimTest(w: World, code: seq<Instr>, k: Links, per: nat, e: Option<Expr>, when: bool, lend: int, s: State)
    returns (n: nat)
    requires Ready(w, code, k, per) && InFrame(w, s, 0)
    requires e.Some? ==> WellTyped(w, e.value) && ETy(e.value).Int?
    requires CodeAt(code, s.pc, GenTest(e, when, lend, s.pc, k))
    ensures Tested(w, code, k, per, |GenTest(e, when, lend, s.pc, k)|, lend, s, n,
                   if when then EvalO(w, e, s.rbp, s.rsp, s.mem, s.fuel) else Ok(1, s.mem, s.fuel))
    decreases s.fuel, e, 0
  {
    hide Run, Ready, CodeAt, Enc, WellTyped, EvalE, GenE, ETy, StkKept, Fits;
    n := 0;
    if when && e.Some? {
      var c1 := GenE(e.value, 0, s.pc, k);
      var j := Far(Z, lend, s.pc + |c1| + 1);
      CodeSplit(code, s.pc, c1, [TestRax, j]);
      n := SimE(w, code, k, per, e.value, 0, s);
      var r := EvalE(w, e.value, s.rbp, s.rsp, s.mem, s.fuel);
      if r.Ok? {
        EvalFits(w, e.value, s.rbp, s.rsp, s.mem, s.fuel);
        var s1 := AfterTest(w, code, per, |c1|, s, n, ETy(e.value), r, Z, j.rel);
        n := n + 2;
      }
    } else {
      RunNone(w, code, s);
      NoneWaiting(s);
    }
  }

  /** dec fuel; js abort; jmp top. */
  lemma BackEdge(w: World, code: seq<Instr>, s: State, top: int, fuel: int)
    requires s.status == Running && 0 <= s.fuel
    requires CodeAt(code, s.pc, [DecFuel, Far(S, fuel, s.pc + 1), Far(Always, top, s.pc + 2)])
    ensures var t := Run(w, code, s, if s.fuel == 0 then 2 else 3);
            && t.status == Running && t.rsp == s.rsp && t.rbp == s.rbp && t.mem == s.mem && t.stk == s.stk
            && t.rt == s.rt && t.fuel == s.fuel - 1 && t.pc == if s.fuel == 0 then fuel else top
  {
    hide Run, CodeAt;
    var a, b := [DecFuel, Far(S, fuel, s.pc + 1)], [Far(Always, top, s.pc + 2)];
    assert [DecFuel, Far(S, fuel, s.pc + 1), Far(Always, top, s.pc + 2)] == a + b;
    CodeSplit(code, s.pc, a, b);
    FuelCheck(w, code, s, fuel);
    if s.fuel > 0 {
      JumpStep(w, code, Run(w, code, s, 2), Always, top - (s.pc + 3));
      RunAdd(w, code, s, 2, 1);
    }
  }

  /** From the `continue` point on. */
  lemma SimTail(w: World, code: seq<Instr>, k: Links, per: nat, b: Stmt, c: Ctx, s: State) returns (n: nat)
    requires b.Loop? && Ready(w, code, k, per) && InFrame(w, s, 0) && WellFormed(w, b, c.ret, c.brk, c.cont)
    requires Weight(b) <= per && CodeAt(code, c.at, GenS(b, c.at, k, c.x)) && s.pc == LoopMarks(b, c.at).cont
    ensures var m := LoopMarks(b, c.at);
            m.end >= m.cont &&
            Ends(w, code, k, per, m.end - m.cont, m.end, c.x, c.ret, s, n,
                 Tail(w, b, s.rbp, s.rsp, s.mem, s.fuel))
    decreases s.fuel, b, 2
  {
    hide Run, Ready, CodeAt, Enc, WellTyped, WellFormed, EvalE, GenE, ETy, StkKept, GenS, GenO, GenTest, Weight, SizeS,
      Exec, Tail, EvalO, LoopMarks, Entry, Enters;
    var l := LoopMarks(b, c.at);
    var c1, c2, c3, c4, c5 := CodeLoop(b, c.at, k, c.x);
    var p, u := MeanTail(w, b, s.rbp, s.rsp, s.mem, s.fuel);
    Parts(code, c.at, c1, c2, c3, c4, c5);
    LoopTyped(w, b, c.ret, c.brk, c.cont);
    n := SimO(w, code, k, per, b.post, s);
    if !p.Ok? {
      EndsFail(w, code, k, per, l.end - l.cont, |c3|, l.end, c.x, c.ret, s, n, p);
    } else {
      var s1 := Run(w, code, s, n);
      var m := SimTest(w, code, k, per, b.cond, !b.testFirst, l.end, s1);
      var r := SimLast(w, code, k, per, b, c, s1, m, u);
      EndsAfter(w, code, k, per, l.end - l.cont, |c4| + 3, l.end, c.x, c.ret, s, n, r,
                Tail(w, b, s.rbp, s.rsp, s.mem, s.fuel));
      n := n + r;
    }
  }

  /** After the trailing test: out, or round again on less fuel. */
  lemma SimLast(w: World, code: seq<Instr>, k: Links, per: nat, b: Stmt, c: Ctx, s: State, m: nat, u: Out<int>)
    returns (n: nat)
    requires b.Loop? && Ready(w, code, k, per) && InFrame(w, s, 0) && WellFormed(w, b, c.ret, c.brk, c.cont)
    requires Weight(b) <= per && CodeAt(code, c.at, GenS(b, c.at, k, c.x))
    requires u.Ok? ==> u.fuel <= s.fuel
    requires var l := LoopMarks(b, c.at);
             && l.back >= l.test && s.pc == l.test
             && Tested(w, code, k, per, l.back - l.test, l.end, s, m, u)
    ensures var l := LoopMarks(b, c.at);
            Ends(w, code, k, per, l.back - l.test + 3, l.end, c.x, c.ret, s, n,
                 if !u.Ok? then u.Fail() else if u.v == 0 then Ok(Next, u.mem, u.fuel)
                 else if u.fuel == 0 then NoFuel(u.mem)
                 else Exec(w, b, None, s.rbp, s.rsp, u.mem, u.fuel - 1))
    decreases s.fuel, b, 1
  {
    hide Run, Ready, CodeAt, Enc, WellFormed, StkKept, GenS, Weight, SizeS, Exec, LoopMarks, Entry, Enters;
    var l := LoopMarks(b, c.at);
    var wt := l.back - l.test + 3;
    var c1, c2, c3, c4, c5 := CodeLoop(b, c.at, k, c.x);
    Parts(code, c.at, c1, c2, c3, c4, c5);
    n := m;
    if !u.Ok? {
      EndsFail(w, code, k, per, wt, l.back - l.test, l.end, c.x, c.ret, s, n, u);
    } else if u.v != 0 {
      BackEdge(w, code, Run(w, code, s, m), c.at, k.fuel);
      var j := if u.fuel == 0 then 2 else 3;
      RunAdd(w, code, s, m, j);
      n := m + j;
      if u.fuel > 0 {
        Spend(per, u.fuel);
        var s1 := Run(w, code, s, n);
        StartBody(b);
        var q := SimS(w, code, k, per, b, None, c, s1);
        EndsAfter(w, code, k, per, wt, Weight(b), l.end, c.x, c.ret, s, n, q,
                  Exec(w, b, None, s.rbp, s.rsp, u.mem, u.fuel - 1)) by {
          LoopEnd(b, c.at);
        }
        n := n + q;
      } else {
        NonNeg(per, s.fuel);
      }
    }
  }

  lemma LoopEnd(b: Stmt, at: int)
    requires b.Loop?
    ensures LoopMarks(b, at).end == at + SizeS(b)
  {
  }

  /** The body has run; go on from wherever it left. */
  lemma SimAround(w: World, code: seq<Instr>, k: Links, per: nat, b: Stmt, c: Ctx, s: State, m: nat, r: Out<Flow>)
    returns (n: nat)
    requires b.Loop? && Ready(w, code, k, per) && InFrame(w, s, 0) && WellFormed(w, b, c.ret, c.brk, c.cont)
    requires Weight(b) <= per && CodeAt(code, c.at, GenS(b, c.at, k, c.x))
    requires r.Ok? ==> r.fuel <= s.fuel
    requires var l := LoopMarks(b, c.at);
             l.end >= l.cont &&
             Ends(w, code, k, per, Weight(b.body), l.cont, Exits(l.end, l.cont, c.x.epi), c.ret, s, m, r)
    ensures var l := LoopMarks(b, c.at);
            Ends(w, code, k, per, Weight(b.body) + (l.end - l.cont), l.end, c.x, c.ret, s, n,
                 if !r.Ok? || r.v.Gone? then r
                 else if r.v.Brk? then Ok(Next, r.mem, r.fuel)
                 else Tail(w, b, s.rbp, s.rsp, r.mem, r.fuel))
    decreases s.fuel, b, 3
  {
    hide Run, Ready, CodeAt, Enc, WellFormed, StkKept, GenS, Weight, SizeS, Exec, LoopMarks, Tail;
    var l := LoopMarks(b, c.at);
    n := m;
    if r.Ok? && (r.v.Next? || r.v.Cont?) {
      var s1 := Run(w, code, s, m);
      var q := SimTail(w, code, k, per, b, c, s1);
      EndsAfter(w, code, k, per, Weight(b.body) + (l.end - l.cont), l.end - l.cont, l.end, c.x, c.ret, s, m, q,
                Tail(w, b, s.rbp, s.rsp, r.mem, r.fuel));
      n := m + q;
    }
  }

  lemma SimLoop(w: World, code: seq<Instr>, k: Links, per: nat, b: Stmt, key: Option<Key>, c: Ctx, s: State)
    returns (n: nat)
    requires b.Loop? && StartS(w, code, k, per, b, key, c, s)
    ensures DoneS(w, code, k, per, b, key, c, s, n)
    decreases s.fuel, b, 4
  {
    hide Run, Ready, CodeAt, Enc, WellTyped, WellFormed, EvalE, GenE, ETy, StkKept, GenS, GenO, GenTest, Weight, SizeS,
      Exec, Tail, EvalO, LoopMarks, Entry, Enters, CaseOff, HasCase, SizeTest;
    var l := LoopMarks(b, c.at);
    var c1, c2, c3, c4, c5 := CodeLoop(b, c.at, k, c.x);
    var v, r := MeanIterate(w, b, key, s.rbp, s.rsp, s.mem, s.fuel);
    Parts(code, c.at, c1, c2, c3, c4, c5);
    LoopTyped(w, b, c.ret, c.brk, c.cont);
    LoopEntry(b, key);
    LoopEnd(b, c.at);
    n := 0;
    RunNone(w, code, s);
    if key.None? {
      StartBody(b);
      n := SimTest(w, code, k, per, b.cond, b.testFirst, l.end, s);
    } else {
      LoopBody(b, c.at);
      NoneWaiting(s);
    }
    if !v.Ok? {
      EndsFail(w, code, k, per, Weight(b), |c1|, l.end, c.x, c.ret, s, n, v);
    } else if v.v == 0 {
      EndsNow(w, code, k, per, Weight(b), l.end, c.x, c.ret, s, n, Next);
    } else {
      var s1 := Run(w, code, s, n);
      if key.None? {
        StartBody(b.body);
      }
      var m := SimS(w, code, k, per, b.body, key, Ctx(l.body, Exits(l.end, l.cont, c.x.epi), c.ret, true, true), s1);
      var q := SimAround(w, code, k, per, b, c, s1, m, r);
      EndsAfter(w, code, k, per, Weight(b), Weight(b.body) + (l.end - l.cont), l.end, c.x, c.ret, s, n, q,
                Exec(w, b, key, s.rbp, s.rsp, s.mem, s.fuel));
      n := n + q;
    }
  }

  lemma LoopBody(b: Stmt, at: int)
    requires b.Loop?
    ensures LoopMarks(b, at).body == at + SizeTest(b.cond, b.testFirst)
  {
  }

  // ---- switch ----------------------------------------------------------------------

  /** From the value in rax to the chosen label, or past the switch. */
  lemma SimChain(w: World, code: seq<Instr>, s: State, ty: Ty, v: int, b: Stmt, body: int, other: int)
    returns (n: nat)
    requires b.Switch? && s.status == Running && ty.Int? && Fits(v, ty.w, ty.uns) && s.rax == Enc(v)
    requires forall u :: u in b.keys ==> Fits(u, ty.w, ty.uns)
    requires CodeAt(code, s.pc, Chain(b.keys, b.body, body, s.pc))
    requires CodeAt(code, s.pc + 3 * |b.keys|, [Far(Always, other, s.pc + 3 * |b.keys|)])
    ensures n <= 3 * |b.keys| + 1
    ensures var t := Run(w, code, s, n);
            OnlyRegs(s, t) && t.pc == if v in b.keys then body + CaseOff(b.body, CaseOf(v)) else other
  {
    hide Run, CodeAt, Enc, Fits, CaseOff, Chain;
    n := ChainRun(w, code, s, ty, v, b.keys, b.body, body);
    if v !in b.keys {
      JumpStep(w, code, Run(w, code, s, n), Always, other - (s.pc + 3 * |b.keys| + 1));
      RunAdd(w, code, s, n, 1);
      n := n + 1;
    }
  }

  /** A break inside the body leaves the switch at its end. */
  lemma EndsSwitch(w: World, code: seq<Instr>, k: Links, per: nat, wt: nat, lend: int, x: Exits, ret: Ty,
                   s: State, n: nat, r: Out<Flow>)
    requires Ends(w, code, k, per, wt, lend, Exits(lend, x.cont, x.epi), ret, s, n, r)
    ensures Ends(w, code, k, per, wt, lend, x, ret, s, n,
                 if r.Ok? && r.v.Brk? then Ok(Next, r.mem, r.fuel) else r)
  {
    hide Run, Kept, Enc;
  }

  lemma SimSwitch(w: World, code: seq<Instr>, k: Links, per: nat, b: Stmt, key: Option<Key>, c: Ctx, s: State)
    returns (n: nat)
    requires b.Switch? && StartS(w, code, k, per, b, key, c, s)
    ensures DoneS(w, code, k, per, b, key, c, s, n)
    decreases s.fuel, b, 0
  {
    hide Run, Ready, CodeAt, Enc, Fits, WellTyped, WellFormed, EvalE, GenE, ETy, StkKept, GenS, Weight, SizeS,
      Exec, CaseOff, HasCase, Chain;
    var c1, c2, c4 := CodeSwitch(b, c.at, k, c.x);
    var v, x, to := MeanSwitch(w, b, key, s.rbp, s.rsp, s.mem, s.fuel);
    var a2 := c.at + |c1| + |c2|;
    var lend := a2 + 1 + |c4|;
    var other := if b.dflt then a2 + 1 + CaseOff(b.body, Default) else lend;
    Parts4(code, c.at, c1, c2, [Far(Always, other, a2)], c4);
    SwitchLabels(w, b, c.ret, c.brk, c.cont, if v.Ok? then v.v else 0);
    NoLabels(b, key);
    n := SimE(w, code, k, per, b.c, 0, s);
    if !v.Ok? {
      EndsFail(w, code, k, per, Weight(b), |c1|, lend, c.x, c.ret, s, n, v);
    } else {
      EvalFits(w, b.c, s.rbp, s.rsp, s.mem, s.fuel);
      var m := SimChain(w, code, Run(w, code, s, n), ETy(b.c), v.v, b, a2 + 1, other);
      RunAdd(w, code, s, n, m);
      n := n + m;
      if v.v in b.keys || b.dflt {
        var s1 := Run(w, code, s, n);
        var y := Exits(lend, c.x.cont, c.x.epi);
        m := SimS(w, code, k, per, b.body, Some(to), Ctx(a2 + 1, y, c.ret, true, c.cont), s1);
        EndsSwitch(w, code, k, per, Weight(b.body), lend, c.x, c.ret, s1, m, x);
        EndsAfter(w, code, k, per, Weight(b), Weight(b.body), lend, c.x, c.ret, s, n, m,
                  Exec(w, b, key, s.rbp, s.rsp, s.mem, s.fuel));
        n := n + m;
      } else {
        EndsNow(w, code, k, per, Weight(b), lend, c.x, c.ret, s, n, Next);
      }
    }
  }

  lemma NoLabels(b: Stmt, key: Option<Key>)
    requires b.Switch?
    ensures Entry(b, key) == 0
  {
  }

  lemma SimS(w: World, code: seq<Instr>, k: Links, per: nat, b: Stmt, key: Option<Key>, c: Ctx, s: State)
    returns (n: nat)
    requires StartS(w, code, k, per, b, key, c, s)
    ensures DoneS(w, code, k, per, b, key, c, s, n)
    decreases s.fuel, b, 5
  {
    hide *;
    match b
    case Nop => n := SimGo(w, code, k, per, b, key, c, s);
    case Seq(_, _) => n := SimSeq(w, code, k, per, b, key, c, s);
    case Eval(_) => n := SimEval(w, code, k, per, b, key, c, s);
    case MemZero(_, _) => n := SimZero(w, code, k, per, b, key, c, s);
    case Return(_) => n := SimReturnS(w, code, k, per, b, key, c, s);
    case If(_, _, f) =>
      if key.Some? {
        n := SimIfCase(w, code, k, per, b, key.value, c, s);
      } else if f.Some? {
        n := SimIfElse(w, code, k, per, b, c, s);
      } else {
        n := SimIfOnly(w, code, k, per, b, c, s);
      }
    case Loop(_, _, _, _) => n := SimLoop(w, code, k, per, b, key, c, s);
    case Break => n := SimGo(w, code, k, per, b, key, c, s);
    case Continue => n := SimGo(w, code, k, per, b, key, c, s);
    case Case(_, _) => n := SimCase(w, code, k, per, b, key, c, s);
    case Switch(_, _, _, _) => n := SimSwitch(w, code, k, per, b, key, c, s);
  }
}
