// Machine facts for the larger pieces of code: booleans, memory accesses,
// calls, prologues and epilogues.

module SimCalls {
  import opened Words
  import opened CTree
  import opened X64
  import opened Gen
  import opened SimBase
  import opened SimOps
  import opened SimOpen
  import opened SimMoves

  // ---- booleans ------------------------------------------------------------

  function BoolLast(or: bool): Instr { if or then MovEaxImm(1) else XorEax }

  function Bit01(b: bool): int { if b then 1 else 0 }

  /** One instruction that leaves 0 or 1 in rax. */
  lemma BoolRun(w: World, code: seq<Instr>, s: State, or: bool)
    requires s.status == Running && CodeAt(code, s.pc, [BoolLast(or)])
    ensures Run(w, code, s, 1) == s.(pc := s.pc + 1, rax := Enc(Bit01(or)))
  {
    hide Run, All, Data;
    assert InLine([BoolLast(or)]);
    RunAll(w, code, s, [BoolLast(or)]);
    All1(w, BoolLast(or), s);
    DataAlu(w, BoolLast(or), s.(pc := s.pc + 1));
  }

  lemma BoolParts(code: seq<Instr>, pc: int, or: bool)
    requires CodeAt(code, pc, BoolCode(or))
    ensures CodeAt(code, pc, [TestRax, J(if or then NZ else Z, 2)])
    ensures CodeAt(code, pc + 2, [BoolLast(!or)]) && CodeAt(code, pc + 3, [J(Always, 1)])
    ensures CodeAt(code, pc + 4, [BoolLast(or)])
  {
    hide CodeAt;
    var a, b := [TestRax, J(if or then NZ else Z, 2)], [BoolLast(!or)];
    var c, d := [J(Always, 1)], [BoolLast(or)];
    assert BoolCode(or) == a + b + c + d;
    CodeSplit(code, pc, a + b + c, d);
    CodeSplit(code, pc, a + b, c);
    CodeSplit(code, pc, a, b);
  }

  /** The second operand of && or || becomes 0 or 1. */
  lemma BoolTail(w: World, code: seq<Instr>, s: State, ty: Ty, v: int, or: bool) returns (m: nat)
    requires s.status == Running && ty.Int? && Fits(v, ty.w, ty.uns) && s.rax == Enc(v)
    requires CodeAt(code, s.pc, BoolCode(or))
    ensures m <= 5
    ensures Holding(s, Run(w, code, s, m), 5, Truth(v))
  {
    hide Run, CodeAt, Enc, Fits, BoolCode, BoolLast;
    BoolParts(code, s.pc, or);
    TestJump(w, code, s, ty, v, if or then NZ else Z, 2);
    var t := Run(w, code, s, 2);
    if (v == 0) == !or {
      BoolRun(w, code, t, or);
      RunAdd(w, code, s, 2, 1);
      m := 3;
    } else {
      BoolRun(w, code, t, !or);
      RunAdd(w, code, s, 2, 1);
      JumpStep(w, code, Run(w, code, s, 3), Always, 1);
      RunAdd(w, code, s, 3, 1);
      m := 4;
    }
  }

  // ---- memory --------------------------------------------------------------

  lemma LoadRun(w: World, s: State, ty: Ty)
    requires s.status == Running && ty.Int? && 0 <= s.fuel
    ensures InLine(LoadCode(ty))
    ensures var r := Get(w, s.rax, ty, s.mem, s.fuel);
            var t := All(w, LoadCode(ty), s);
            if r.Ok? then Onward(s, t, |LoadCode(ty)|, ty, r)
            else r.Wild? || (r.Trap? && t.status == Trapped)
  {
    hide Data, Enc, Conv;
    All1(w, LoadRax(ty.w, ty.uns), s);
    DataMemory(w, LoadRax(ty.w, ty.uns), s.(pc := s.pc + 1));
  }

  lemma StoreRun(w: World, s: State, ty: Ty, a: int, v: int)
    requires s.status == Running && ty.Int? && 0 <= s.fuel
    requires s.r.rdi == a && s.rax == Enc(v)
    ensures var r := Put(w, a, ty, v, s.mem, s.fuel);
            var t := All(w, [StoreRdi(ty.w)], s);
            if r.Ok? then Onward(s, t, 1, ty, r) && t.r == s.r
            else r.Wild? || (r.Trap? && t.status == Trapped)
  {
    hide Data, Enc, StoreLE;
    All1(w, StoreRdi(ty.w), s);
    DataMemory(w, StoreRdi(ty.w), s.(pc := s.pc + 1));
    if a + ty.w.Bytes() <= |s.mem| {
      StoreEnc(s.mem, a, v, ty.w.Bytes());
    }
  }

  // ---- entering and leaving a call -------------------------------------------

  lemma EnterParts(code: seq<Instr>, pc: int, callee: Callee, ty: Ty, n: nat, d: nat, k: Links)
    requires CodeAt(code, pc, Enter(callee, ty, n, d, pc, k))
    ensures var p := pc + |Pops(n)|;
            var q := p + |Pad(d, SubRsp(8))|;
            var c := CallCode(callee, n, q + 2, k);
            && CodeAt(code, pc, Pops(n)) && CodeAt(code, p, Pad(d, SubRsp(8)))
            && CodeAt(code, q, [DecFuel, Far(S, k.fuel, q + 1)])
            && CodeAt(code, q + 2, c)
            && CodeAt(code, q + 2 + |c|, Pad(d, AddRsp(8)))
            && CodeAt(code, q + 2 + |c| + |Pad(d, AddRsp(8))|, Norm(ty))
            && |Enter(callee, ty, n, d, pc, k)|
               == q - pc + 2 + |c| + |Pad(d, AddRsp(8))| + |Norm(ty)|
  {
    hide CodeAt, Pops, Pad, CallCode, Norm;
    var a, b := Pops(n), Pad(d, SubRsp(8));
    var q := pc + |a| + |b|;
    var f := [DecFuel, Far(S, k.fuel, q + 1)];
    var c := CallCode(callee, n, q + 2, k);
    var u, v := Pad(d, AddRsp(8)), Norm(ty);
    assert Enter(callee, ty, n, d, pc, k) == a + b + f + c + u + v by {
      assert a + b + [DecFuel] + [Far(S, k.fuel, q + 1)] == a + b + f;
    }
    CodeSplit(code, pc, a + b + f + c + u, v);
    CodeSplit(code, pc, a + b + f + c, u);
    CodeSplit(code, pc, a + b + f, c);
    CodeSplit(code, pc, a + b, f);
    CodeSplit(code, pc, a, b);
  }

  /** Arguments into registers, the pad, the fuel check. `base` is rsp before
      any argument was pushed. */
  lemma EnterRun(w: World, code: seq<Instr>, s: State, d: nat, vs: seq<int>, base: int, target: int)
    returns (m: nat, t: State)
    requires s.status == Running && 0 <= s.fuel && |vs| <= 6
    requires s.rsp == base - 8 * |vs| && Waiting(s.stk, base, vs) && (base + 8 * d) % 16 == 0
    requires CodeAt(code, s.pc, Pops(|vs|)) && CodeAt(code, s.pc + |Pops(|vs|)|, Pad(d, SubRsp(8)))
    requires var q := s.pc + |Pops(|vs|)| + |Pad(d, SubRsp(8))|;
             CodeAt(code, q, [DecFuel, Far(S, target, q + 1)])
    ensures t == Run(w, code, s, m) && m == |Pops(|vs|)| + |Pad(d, SubRsp(8))| + 2
    ensures t.status == Running && t.rsp == base - base % 16 && t.rbp == s.rbp && t.mem == s.mem
    ensures t.stk == s.stk && t.rt == s.rt && t.fuel == s.fuel - 1 && InRegs(t.r, vs)
    ensures t.pc == if s.fuel == 0 then target else s.pc + m
  {
    hide Run, All, CodeAt, Pops, Pad, InRegs, InLine, Waiting;
    PopsRun(w, s, |vs|, vs, base);
    RunAll(w, code, s, Pops(|vs|));
    var s1 := Run(w, code, s, |Pops(|vs|)|);
    PadRun(w, s1, d);
    RunThen(w, code, s, |Pops(|vs|)|, Pad(d, SubRsp(8)));
    m := |Pops(|vs|)| + |Pad(d, SubRsp(8))|;
    var s2 := Run(w, code, s, m);
    FuelCheck(w, code, s2, target);
    RunAdd(w, code, s, m, 2);
    m := m + 2;
    t := Run(w, code, s, m);
  }

  lemma KernelRun(w: World, code: seq<Instr>, s: State, a: Word, vs: seq<int>)
    requires s.status == Running && s.rsp % 16 == 0 && InRegs(s.r, vs)
    requires CodeAt(code, s.pc, [MovR11Imm(a), CallR11(|vs|)])
    ensures var t := Run(w, code, s, 2);
            var k := w.kern(a, Encs(vs), s.mem, s.fuel);
            t == s.(pc := s.pc + 2, rax := k.v, mem := k.mem, r := k.r)
  {
    hide Run, All, Data, ArgWords, InRegs, Encs;
    var i, j := MovR11Imm(a), CallR11(|vs|);
    assert InLine([i, j]);
    RunAll(w, code, s, [i, j]);
    All2(w, i, j, s);
    DataOther(w, i, s.(pc := s.pc + 1));
    var s1 := s.(pc := s.pc + 1, r := s.r.(r11 := a));
    All1(w, j, s1);
    DataOther(w, j, s1.(pc := s1.pc + 1));
    SameArgs(s.r, s1.r, vs);
    ArgsMatch(s1.r, vs);
  }

  lemma SameArgs(a: Regs, b: Regs, vs: seq<int>)
    requires InRegs(a, vs) && b == a.(r11 := b.r11)
    ensures InRegs(b, vs)
  {
  }

  lemma CallStep(w: World, code: seq<Instr>, s: State, rel: int)
    requires s.status == Running && s.rsp % 16 == 0 && CodeAt(code, s.pc, [CallRel(rel)])
    ensures Run(w, code, s, 1)
            == s.(rsp := s.rsp - 8, stk := s.stk[s.rsp - 8 := s.pc + 1], pc := s.pc + 1 + rel)
  {
    hide Data;
    Fetch(code, s.pc, [CallRel(rel)], 0);
    RunSnoc(w, code, s, 0);
  }

  /** The pad comes off and the result is normalised to the call's type. */
  lemma LeaveRun(w: World, code: seq<Instr>, s: State, d: nat, rsp: int, ty: Ty, v: int)
    returns (m: nat, t: State)
    requires s.status == Running && (rsp + 8 * d) % 16 == 0 && s.rsp == rsp - rsp % 16
    requires ty.Int? ==> s.rax == Enc(v)
    requires CodeAt(code, s.pc, Pad(d, AddRsp(8))) && CodeAt(code, s.pc + |Pad(d, AddRsp(8))|, Norm(ty))
    ensures m == |Pad(d, AddRsp(8))| + |Norm(ty)| && t == Run(w, code, s, m)
    ensures t.status == Running && t.pc == s.pc + m && t.rsp == rsp && t.rbp == s.rbp && t.mem == s.mem
    ensures t.stk == s.stk && t.fuel == s.fuel && t.rt == s.rt
    ensures ty.Int? ==> t.rax == Enc(As(v, ty))
  {
    hide Run, All, CodeAt, Pad, Norm, InLine, Enc, As;
    var p := |Pad(d, AddRsp(8))|;
    UnpadRun(w, s, d, rsp);
    PadInLine(d);
    RunAll(w, code, s, Pad(d, AddRsp(8)));
    var s1 := Run(w, code, s, p);
    InLineCodes(Add, Eq, ty);
    RunThen(w, code, s, p, Norm(ty));
    CastRun(w, s1, ty, v);
    m := p + |Norm(ty)|;
    t := Run(w, code, s, m);
  }

  lemma PadInLine(d: nat)
    ensures InLine(Pad(d, AddRsp(8)))
  {
  }

  // ---- prologue and epilogue -------------------------------------------------

  function Frame(f: Func): seq<Instr> {
    [PushRbp, MovRbpRsp] + (if f.frame > 0 then [SubRsp(f.frame)] else [])
  }

  lemma PrologueParts(code: seq<Instr>, pc: int, f: Func, k: Links)
    requires CodeAt(code, pc, Prologue(f, pc, k))
    ensures var q := pc + |Frame(f)|;
            && CodeAt(code, pc, Frame(f)) && CodeAt(code, q, [DecFuel, Far(S, k.fuel, q + 1)])
            && CodeAt(code, q + 2, [CmpRspLimit]) && CodeAt(code, q + 3, [Far(B, k.stack, q + 3)])
            && CodeAt(code, q + 4, ParamCode(f.params, 0))
            && |Prologue(f, pc, k)| == |Frame(f)| + 4 + |ParamCode(f.params, 0)|
  {
    hide CodeAt, ParamCode;
    var a := Frame(f);
    var q := pc + |a|;
    var b, c, d := [DecFuel, Far(S, k.fuel, q + 1)], [CmpRspLimit], [Far(B, k.stack, q + 3)];
    var e := ParamCode(f.params, 0);
    assert Prologue(f, pc, k) == a + b + c + d + e by {
      assert a + [DecFuel] + [Far(S, k.fuel, q + 1), CmpRspLimit] == a + b + c;
    }
    CodeSplit(code, pc, a + b + c + d, e);
    CodeSplit(code, pc, a + b + c, d);
    CodeSplit(code, pc, a + b, c);
    CodeSplit(code, pc, a, b);
  }

  // The instructions that build and take down a frame.

  lemma DoPushRbp(w: World, s: State)
    ensures Data(w, PushRbp, s) == s.(rsp := s.rsp - 8, stk := s.stk[s.rsp - 8 := s.rbp])
  {
    hide Data;
    DataStack(w, PushRbp, s);
  }

  lemma DoMovRbpRsp(w: World, s: State)
    ensures Data(w, MovRbpRsp, s) == s.(rbp := s.rsp)
  {
    hide Data;
    DataStack(w, MovRbpRsp, s);
  }

  lemma DoSubRsp(w: World, s: State, n: nat)
    ensures Data(w, SubRsp(n), s) == s.(rsp := s.rsp - n)
  {
    hide Data;
    DataStack(w, SubRsp(n), s);
  }

  lemma DoMovRspRbp(w: World, s: State)
    ensures Data(w, MovRspRbp, s) == s.(rsp := s.rbp)
  {
    hide Data;
    DataStack(w, MovRspRbp, s);
  }

  lemma DoPopRbp(w: World, s: State)
    ensures Data(w, PopRbp, s) == s.(rsp := s.rsp + 8, rbp := At(s.stk, s.rsp))
  {
    hide Data;
    DataStack(w, PopRbp, s);
  }

  lemma FrameRun(w: World, s: State, f: Func)
    requires s.status == Running
    ensures InLine(Frame(f))
    ensures All(w, Frame(f), s)
            == s.(pc := s.pc + |Frame(f)|, rsp := s.rsp - 8 - f.frame, rbp := s.rsp - 8,
                  stk := s.stk[s.rsp - 8 := s.rbp])
  {
    hide All, Data;
    var i, j, l := PushRbp, MovRbpRsp, SubRsp(f.frame);
    var s1 := s.(pc := s.pc + 1, rsp := s.rsp - 8, stk := s.stk[s.rsp - 8 := s.rbp]);
    var s2 := s1.(pc := s1.pc + 1, rbp := s1.rsp);
    DoPushRbp(w, s.(pc := s.pc + 1));
    DoMovRbpRsp(w, s1.(pc := s1.pc + 1));
    if f.frame > 0 {
      assert Frame(f) == [i, j, l];
      All3(w, i, j, l, s);
      All2(w, j, l, s1);
      All1(w, l, s2);
      DoSubRsp(w, s2.(pc := s2.pc + 1), f.frame);
    } else {
      assert Frame(f) == [i, j];
      All2(w, i, j, s);
      All1(w, j, s1);
    }
  }

  /** cmp rsp, [limit]; jb abort_stack. */
  lemma StackCheck(w: World, code: seq<Instr>, s: State, target: int)
    requires s.status == Running
    requires CodeAt(code, s.pc, [CmpRspLimit]) && CodeAt(code, s.pc + 1, [Far(B, target, s.pc + 1)])
    ensures var t := Run(w, code, s, 2);
            && OnlyRegs(s, t) && t.r == s.r
            && t.pc == if s.rsp < s.rt.limit then target else s.pc + 2
  {
    hide Run, All, Data;
    assert InLine([CmpRspLimit]);
    RunAll(w, code, s, [CmpRspLimit]);
    All1(w, CmpRspLimit, s);
    DataFlag(w, CmpRspLimit, s.(pc := s.pc + 1));
    JumpStep(w, code, Run(w, code, s, 1), B, Far(B, target, s.pc + 1).rel);
    RunAdd(w, code, s, 1, 1);
  }

  /** The frame, the fuel check and the stack check, in that order. */
  lemma EntryRun(w: World, code: seq<Instr>, s: State, f: Func, k: Links) returns (m: nat, t: State)
    requires s.status == Running && 0 <= s.fuel && CodeAt(code, s.pc, Prologue(f, s.pc, k))
    ensures m <= |Frame(f)| + 4 && t == Run(w, code, s, m)
    ensures t.status == Running && t.mem == s.mem && t.rt == s.rt && t.fuel == s.fuel - 1
    ensures t.r == s.r && t.rbp == s.rsp - 8 && t.rsp == s.rsp - 8 - f.frame
    ensures t.stk == s.stk[s.rsp - 8 := s.rbp]
    ensures t.pc == if s.fuel == 0 then k.fuel
                    else if t.rsp < s.rt.limit then k.stack
                    else s.pc + |Frame(f)| + 4
  {
    hide Run, All, CodeAt, InLine, Prologue, Frame;
    PrologueParts(code, s.pc, f, k);
    FrameRun(w, s, f);
    RunAll(w, code, s, Frame(f));
    m := |Frame(f)|;
    FuelCheck(w, code, Run(w, code, s, m), k.fuel);
    RunAdd(w, code, s, m, 2);
    m := m + 2;
    if s.fuel > 0 {
      StackCheck(w, code, Run(w, code, s, m), k.stack);
      RunAdd(w, code, s, m, 2);
      m := m + 2;
    }
    t := Run(w, code, s, m);
  }

  /** Arguments i, i+1, ... are still in their registers. */
  ghost predicate ArgsFrom(r: Regs, i: nat, vs: seq<int>) {
    forall j :: 0 <= j < |vs| ==> GetReg(r, ArgReg(i + j)) == Enc(vs[j])
  }

  /** One parameter: mov rax, reg; lea rdi, slot; store. */
  lemma ParamStep(w: World, s: State, p: Param, i: nat, v: int)
    requires s.status == Running && 0 <= s.fuel && GetReg(s.r, ArgReg(i)) == Enc(v)
    ensures var seg := [MovRaxArg(ArgReg(i)), LeaRdiRbp(p.off), StoreRdi(p.w)];
            var t := All(w, seg, s);
            var r := Put(w, Enc(s.rbp + p.off), Int(p.w, true), v, s.mem, s.fuel);
            if r.Ok? then Onward(s, t, 3, Void, r) && t.r == s.r.(rdi := t.r.rdi)
            else r.Wild? || (r.Trap? && t.status == Trapped)
  {
    hide All, Data, Put, Enc, GetReg, ArgReg;
    var a, b, c := MovRaxArg(ArgReg(i)), LeaRdiRbp(p.off), StoreRdi(p.w);
    All3(w, a, b, c, s);
    DataOther(w, a, s.(pc := s.pc + 1));
    var s1 := s.(pc := s.pc + 1, rax := Enc(v));
    All2(w, b, c, s1);
    DataOther(w, b, s1.(pc := s1.pc + 1));
    var s2 := s1.(pc := s1.pc + 1, r := s1.r.(rdi := Enc(s1.rbp + p.off)));
    StoreRun(w, s2, Int(p.w, true), Enc(s1.rbp + p.off), v);
  }

  lemma ArgsRest(r: Regs, q: Regs, i: nat, vs: seq<int>)
    requires vs != [] && i + |vs| <= 6 && ArgsFrom(r, i, vs) && q == r.(rdi := q.rdi)
    ensures ArgsFrom(q, i + 1, vs[1..])
  {
    forall j | 0 <= j < |vs[1..]|
      ensures GetReg(q, ArgReg(i + 1 + j)) == Enc(vs[1..][j])
    {
      assert GetReg(r, ArgReg(i + (j + 1))) == Enc(vs[j + 1]);
    }
  }

  /** The parameter stores do what PutParams says. */
  lemma {:induction false} ParamRun(w: World, s: State, ps: seq<Param>, i: nat, vs: seq<int>)
    requires s.status == Running && 0 <= s.fuel && |vs| == |ps| && i + |ps| <= 6 && ArgsFrom(s.r, i, vs)
    ensures InLine(ParamCode(ps, i)) && |ParamCode(ps, i)| == 3 * |ps|
    ensures var t := All(w, ParamCode(ps, i), s);
            var r := PutParams(w, ps, vs, s.rbp, s.mem, s.fuel);
            if r.Ok? then Onward(s, t, 3 * |ps|, Void, r)
            else r.Wild? || (r.Trap? && t.status == Trapped)
    decreases |ps|
  {
    hide All, Data, Put, Enc, ArgsFrom;
    if ps == [] {
      AllNone(w, s);
    } else {
      var seg := [MovRaxArg(ArgReg(i)), LeaRdiRbp(ps[0].off), StoreRdi(ps[0].w)];
      FirstArg(s.r, i, vs);
      ParamStep(w, s, ps[0], i, vs[0]);
      ParamInLine(ps[1..], i + 1);
      AllAdd(w, seg, ParamCode(ps[1..], i + 1), s);
      var t := All(w, seg, s);
      if Put(w, Enc(s.rbp + ps[0].off), Int(ps[0].w, true), vs[0], s.mem, s.fuel).Ok? {
        ArgsRest(s.r, t.r, i, vs);
        ParamRun(w, t, ps[1..], i + 1, vs[1..]);
      } else if t.status == Trapped {
        AllStopped(w, t, ParamCode(ps[1..], i + 1));
      }
    }
  }

  lemma FirstArg(r: Regs, i: nat, vs: seq<int>)
    requires vs != [] && ArgsFrom(r, i, vs)
    ensures GetReg(r, ArgReg(i)) == Enc(vs[0])
  {
    assert GetReg(r, ArgReg(i + 0)) == Enc(vs[0]);
  }

  lemma AllStopped(w: World, s: State, seg: seq<Instr>)
    requires s.status != Running
    ensures All(w, seg, s) == s
  {
  }

  lemma {:induction false} ParamInLine(ps: seq<Param>, i: nat)
    ensures InLine(ParamCode(ps, i)) && |ParamCode(ps, i)| == 3 * |ps|
    decreases |ps|
  {
    if ps != [] {
      ParamInLine(ps[1..], i + 1);
    }
  }

  /** mov rsp, rbp; pop rbp; ret. */
  lemma EpilogueRun(w: World, code: seq<Instr>, s: State)
    requires s.status == Running && CodeAt(code, s.pc, [MovRspRbp, PopRbp, Ret])
    ensures Run(w, code, s, 3)
            == s.(pc := At(s.stk, s.rbp + 8), rsp := s.rbp + 16, rbp := At(s.stk, s.rbp))
  {
    hide Run, All, Data, Step, At;
    var i, j := MovRspRbp, PopRbp;
    assert [i, j, Ret] == [i, j] + [Ret];
    CodeSplit(code, s.pc, [i, j], [Ret]);
    assert InLine([i, j]);
    RunAll(w, code, s, [i, j]);
    All2(w, i, j, s);
    DoMovRspRbp(w, s.(pc := s.pc + 1));
    var s1 := s.(pc := s.pc + 1, rsp := s.rbp);
    All1(w, j, s1);
    DoPopRbp(w, s1.(pc := s1.pc + 1));
    RetStep(w, code, Run(w, code, s, 2));
    RunAdd(w, code, s, 2, 1);
  }

  lemma RetStep(w: World, code: seq<Instr>, s: State)
    requires s.status == Running && CodeAt(code, s.pc, [Ret])
    ensures Run(w, code, s, 1) == s.(pc := At(s.stk, s.rsp), rsp := s.rsp + 8)
  {
    hide Data;
    Fetch(code, s.pc, [Ret], 0);
    RunSnoc(w, code, s, 0);
  }
}
