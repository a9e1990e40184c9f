// Gluing runs together: pushes and pops around an operand, arguments into
// registers, the fuel check, and the bookkeeping of a run that left early.

module SimMoves {
  import opened Words
  import opened CTree
  import opened X64
  import opened Gen
  import opened SimBase
  import opened SimOps

  /** A run that failed after a first stretch has failed as a whole. */
  lemma LeftAfter<T>(w: World, code: seq<Instr>, k: Links, per: nat, wt: nat, s: State,
                     n1: nat, n2: nat, wt2: nat, r: Out<T>)
    requires !r.Ok?
    requires var s1 := Run(w, code, s, n1);
             && s1.rt == s.rt && 0 <= s1.fuel && n1 + per * s1.fuel + wt2 <= wt + per * s.fuel
             && Left(k, per, wt2, s1, n2, Run(w, code, s1, n2), r)
    ensures Left(k, per, wt, s, n1 + n2, Run(w, code, s, n1 + n2), r)
  {
    hide Run;
    RunAdd(w, code, s, n1, n2);
  }



  /** Run a straight stretch after `n` steps. */
  lemma RunThen(w: World, code: seq<Instr>, s: State, n: nat, seg: seq<Instr>)
    requires var t := Run(w, code, s, n); t.status == Running && CodeAt(code, t.pc, seg)
    requires InLine(seg)
    ensures Run(w, code, s, n + |seg|) == All(w, seg, Run(w, code, s, n))
  {
    hide Run, All;
    RunAdd(w, code, s, n, |seg|);
    RunAll(w, code, Run(w, code, s, n), seg);
  }

  /** Push rax. */
  lemma PushRun(w: World, s: State)
    requires s.status == Running
    ensures All(w, [PushRax], s)
            == s.(pc := s.pc + 1, rsp := s.rsp - 8, stk := s.stk[s.rsp - 8 := s.rax])
  {
    hide All, Data;
    All1(w, PushRax, s);
    DataStack(w, PushRax, s.(pc := s.pc + 1));
  }

  lemma PopRun(w: World, s: State, x: Reg)
    requires s.status == Running
    ensures All(w, [Pop(x)], s)
            == s.(pc := s.pc + 1, rsp := s.rsp + 8, r := SetReg(s.r, x, Enc(At(s.stk, s.rsp))))
  {
    hide All, Data, SetReg;
    All1(w, Pop(x), s);
    DataStack(w, Pop(x), s.(pc := s.pc + 1));
  }

  lemma StkKeptThrough(lo: int, a: map<int, int>, b: map<int, int>, c: map<int, int>)
    requires StkKept(lo, a, b) && StkKept(lo, b, c)
    ensures StkKept(lo, a, c)
  {
  }

  lemma StkPush(lo: int, a: map<int, int>, x: int, v: int, c: map<int, int>)
    requires StkKept(x, a[x := v], c) && x < lo
    ensures StkKept(lo, a, c) && At(c, x) == v
  {
    forall y | y >= lo
      ensures At(a, y) == At(c, y)
    {
      assert At(a[x := v], y) == At(c, y);
    }
    assert At(a[x := v], x) == At(c, x);
  }

  /** After the first operand: push it, ready for the second. */
  lemma AfterFirst(w: World, code: seq<Instr>, per: nat, size: nat, d: nat,
                   s: State, n: nat, r: Out<int>) returns (s2: State)
    requires InFrame(w, s, d) && r.Ok?
    requires Through(per, size, size, s, n, Run(w, code, s, n), r)
    requires CodeAt(code, s.pc + size, [PushRax])
    ensures s2 == Run(w, code, s, n + 1)
    ensures var t := Run(w, code, s, n);
            s2 == t.(pc := t.pc + 1, rsp := t.rsp - 8, stk := t.stk[t.rsp - 8 := t.rax])
    ensures InFrame(w, s2, d + 1)
  {
    hide Run, All;
    var t := Run(w, code, s, n);
    assert InLine([PushRax]);
    RunThen(w, code, s, n, [PushRax]);
    PushRun(w, t);
    s2 := Run(w, code, s, n + 1);
  }

  /** After the second operand: the first one comes back in rdi. */
  lemma AfterSecond(w: World, code: seq<Instr>, per: nat, size1: nat, size2: nat,
                    s: State, n1: nat, r1: Out<int>, s2: State, n2: nat, r2: Out<int>)
    returns (t: State)
    requires r1.Ok? && r2.Ok? && s.status == Running
    requires Through(per, size1, size1, s, n1, Run(w, code, s, n1), r1)
    requires s2 == Run(w, code, s, n1 + 1)
    requires var u := Run(w, code, s, n1);
             s2 == u.(pc := u.pc + 1, rsp := u.rsp - 8, stk := u.stk[u.rsp - 8 := u.rax])
    requires Through(per, size2, size2, s2, n2, Run(w, code, s2, n2), r2)
    requires CodeAt(code, s.pc + size1 + 1 + size2, [Pop(Rdi)])
    ensures t == Run(w, code, s, n1 + 1 + n2 + 1)
    ensures t.pc == s.pc + size1 + 1 + size2 + 1 && Kept(s, t)
    ensures t.mem == r2.mem && t.fuel == r2.fuel
    ensures t.rax == Run(w, code, s2, n2).rax && t.r.rdi == Run(w, code, s, n1).rax
    ensures n1 + 1 + n2 + 1 + per * r2.fuel <= size1 + 1 + size2 + 1 + per * s.fuel
  {
    hide Run, All;
    var u, v := Run(w, code, s, n1), Run(w, code, s2, n2);
    RunAdd(w, code, s, n1 + 1, n2);
    assert InLine([Pop(Rdi)]);
    RunThen(w, code, s, n1 + 1 + n2, [Pop(Rdi)]);
    PopRun(w, v, Rdi);
    t := Run(w, code, s, n1 + 1 + n2 + 1);
    StkPush(s.rsp, u.stk, s.rsp - 8, u.rax, v.stk);
    StkKeptThrough(s.rsp, s.stk, u.stk, v.stk);
    EncWord(u.rax);
  }

  lemma EncWord(x: Word)
    ensures Enc(x) == x
  {
  }

  /** A conditional jump on its own. */
  lemma JumpStep(w: World, code: seq<Instr>, s: State, cc: CC, rel: int)
    requires s.status == Running && CodeAt(code, s.pc, [J(cc, rel)])
    ensures Run(w, code, s, 1) == s.(pc := s.pc + 1 + (if Holds(s.fl, cc) then rel else 0))
  {
    hide Data, Holds;
    Fetch(code, s.pc, [J(cc, rel)], 0);
    RunSnoc(w, code, s, 0);
  }

  /** test rax, rax and the jump that follows it. */
  lemma TestJump(w: World, code: seq<Instr>, s: State, ty: Ty, v: int, cc: CC, rel: int)
    requires s.status == Running && ty.Int? && Fits(v, ty.w, ty.uns) && s.rax == Enc(v)
    requires CodeAt(code, s.pc, [TestRax, J(cc, rel)]) && (cc == Z || cc == NZ)
    ensures var t := Run(w, code, s, 2);
            && OnlyRegs(s, t) && t.rax == s.rax
            && t.pc == s.pc + 2 + (if (v == 0) == (cc == Z) then rel else 0)
  {
    hide Run, All, Data, Fits, Enc;
    assert [TestRax, J(cc, rel)] == [TestRax] + [J(cc, rel)];
    CodeSplit(code, s.pc, [TestRax], [J(cc, rel)]);
    assert InLine([TestRax]);
    RunAll(w, code, s, [TestRax]);
    All1(w, TestRax, s);
    TestRun(w, s, ty, v);
    var t := Run(w, code, s, 1);
    JumpStep(w, code, t, cc, rel);
    RunAdd(w, code, s, 1, 1);
  }

  /** dec qword [r15]; js abort_fuel. */
  lemma FuelCheck(w: World, code: seq<Instr>, s: State, target: int)
    requires s.status == Running && 0 <= s.fuel
    requires CodeAt(code, s.pc, [DecFuel, Far(S, target, s.pc + 1)])
    ensures var t := Run(w, code, s, 2);
            && t.status == Running && t.rax == s.rax && t.r == s.r && t.rsp == s.rsp && t.rbp == s.rbp
            && t.mem == s.mem && t.stk == s.stk && t.rt == s.rt && t.fuel == s.fuel - 1
            && t.pc == if s.fuel == 0 then target else s.pc + 2
  {
    hide Run, All, Data;
    var j := Far(S, target, s.pc + 1);
    assert [DecFuel, j] == [DecFuel] + [j];
    CodeSplit(code, s.pc, [DecFuel], [j]);
    assert InLine([DecFuel]);
    RunAll(w, code, s, [DecFuel]);
    All1(w, DecFuel, s);
    DataFlag(w, DecFuel, s.(pc := s.pc + 1));
    JumpStep(w, code, Run(w, code, s, 1), S, j.rel);
    RunAdd(w, code, s, 1, 1);
  }

  /** Arguments waiting on the stack below `base`, the first highest. */
  ghost predicate Waiting(stk: map<int, int>, base: int, vs: seq<int>) {
    forall i :: 0 <= i < |vs| ==> At(stk, base - 8 * (i + 1)) == Enc(vs[i])
  }

  ghost predicate InRegs(r: Regs, vs: seq<int>) {
    forall i :: 0 <= i < |vs| ==> GetReg(r, ArgReg(i)) == Enc(vs[i])
  }

  lemma SetGet(r: Regs, x: Reg, v: Word, y: Reg)
    ensures GetReg(SetReg(r, x, v), y) == if x == y then v else GetReg(r, y)
  {
  }

  lemma ArgRegInjective(i: nat, j: nat)
    requires i < 6 && j < 6 && ArgReg(i) == ArgReg(j)
    ensures i == j
  {
  }

  /** Popping in reverse puts argument i in the i'th SysV register. */
  lemma {:induction false} PopsRun(w: World, s: State, n: nat, vs: seq<int>, base: int)
    requires s.status == Running && n <= |vs| <= 6 && s.rsp == base - 8 * n
    requires Waiting(s.stk, base, vs)
    requires forall i :: n <= i < |vs| ==> GetReg(s.r, ArgReg(i)) == Enc(vs[i])
    ensures InLine(Pops(n)) && |Pops(n)| == n
    ensures var t := All(w, Pops(n), s);
            InRegs(t.r, vs) && t == s.(pc := s.pc + n, rsp := base, r := t.r)
    decreases n
  {
    hide All, Data, GetReg, SetReg, ArgReg, Enc;
    if n == 0 {
      AllNone(w, s);
    } else {
      var x := ArgReg(n - 1);
      AllAdd(w, [Pop(x)], Pops(n - 1), s);
      PopRun(w, s, x);
      var t := All(w, [Pop(x)], s);
      EncWord(Enc(vs[n - 1]));
      assert At(s.stk, base - 8 * ((n - 1) + 1)) == Enc(vs[n - 1]);
      forall i | n - 1 <= i < |vs|
        ensures GetReg(t.r, ArgReg(i)) == Enc(vs[i])
      {
        SetGet(s.r, x, Enc(vs[n - 1]), ArgReg(i));
        if ArgReg(i) == x {
          ArgRegInjective(i, n - 1);
        }
      }
      PopsRun(w, t, n - 1, vs, base);
    }
  }

  lemma AllNone(w: World, s: State)
    ensures All(w, [], s) == s
  {
  }

  lemma ArgsMatch(r: Regs, vs: seq<int>)
    requires InRegs(r, vs)
    ensures ArgWords(r, |vs|) == Encs(vs)
  {
  }

  /** The pad that keeps rsp 16-aligned at a call when an odd number of words
      is on the stack. */
  lemma PadRun(w: World, s: State, d: nat)
    requires s.status == Running && (s.rsp + 8 * d) % 16 == 0
    ensures var top := s.rsp - s.rsp % 16;
            && top % 16 == 0
            && InLine(Pad(d, SubRsp(8))) && InLine(Pad(d, AddRsp(8)))
            && All(w, Pad(d, SubRsp(8)), s) == s.(pc := s.pc + |Pad(d, SubRsp(8))|, rsp := top)
  {
    hide Data;
    AlignPad(s.rsp, d);
    if d % 2 == 1 {
      All1(w, SubRsp(8), s);
      DataStack(w, SubRsp(8), s.(pc := s.pc + 1));
    }
  }

  lemma UnpadRun(w: World, s: State, d: nat, rsp: int)
    requires s.status == Running && (rsp + 8 * d) % 16 == 0 && s.rsp == rsp - rsp % 16
    ensures All(w, Pad(d, AddRsp(8)), s) == s.(pc := s.pc + |Pad(d, AddRsp(8))|, rsp := rsp)
  {
    hide Data;
    AlignPad(rsp, d);
    if d % 2 == 1 {
      All1(w, AddRsp(8), s);
      DataStack(w, AddRsp(8), s.(pc := s.pc + 1));
    }
  }

  lemma AlignPad(rsp: int, d: nat)
    requires (rsp + 8 * d) % 16 == 0
    ensures rsp % 16 == (if d % 2 == 1 then 8 else 0) && (rsp - rsp % 16) % 16 == 0
  {
  }

  // ---- composing results ---------------------------------------------------

  /** `u` is `t` after a stretch that left the frame alone. */
  ghost predicate Onward(t: State, u: State, size: int, ty: Ty, r: Out<int>)
    requires r.Ok?
  {
    && u.pc == t.pc + size && u.status == Running && u.rsp == t.rsp && u.rbp == t.rbp && u.rt == t.rt
    && u.stk == t.stk && u.mem == r.mem && u.fuel == r.fuel && u.fuel == t.fuel
    && (ty.Int? ==> u.rax == Enc(r.v))
  }

  /** A result followed by straight-line code. */
  lemma AppendSeg(w: World, code: seq<Instr>, k: Links, per: nat, size: nat, s: State, n: nat,
                  ty0: Ty, r0: Out<int>, seg: seq<Instr>, ty: Ty, r: Out<int>) returns (n2: nat)
    requires s.status == Running && CodeAt(code, s.pc + size, seg) && InLine(seg)
    requires Computes(w, code, k, per, size, s, n, ty0, r0)
    requires !r0.Ok? ==> r == r0
    requires r0.Ok? && r.Ok? ==>
               Onward(Run(w, code, s, n), All(w, seg, Run(w, code, s, n)), |seg|, ty, r)
    requires r0.Ok? && !r.Ok? ==>
               r.Wild? || (r.Trap? && All(w, seg, Run(w, code, s, n)).status == Trapped)
    ensures Computes(w, code, k, per, size + |seg|, s, n2, ty, r)
  {
    hide Run, All, Enc, InLine, CodeAt, StkKept;
    n2 := n;
    if r0.Ok? {
      RunThen(w, code, s, n, seg);
      n2 := n + |seg|;
      NonNeg(per, r0.fuel);
    }
  }

  lemma NonNeg(a: nat, b: nat)
    ensures a * b >= 0
  {
  }

  /** A result followed by a jump over `rel` instructions. */
  lemma AppendJump(w: World, code: seq<Instr>, k: Links, per: nat, size: nat, s: State, n: nat,
                   ty: Ty, r: Out<int>, rel: nat) returns (n2: nat)
    requires CodeAt(code, s.pc + size, [J(Always, rel)])
    requires Computes(w, code, k, per, size, s, n, ty, r)
    ensures Computes(w, code, k, per, size + 1 + rel, s, n2, ty, r)
  {
    hide Run, Enc, CodeAt, StkKept;
    n2 := n;
    if r.Ok? {
      JumpStep(w, code, Run(w, code, s, n), Always, rel);
      RunAdd(w, code, s, n, 1);
      n2 := n + 1;
    }
  }

  lemma KeptThrough(s: State, t: State, u: State)
    requires Kept(s, t) && Kept(t, u)
    ensures Kept(s, u)
  {
  }

  /** Having come to `s1` in `n1` steps, what is computed from there is computed
      from `s`. */
  lemma ComputesAfter(w: World, code: seq<Instr>, k: Links, per: nat, size: nat, size2: nat,
                      s: State, n1: nat, n2: nat, ty: Ty, r: Out<int>)
    requires var s1 := Run(w, code, s, n1);
             && Kept(s, s1) && 0 <= s1.fuel && s1.pc + size2 == s.pc + size
             && n1 + per * s1.fuel + size2 <= size + per * s.fuel
             && Computes(w, code, k, per, size2, s1, n2, ty, r)
    ensures Computes(w, code, k, per, size, s, n1 + n2, ty, r)
  {
    hide Run, Enc, Kept;
    var s1 := Run(w, code, s, n1);
    if r.Ok? {
      RunAdd(w, code, s, n1, n2);
      KeptThrough(s, s1, Run(w, code, s1, n2));
    } else {
      KeptRt(s, s1);
      LeftAfter(w, code, k, per, size, s, n1, n2, size2, r);
    }
  }

  lemma KeptRt(s: State, t: State)
    requires Kept(s, t)
    ensures t.rt == s.rt && t.status == Running && t.rsp == s.rsp && t.rbp == s.rbp
  {
  }

  /** A condition, and the jump that tests it. */
  lemma AfterTest(w: World, code: seq<Instr>, per: nat, size: nat, s: State, n: nat,
                  ty: Ty, r: Out<int>, cc: CC, rel: int) returns (s1: State)
    requires r.Ok? && ty.Int? && Fits(r.v, ty.w, ty.uns) && Run(w, code, s, n).rax == Enc(r.v)
    requires Through(per, size, size, s, n, Run(w, code, s, n), r)
    requires CodeAt(code, s.pc + size, [TestRax, J(cc, rel)]) && (cc == Z || cc == NZ)
    ensures s1 == Run(w, code, s, n + 2) && Kept(s, s1) && s1.mem == r.mem && s1.fuel == r.fuel
    ensures s1.rax == Enc(r.v)
    ensures s1.pc == s.pc + size + 2 + (if (r.v == 0) == (cc == Z) then rel else 0)
    ensures n + 2 + per * s1.fuel <= size + 2 + per * s.fuel
  {
    hide Run, Enc, Fits, CodeAt, StkKept;
    var t := Run(w, code, s, n);
    TestJump(w, code, t, ty, r.v, cc, rel);
    RunAdd(w, code, s, n, 2);
    s1 := Run(w, code, s, n + 2);
  }
}
