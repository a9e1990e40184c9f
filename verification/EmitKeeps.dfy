// What emitting a construct leaves alone: labels handed out before keep their
// places, the depth returns to what it was, the break and continue stacks are
// as they were, and it leaves no jump waiting except on labels from outside.

module EmitKeeps {
  import opened Words
  import opened CTree
  import opened X64
  import opened Gen
  import opened Emit

  ghost predicate IsPlaced(st: ES, l: int) { 0 <= l < |st.lab| && 0 <= st.lab[l] }

  /** Labels some jump refers to and that have no place yet. */
  ghost function Pending(st: ES): set<int> {
    set i | 0 <= i < |st.items| && st.items[i].Rel? && !IsPlaced(st, st.items[i].to) :: st.items[i].to
  }

  /** The innermost exit, if there is one. */
  ghost function Innermost(exits: seq<int>): set<int> { if exits == [] then {} else {Last(exits)} }

  /** Labels of the unit that any function may jump to. */
  ghost function Shared(v: Env): set<int> { {v.fuel, v.stack} + (set i | 0 <= i < |v.fn| :: v.fn[i]) }

  /** Labels from outside that a construct may jump to. */
  ghost function Outside(v: Env, st: ES): set<int> {
    Shared(v) + {v.epi} + Innermost(st.brk) + Innermost(st.cont)
  }

  /** From `a` to `b` only labels in `ch` moved among those `a` knew, and only
      those or outside ones were left waiting. */
  ghost predicate Neat(ch: set<int>, a: ES, b: ES, v: Env, d: int) {
    !b.fails ==>
      && !a.fails && |a.items| <= |b.items| && |a.lab| <= |b.lab|
      && (forall l :: 0 <= l < |a.lab| && l !in ch ==> b.lab[l] == a.lab[l])
      && b.depth == a.depth + d && b.brk == a.brk && b.cont == a.cont
      && Pending(b) <= Pending(a) + Outside(v, a) + ch
  }

  // ---- composition -----------------------------------------------------------------

  lemma NeatThen(ch: set<int>, ch2: set<int>, a: ES, b: ES, c: ES, v: Env, d1: int, d2: int)
    requires Neat(ch, a, b, v, d1) && Neat(ch2, b, c, v, d2) && ch2 <= ch
    ensures Neat(ch, a, c, v, d1 + d2)
  {
    hide Pending;
  }

  lemma NeatJoin(a: ES, b: ES, c: ES, v: Env, d1: int, d2: int)
    requires Neat({}, a, b, v, d1) && Neat({}, b, c, v, d2)
    ensures Neat({}, a, c, v, d1 + d2)
  {
    hide Neat;
    NeatThen({}, {}, a, b, c, v, d1, d2);
  }

  lemma NeatFewer(ch: set<int>, ch2: set<int>, a: ES, b: ES, v: Env, d: int)
    requires Neat(ch, a, b, v, d) && ch <= ch2
    ensures Neat(ch2, a, b, v, d)
  {
    hide Pending;
  }

  lemma NeatNone(st: ES, v: Env)
    ensures Neat({}, st, st, v, 0)
  {
  }

  lemma NeatFailed(ch: set<int>, a: ES, b: ES, v: Env, d: int)
    requires b.fails
    ensures Neat(ch, a, b, v, d)
  {
  }

  /** Facts a neat stretch leaves behind, for callers that do not look inside. */
  lemma NeatFacts(ch: set<int>, a: ES, b: ES, v: Env, d: int)
    requires Neat(ch, a, b, v, d) && !b.fails
    ensures !a.fails && |a.items| <= |b.items| && |a.lab| <= |b.lab|
    ensures b.depth == a.depth + d && b.brk == a.brk && b.cont == a.cont
  {
    hide Pending;
  }

  lemma KeptPlace(ch: set<int>, a: ES, b: ES, v: Env, d: int, l: int)
    requires Neat(ch, a, b, v, d) && !b.fails && 0 <= l < |a.lab| && l !in ch
    ensures |a.lab| <= |b.lab| && b.lab[l] == a.lab[l] && |a.items| <= |b.items|
  {
    hide Pending;
  }

  /** `s` is `st` with some labels handed out. */
  predicate Handed(st: ES, s: ES) {
    && s.items == st.items && |st.lab| <= |s.lab| && s.depth == st.depth && s.brk == st.brk && s.cont == st.cont
    && (!s.fails ==> !st.fails && s.lab[..|st.lab|] == st.lab && forall l :: |st.lab| <= l < |s.lab| ==> s.lab[l] == -1)
  }

  /** A construct's own labels are its own business once they are placed. */
  lemma Close(ch: set<int>, own: set<int>, st: ES, s: ES, t: ES, v: Env, d: int)
    requires Handed(st, s) && Neat(ch + own, s, t, v, d)
    requires !t.fails ==> forall l :: l in own ==> |st.lab| <= l && IsPlaced(t, l)
    ensures Neat(ch, st, t, v, d)
  {
    if !t.fails {
      HandedPending(st, s);
      forall l | l in Pending(t)
        ensures l in Pending(st) + Outside(v, st) + ch
      {
        assert l in Pending(s) + Outside(v, s) + (ch + own);
        NotPending(t, l);
      }
      forall l | 0 <= l < |st.lab| && l !in ch
        ensures t.lab[l] == st.lab[l]
      {
        assert s.lab[l] == s.lab[..|st.lab|][l];
      }
    }
  }

  lemma NotPending(t: ES, l: int)
    ensures IsPlaced(t, l) ==> l !in Pending(t)
  {
  }

  lemma HandedPending(st: ES, s: ES)
    requires Handed(st, s) && !s.fails
    ensures Pending(s) <= Pending(st)
  {
    forall l | l in Pending(s)
      ensures l in Pending(st)
    {
      var i :| 0 <= i < |s.items| && s.items[i].Rel? && !IsPlaced(s, s.items[i].to) && s.items[i].to == l;
      assert 0 <= l < |st.lab| ==> s.lab[l] == s.lab[..|st.lab|][l];
      assert st.items[i].to == l;
    }
  }

  // ---- primitives --------------------------------------------------------------------

  lemma NeatPut(st: ES, v: Env, i: Instr)
    ensures Neat({}, st, Put1(st, v, i), v, 0) && Put1(st, v, i).lab == st.lab
  {
    var t := Put1(st, v, i);
    if !t.fails {
      SamePending(st, t);
    }
  }

  lemma SamePending(st: ES, t: ES)
    requires t.lab == st.lab && |t.items| == |st.items| + 1 && t.items[..|st.items|] == st.items
    ensures Pending(t) <= Pending(st) + (if t.items[|st.items|].Rel? then {t.items[|st.items|].to} else {})
  {
    forall l | l in Pending(t)
      ensures l in Pending(st) + (if t.items[|st.items|].Rel? then {t.items[|st.items|].to} else {})
    {
      var i :| 0 <= i < |t.items| && t.items[i].Rel? && !IsPlaced(t, t.items[i].to) && t.items[i].to == l;
      assert i < |st.items| ==> st.items[i] == t.items[..|st.items|][i] && !IsPlaced(st, st.items[i].to);
    }
  }

  lemma {:induction false} NeatPuts(st: ES, v: Env, c: seq<Instr>)
    ensures Neat({}, st, Puts(st, v, c), v, 0) && Puts(st, v, c).lab == st.lab
    decreases |c|
  {
    hide Put1, Neat;
    if c == [] {
      NeatNone(st, v);
    } else {
      var s1 := Put1(st, v, c[0]);
      NeatPut(st, v, c[0]);
      NeatPuts(s1, v, c[1..]);
      NeatJoin(st, s1, Puts(s1, v, c[1..]), v, 0, 0);
    }
  }

  lemma HandNew(st: ES)
    ensures Handed(st, NewLabel(st)) && (!NewLabel(st).fails ==> |NewLabel(st).lab| == |st.lab| + 1)
  {
  }

  lemma HandThen(a: ES, b: ES, c: ES)
    requires Handed(a, b) && Handed(b, c) && (c.fails || !b.fails)
    ensures Handed(a, c)
  {
    if !c.fails {
      forall l | |a.lab| <= l < |c.lab|
        ensures c.lab[l] == -1
      {
        assert l < |b.lab| ==> c.lab[l] == c.lab[..|b.lab|][l];
      }
      assert c.lab[..|a.lab|] == c.lab[..|b.lab|][..|a.lab|];
    }
  }

  lemma TwoNew(st: ES) returns (s: ES)
    ensures s == NewLabel(NewLabel(st)) && Handed(st, s) && (!s.fails ==> |s.lab| == |st.lab| + 2)
  {
    hide Handed, NewLabel;
    s := NewLabel(NewLabel(st));
    HandNew(st);
    HandNew(NewLabel(st));
    HandThen(st, NewLabel(st), s);
  }

  lemma NeatHere(st: ES, l: int, v: Env)
    ensures var t := Here(st, l);
            && Neat({l}, st, t, v, 0) && |t.lab| == |st.lab| && t.items == st.items && t.fails == st.fails
            && (!t.fails && 0 <= l < |t.lab| ==> t.lab[l] == |st.items| && IsPlaced(t, l))
  {
    var t := Here(st, l);
    if !t.fails {
      forall x | x in Pending(t)
        ensures x in Pending(st)
      {
        var i :| 0 <= i < |t.items| && t.items[i].Rel? && !IsPlaced(t, t.items[i].to) && t.items[i].to == x;
        assert !IsPlaced(st, st.items[i].to);
      }
    }
  }

  lemma NeatRel(ch: set<int>, st: ES, v: Env, i: Instr, l: int)
    requires l in Outside(v, st) + ch
    ensures Neat(ch, st, RelTo(st, v, i, l), v, 0) && RelTo(st, v, i, l).lab == st.lab
  {
    var t := RelTo(st, v, i, l);
    if !t.fails {
      SamePending(st, t);
    }
  }

  lemma NeatJump(ch: set<int>, st: ES, v: Env, cc: CC, l: int)
    requires l in Outside(v, st) + ch
    ensures Neat(ch, st, Jump(st, v, cc, l), v, 0) && Jump(st, v, cc, l).lab == st.lab
  {
    hide RelTo, Neat, Outside;
    NeatRel(ch, st, v, J(cc, 0), l);
  }

  /** A jump back waits for nothing. */
  lemma NeatJumpBack(st: ES, v: Env, cc: CC, l: int)
    requires IsPlaced(st, l)
    ensures Neat({}, st, Jump(st, v, cc, l), v, 0) && Jump(st, v, cc, l).lab == st.lab
  {
    hide Neat;
    NeatJump({l}, st, v, cc, l);
    Unneeded(l, st, Jump(st, v, cc, l), v);
  }

  lemma Unneeded(l: int, a: ES, b: ES, v: Env)
    requires Neat({l}, a, b, v, 0) && b.lab == a.lab && IsPlaced(a, l)
    ensures Neat({}, a, b, v, 0)
  {
    if !b.fails {
      NotPending(b, l);
    }
  }

  lemma NeatTest(ch: set<int>, st: ES, v: Env, cc: CC, l: int)
    requires l in ch
    ensures var t := Jump(Put1(st, v, TestRax), v, cc, l); Neat(ch, st, t, v, 0) && t.lab == st.lab
  {
    hide Jump, Put1, Neat, Outside;
    var s1 := Put1(st, v, TestRax);
    NeatPut(st, v, TestRax);
    NeatJump(ch, s1, v, cc, l);
    NeatFewer({}, ch, st, s1, v, 0);
    NeatThen(ch, ch, st, s1, Jump(s1, v, cc, l), v, 0, 0);
  }

  lemma NeatDeeper(a: ES, b: ES, v: Env, d: int)
    requires Neat({}, a, b, v, 0)
    ensures Neat({}, a, Deeper(b, d), v, d) && Deeper(b, d).lab == b.lab
  {
    var t := Deeper(b, d);
    assert t.items == b.items && t.lab == b.lab;
    if !t.fails {
      PendingBy(b, t);
    }
  }

  lemma PendingBy(a: ES, b: ES)
    requires a.items == b.items && a.lab == b.lab
    ensures Pending(a) == Pending(b)
  {
    assert forall l :: IsPlaced(a, l) == IsPlaced(b, l);
  }

  lemma NeatPush(st: ES, v: Env)
    ensures Neat({}, st, Push(st, v), v, 1) && Push(st, v).lab == st.lab
  {
    hide Put1, Deeper, Neat;
    NeatPut(st, v, PushRax);
    NeatDeeper(st, Put1(st, v, PushRax), v, 1);
  }

  lemma NeatPop(st: ES, v: Env, x: Reg)
    ensures Neat({}, st, PopTo(st, v, x), v, -1) && PopTo(st, v, x).lab == st.lab
  {
    hide Put1, Deeper, Neat;
    NeatPut(st, v, Pop(x));
    NeatDeeper(st, Put1(st, v, Pop(x)), v, -1);
  }

  lemma NeatFuel(st: ES, v: Env)
    ensures Neat({}, st, FuelCheck(st, v), v, 0) && FuelCheck(st, v).lab == st.lab
  {
    hide Put1, Jump, Neat;
    var s1 := Put1(st, v, DecFuel);
    NeatPut(st, v, DecFuel);
    NeatJump({}, s1, v, S, v.fuel);
    NeatJoin(st, s1, FuelCheck(st, v), v, 0, 0);
  }

  // ---- expressions -------------------------------------------------------------------

  lemma {:induction false} NeatPopArgs(st: ES, v: Env, n: nat)
    ensures Neat({}, st, PopArgs(st, v, n), v, 0 - n)
    decreases n
  {
    hide PopTo, Neat, ArgReg;
    if n == 0 {
      NeatNone(st, v);
    } else {
      var s1 := PopTo(st, v, ArgReg(n - 1));
      NeatPop(st, v, ArgReg(n - 1));
      NeatPopArgs(s1, v, n - 1);
      NeatJoin(st, s1, PopArgs(s1, v, n - 1), v, -1, 1 - n);
    }
  }

  lemma NeatCallTo(st: ES, v: Env, callee: Callee, n: nat)
    ensures Neat({}, st, CallTo(st, v, callee, n), v, 0)
  {
    hide Neat, Puts, RelTo;
    match callee
    case Unit(i) =>
      if i < |v.fn| {
        NeatRel({}, st, v, CallRel(0), v.fn[i]);
      } else {
        NeatFailed({}, st, Fail(st), v, 0);
      }
    case Kernel(a) => NeatPuts(st, v, [MovR11Imm(a), CallR11(n)]);
  }

  lemma NeatEnter(st: ES, v: Env, callee: Callee, ty: Ty, n: nat)
    ensures Neat({}, st, EmitEnter(st, v, callee, ty, n), v, 0 - n)
  {
    hide PopArgs, FuelCheck, CallTo, Puts, Put1, Neat, Norm;
    var s1 := PopArgs(st, v, n);
    NeatPopArgs(st, v, n);
    var pad := s1.depth % 2 == 1;
    var p1 := if pad then Put1(s1, v, SubRsp(8)) else s1;
    NeatPut(s1, v, SubRsp(8));
    NeatNone(s1, v);
    var s2 := FuelCheck(p1, v);
    NeatFuel(p1, v);
    var s3 := CallTo(s2, v, callee, n);
    NeatCallTo(s2, v, callee, n);
    var p2 := if pad then Put1(s3, v, AddRsp(8)) else s3;
    NeatPut(s3, v, AddRsp(8));
    NeatNone(s3, v);
    NeatPuts(p2, v, Norm(ty));
    NeatJoin(st, s1, p1, v, 0 - n, 0);
    NeatJoin(st, p1, s2, v, 0 - n, 0);
    NeatJoin(st, s2, s3, v, 0 - n, 0);
    NeatJoin(st, s3, p2, v, 0 - n, 0);
    NeatJoin(st, p2, Puts(p2, v, Norm(ty)), v, 0 - n, 0);
  }

  /** Operand, push, operand, pop, straight code. */
  lemma NeatPair(a: ES, b: ES, c: ES, d: ES, e: ES, v: Env)
    requires Neat({}, a, b, v, 0) && c == Push(b, v) && Neat({}, c, d, v, 0) && Neat({}, PopTo(d, v, Rdi), e, v, 0)
    ensures Neat({}, a, e, v, 0)
  {
    hide Neat, Push, PopTo;
    NeatPush(b, v);
    NeatPop(d, v, Rdi);
    NeatJoin(a, b, c, v, 0, 1);
    NeatJoin(a, c, d, v, 1, 0);
    NeatJoin(a, d, PopTo(d, v, Rdi), v, 1, -1);
    NeatJoin(a, PopTo(d, v, Rdi), e, v, 0, 0);
  }

  lemma {:induction false} NeatE(st: ES, v: Env, e: Expr)
    ensures Neat({}, st, EmitE(st, v, e), v, 0)
    decreases e, 2
  {
    hide EmitL, EmitA, EmitEnter, EmitLog, Puts, Put1, Push, PopTo, Neat, Norm, BinCode, CmpCode, LoadCode, NewLabel,
      Here, Jump,
      ETy, Count;
    NeatNone(st, v);
    if !st.fails {
      match e
      case Num(_, x) => NeatPut(st, v, MovRaxImm(Enc(x)));
      case Load(ty, lv) =>
        NeatL(st, v, lv);
        NeatPuts(EmitL(st, v, lv), v, LoadCode(ty));
        NeatJoin(st, EmitL(st, v, lv), EmitE(st, v, e), v, 0, 0);
      case Addr(lv) => NeatL(st, v, lv);
      case Assign(ty, lv, rhs) =>
        var s1 := EmitL(st, v, lv);
        var s2 := EmitE(Push(s1, v), v, rhs);
        NeatL(st, v, lv);
        NeatE(Push(s1, v), v, rhs);
        NeatPut(PopTo(s2, v, Rdi), v, StoreRdi(if ty.Int? then ty.w else B8));
        NeatPair(st, s1, Push(s1, v), s2, EmitE(st, v, e), v);
      case Cast(ty, x) => NeatThenPuts(st, v, x, Norm(ty));
      case Bin(op, ty, l, r) => NeatBin(st, v, e, BinCode(op, ty) + Norm(ty));
      case Cmp(op, l, r) => NeatBin(st, v, e, CmpCode(op, ETy(l)));
      case Not(x) => NeatThenPuts(st, v, x, [TestRax, SetCC(Z), MovzxAl]);
      case BitNot(ty, x) => NeatThenPuts(st, v, x, [NotRax(Wide(ty))] + Norm(ty));
      case LogAnd(_, _) => NeatLog(st, v, e);
      case LogOr(_, _) => NeatLog(st, v, e);
      case Cond(_, _, _, _) => NeatCond(st, v, e);
      case Comma(l, r) =>
        NeatE(st, v, l);
        NeatE(EmitE(st, v, l), v, r);
        NeatJoin(st, EmitE(st, v, l), EmitE(st, v, e), v, 0, 0);
      case Call(callee, ty, args) =>
        NeatA(st, v, args);
        NeatEnter(EmitA(st, v, args), v, callee, ty, Count(args));
        NeatJoin(st, EmitA(st, v, args), EmitE(st, v, e), v, Count(args), 0 - Count(args));
    }
  }

  lemma NeatThenPuts(st: ES, v: Env, x: Expr, c: seq<Instr>)
    ensures Neat({}, st, Puts(EmitE(st, v, x), v, c), v, 0)
    decreases x, 3
  {
    hide EmitE, Puts, Neat;
    NeatE(st, v, x);
    NeatPuts(EmitE(st, v, x), v, c);
    NeatJoin(st, EmitE(st, v, x), Puts(EmitE(st, v, x), v, c), v, 0, 0);
  }

  lemma NeatBin(st: ES, v: Env, e: Expr, c: seq<Instr>)
    requires e.Bin? || e.Cmp?
    ensures Neat({}, st, Puts(PopTo(EmitE(Push(EmitE(st, v, e.r), v), v, e.l), v, Rdi), v, c), v, 0)
    decreases e, 0
  {
    hide EmitE, Puts, Neat, Push, PopTo;
    var s1 := EmitE(st, v, e.r);
    var s2 := EmitE(Push(s1, v), v, e.l);
    NeatE(st, v, e.r);
    NeatE(Push(s1, v), v, e.l);
    NeatPuts(PopTo(s2, v, Rdi), v, c);
    NeatPair(st, s1, Push(s1, v), s2, Puts(PopTo(s2, v, Rdi), v, c), v);
  }

  lemma NeatCond(st: ES, v: Env, e: Expr)
    requires e.Cond? && !st.fails
    ensures Neat({}, st, EmitE(st, v, e), v, 0)
    decreases e, 1
  {
    hide Neat, NewLabel, Here, Jump, Put1, Handed;
    var s0 := TwoNew(st);
    var s1 := EmitE(s0, v, e.c);
    var t1 := Jump(Put1(s1, v, TestRax), v, Z, |st.lab|);
    var s2 := EmitE(t1, v, e.t);
    var t2 := Jump(s2, v, Always, |st.lab| + 1);
    var t3 := Here(t2, |st.lab|);
    var s3 := EmitE(t3, v, e.f);
    var r := Here(s3, |st.lab| + 1);
    assert r == EmitE(st, v, e);
    if r.fails {
      NeatFailed({}, st, r, v, 0);
    } else {
      NeatCondSteps(st, v, e, s0, s1, t1, s2, t2, t3, s3, r);
    }
  }

  lemma NeatCondSteps(st: ES, v: Env, e: Expr, s0: ES, s1: ES, t1: ES, s2: ES, t2: ES, t3: ES, s3: ES, r: ES)
    requires e.Cond? && !r.fails && Handed(st, s0) && (!s0.fails ==> |s0.lab| == |st.lab| + 2)
    requires s1 == EmitE(s0, v, e.c) && t1 == Jump(Put1(s1, v, TestRax), v, Z, |st.lab|)
    requires s2 == EmitE(t1, v, e.t) && t2 == Jump(s2, v, Always, |st.lab| + 1)
    requires t3 == Here(t2, |st.lab|) && s3 == EmitE(t3, v, e.f) && r == Here(s3, |st.lab| + 1)
    ensures Neat({}, st, r, v, 0)
    decreases e, 0
  {
    hide Neat, Here, Jump, Put1, EmitE, Handed, IsPlaced;
    var lelse, lend := |st.lab|, |st.lab| + 1;
    var ch := {lelse, lend};
    NeatE(s0, v, e.c);
    NeatTest(ch, s1, v, Z, lelse);
    NeatE(t1, v, e.t);
    NeatJump(ch, s2, v, Always, lend);
    NeatHere(t2, lelse, v);
    NeatE(t3, v, e.f);
    NeatHere(s3, lend, v);
    NeatFewer({}, ch, s0, s1, v, 0);
    NeatThen(ch, ch, s0, s1, t1, v, 0, 0);
    NeatThen(ch, {}, s0, t1, s2, v, 0, 0);
    NeatThen(ch, ch, s0, s2, t2, v, 0, 0);
    NeatThen(ch, {lelse}, s0, t2, t3, v, 0, 0);
    NeatThen(ch, {}, s0, t3, s3, v, 0, 0);
    NeatThen(ch, {lend}, s0, s3, r, v, 0, 0);
    Stays({}, t3, s3, v, 0, lelse);
    Stays({lend}, s3, r, v, 0, lelse);
    assert {} + ch == ch;
    Close({}, ch, st, s0, r, v, 0);
  }

  lemma Stays(ch: set<int>, a: ES, b: ES, v: Env, d: int, l: int)
    requires Neat(ch, a, b, v, d) && !b.fails && IsPlaced(a, l) && l !in ch
    ensures IsPlaced(b, l)
  {
    hide Pending;
  }

  lemma NeatLog(st: ES, v: Env, e: Expr)
    requires e.LogAnd? || e.LogOr?
    ensures Neat({}, st, EmitLog(st, v, e), v, 0)
    decreases e, 0
  {
    hide Neat, NewLabel, Here, Jump, Put1, EmitE, Handed, IsPlaced;
    var decided, lend := |st.lab|, |st.lab| + 1;
    var ch := {decided, lend};
    var or := e.LogOr?;
    var cc := if or then NZ else Z;
    var s0 := TwoNew(st);
    var s1 := EmitE(s0, v, e.l);
    var t1 := Jump(Put1(s1, v, TestRax), v, cc, decided);
    var s2 := EmitE(t1, v, e.r);
    var s3 := Jump(Put1(s2, v, TestRax), v, cc, decided);
    var i, j := if or then XorEax else MovEaxImm(1), if or then MovEaxImm(1) else XorEax;
    var p3 := Put1(s3, v, i);
    var s4 := Jump(p3, v, Always, lend);
    var t4 := Here(s4, decided);
    var s5 := Put1(t4, v, j);
    var r := Here(s5, lend);
    assert r == EmitLog(st, v, e);
    if r.fails {
      NeatFailed({}, st, r, v, 0);
    } else {
      NeatE(s0, v, e.l);
      NeatTest(ch, s1, v, cc, decided);
      NeatE(t1, v, e.r);
      NeatTest(ch, s2, v, cc, decided);
      NeatPut(s3, v, i);
      NeatJump(ch, p3, v, Always, lend);
      NeatHere(s4, decided, v);
      NeatPut(t4, v, j);
      NeatHere(s5, lend, v);
      NeatFewer({}, ch, s0, s1, v, 0);
      NeatThen(ch, ch, s0, s1, t1, v, 0, 0);
      NeatThen(ch, {}, s0, t1, s2, v, 0, 0);
      NeatThen(ch, ch, s0, s2, s3, v, 0, 0);
      NeatThen(ch, {}, s0, s3, p3, v, 0, 0);
      NeatThen(ch, ch, s0, p3, s4, v, 0, 0);
      NeatThen(ch, {decided}, s0, s4, t4, v, 0, 0);
      NeatThen(ch, {}, s0, t4, s5, v, 0, 0);
      NeatThen(ch, {lend}, s0, s5, r, v, 0, 0);
      Stays({}, t4, s5, v, 0, decided);
      Stays({lend}, s5, r, v, 0, decided);
      assert {} + ch == ch;
      Close({}, ch, st, s0, r, v, 0);
    }
  }

  lemma {:induction false} NeatL(st: ES, v: Env, lv: LVal)
    ensures Neat({}, st, EmitL(st, v, lv), v, 0)
    decreases lv, 2
  {
    hide EmitE, Put1, Neat;
    match lv
    case Local(off) => NeatPut(st, v, LeaRaxRbp(off));
    case Global(a) => NeatPut(st, v, MovRaxImm(Enc(a)));
    case Deref(e) => NeatE(st, v, e);
    case Member(x, off) =>
      var s1 := EmitL(st, v, x);
      NeatL(st, v, x);
      if off != 0 {
        NeatPut(s1, v, AddRaxImm(off));
        NeatJoin(st, s1, Put1(s1, v, AddRaxImm(off)), v, 0, 0);
      }
    case CommaL(e, x) =>
      NeatE(st, v, e);
      NeatL(EmitE(st, v, e), v, x);
      NeatJoin(st, EmitE(st, v, e), EmitL(EmitE(st, v, e), v, x), v, 0, 0);
  }

  lemma {:induction false} NeatA(st: ES, v: Env, args: Args)
    ensures Neat({}, st, EmitA(st, v, args), v, Count(args))
    decreases args, 2
  {
    hide EmitE, Push, Neat;
    match args
    case NoArgs => NeatNone(st, v);
    case Arg(e, rest) =>
      var s1 := EmitE(st, v, e);
      var s2 := Push(s1, v);
      NeatE(st, v, e);
      NeatPush(s1, v);
      NeatA(s2, v, rest);
      NeatJoin(st, s1, s2, v, 0, 1);
      NeatJoin(st, s2, EmitA(s2, v, rest), v, 1, Count(rest));
  }
}
