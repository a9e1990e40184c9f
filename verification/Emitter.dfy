// The emitter itself: one object whose buffer is appended to and then patched
// in place. Every method is proved to do what its function in Emit.dfy says.

module Emitter {
  import opened Basics
  import opened Words
  import opened CTree
  import opened X64
  import opened Gen
  import opened Emit
  import opened EmitKeeps
  import opened EmitKeepsS
  import opened EmitImage
  import EmitFitsS

  datatype Fix = Fix(at: nat, to: int)

  /** The fixups of a buffer, in order. */
  ghost function FixesOf(items: seq<Item>): seq<Fix> {
    if items == [] then []
    else
      var n := |items| - 1;
      FixesOf(items[..n]) + (if items[n].Rel? then [Fix(n, items[n].to)] else [])
  }

  lemma FixesAdd(items: seq<Item>, x: Item)
    ensures FixesOf(items + [x]) == FixesOf(items) + (if x.Rel? then [Fix(|items|, x.to)] else [])
  {
    assert (items + [x])[..|items|] == items;
  }

  ghost predicate InBuffer(items: seq<Item>, f: seq<Fix>) {
    forall a :: 0 <= a < |f| ==> f[a].at < |items| && items[f[a].at].Rel? && items[f[a].at].to == f[a].to
  }

  ghost predicate Ascending(f: seq<Fix>) {
    forall a, b :: 0 <= a < b < |f| ==> f[a].at < f[b].at
  }

  /** Fixups are in range and in order. */
  lemma {:induction false} FixesInOrder(items: seq<Item>)
    ensures InBuffer(items, FixesOf(items)) && Ascending(FixesOf(items))
    decreases |items|
  {
    if items != [] {
      var n := |items| - 1;
      FixesInOrder(items[..n]);
      var f := FixesOf(items[..n]);
      forall a | 0 <= a < |f|
        ensures f[a].at < n && items[f[a].at].Rel? && items[f[a].at].to == f[a].to
      {
        assert items[..n][f[a].at] == items[f[a].at];
      }
    }
  }

  /** Every jump has a fixup. */
  lemma {:induction false} FixFor(items: seq<Item>, j: nat) returns (a: nat)
    requires j < |items| && items[j].Rel?
    ensures a < |FixesOf(items)| && FixesOf(items)[a].at == j
    decreases |items|
  {
    var n := |items| - 1;
    if j < n {
      a := FixFor(items[..n], j);
    } else {
      a := |FixesOf(items[..n])|;
    }
  }

  ghost predicate SameExits(a: ES, b: ES) {
    !b.fails ==> !a.fails && b.brk == a.brk && b.cont == a.cont
  }

  lemma QuietSteps(st: ES, v: Env, cc: CC, l: int, i: Instr)
    ensures SameExits(st, Put1(st, v, i)) && SameExits(st, Jump(st, v, cc, l)) && SameExits(st, Here(st, l))
    ensures SameExits(st, NewLabel(st)) && SameExits(st, Jump(Put1(st, v, i), v, cc, l))
  {
  }

  lemma ExprExits(st: ES, v: Env, e: Expr)
    ensures SameExits(st, EmitE(st, v, e))
  {
    hide Neat, EmitE;
    NeatE(st, v, e);
    if !EmitE(st, v, e).fails {
      NeatFacts({}, st, EmitE(st, v, e), v, 0);
    }
  }

  lemma OptionalExits(st: ES, v: Env, c: Option<Expr>, when: bool, l: int)
    ensures SameExits(st, EmitO(st, v, c)) && SameExits(st, EmitTest(st, v, c, when, l))
  {
    hide EmitE, Put1, Jump;
    if c.Some? {
      ExprExits(st, v, c.value);
      QuietSteps(EmitE(st, v, c.value), v, Z, l, TestRax);
    }
  }

  lemma ChainExits(st: ES, v: Env, keys: seq<int>, first: int)
    ensures SameExits(st, EmitChain(st, v, keys, first)) && SameExits(st, CaseLabels(st, keys))
  {
    hide Neat, EmitChain, CaseLabels, Handed;
    NeatChain(st, v, keys, first);
    HandCases(st, keys);
    LabelExits(st, keys);
    if !EmitChain(st, v, keys, first).fails {
      NeatFacts(Range(first, first + |keys|), st, EmitChain(st, v, keys, first), v, 0);
    }
  }

  lemma LabelExits(st: ES, keys: seq<int>)
    requires Handed(st, CaseLabels(st, keys))
    ensures SameExits(st, CaseLabels(st, keys))
  {
  }

  /** Emitting a statement leaves the break and continue stacks as they were, so
      dropping the top is restoring them. */
  lemma {:induction false} StmtExits(st: ES, v: Env, s: Stmt, cs: map<Key, int>)
    ensures SameExits(st, EmitS(st, v, s, cs))
    decreases s, 1
  {
    hide Put1, Puts, Jump, Here, NewLabel, EmitE, EmitO, EmitTest, EmitZero, EmitChain, CaseLabels, FuelCheck,
      LabelMap, Neat;
    if !st.fails {
      match s
      case Nop =>
      case Seq(a, b) =>
        StmtExits(st, v, a, cs);
        StmtExits(EmitS(st, v, a, cs), v, b, cs);
      case Eval(e) => ExprExits(st, v, e);
      case MemZero(off, n) =>
        var s1 := Put1(st, v, LeaRaxRbp(off));
        QuietSteps(st, v, Z, 0, LeaRaxRbp(off));
        NeatZero(s1, v, n);
        if !EmitZero(s1, v, n).fails {
          NeatFacts({}, s1, EmitZero(s1, v, n), v, 0);
        }
      case Return(r) =>
        OptionalExits(st, v, r, false, 0);
        QuietSteps(EmitO(st, v, r), v, Always, v.epi, XorEax);
      case If(_, _, _) => IfExits(st, v, s, cs);
      case Loop(_, _, _, _) =>
      case Break => QuietSteps(st, v, Always, Last(st.brk), XorEax);
      case Continue => QuietSteps(st, v, Always, Last(st.cont), XorEax);
      case Case(k, b) =>
        if k in cs {
          QuietSteps(st, v, Z, cs[k], XorEax);
          StmtExits(Here(st, cs[k]), v, b, cs);
        }
      case Switch(_, _, _, _) => HereExits();
    }
  }

  lemma HereExits()
    ensures forall st, l :: SameExits(st, Here(st, l))
  {
  }

  lemma IfExits(st: ES, v: Env, s: Stmt, cs: map<Key, int>)
    requires s.If? && !st.fails
    ensures SameExits(st, EmitS(st, v, s, cs))
    decreases s, 0
  {
    hide Put1, Jump, Here, NewLabel, EmitE;
    var n := |st.lab|;
    var s0 := NewLabel(NewLabel(st));
    var s1 := EmitE(s0, v, s.c);
    var to := if s.f.Some? then n else n + 1;
    var t1 := Jump(Put1(s1, v, TestRax), v, Z, to);
    var s2 := EmitS(t1, v, s.t, cs);
    QuietSteps(st, v, Z, 0, TestRax);
    QuietSteps(NewLabel(st), v, Z, 0, TestRax);
    ExprExits(s0, v, s.c);
    QuietSteps(s1, v, Z, to, TestRax);
    StmtExits(t1, v, s.t, cs);
    QuietSteps(s2, v, Always, n + 1, TestRax);
    if s.f.Some? {
      var t2 := Jump(s2, v, Always, n + 1);
      QuietSteps(t2, v, Z, n, TestRax);
      StmtExits(Here(t2, n), v, s.f.value, cs);
      QuietSteps(EmitS(Here(t2, n), v, s.f.value, cs), v, Z, n + 1, TestRax);
    }
  }

  /** A loop from its top label to its end label, inside its own exits. */
  ghost function LoopSpan(a: ES, v: Env, s: Stmt, cs: map<Key, int>, n: int): ES
    requires s.Loop?
  {
    var b2 := EmitTest(Here(a, n), v, s.cond, s.testFirst, n + 2);
    var b4 := Here(EmitS(b2, v, s.body, cs), n + 1);
    var b6 := EmitTest(EmitO(b4, v, s.post), v, s.cond, !s.testFirst, n + 2);
    Here(Jump(FuelCheck(b6, v), v, Always, n), n + 2)
  }

  lemma OpenLoop(st: ES, v: Env, s: Stmt, cs: map<Key, int>)
    requires s.Loop? && !st.fails && |st.brk| < MAX_NEST && |st.cont| < MAX_NEST
    ensures var n := |st.lab|;
            var s0 := NewLabel(NewLabel(NewLabel(st)));
            && EmitS(st, v, s, cs)
               == Nest(LoopSpan(Nest(s0, st.brk + [n + 2], st.cont + [n + 1]), v, s, cs, n), st.brk, st.cont)
            && (s0.fails ==> EmitS(st, v, s, cs) == s0)
  {
    hide NewLabel, Here, Jump, EmitTest, EmitO, FuelCheck;
  }

  lemma SpanExits(a: ES, v: Env, s: Stmt, cs: map<Key, int>, n: int)
    requires s.Loop?
    ensures SameExits(a, LoopSpan(a, v, s, cs, n))
  {
    hide Here, Jump, EmitTest, EmitO, FuelCheck, EmitS, Put1, Neat;
    var b1 := Here(a, n);
    var b2 := EmitTest(b1, v, s.cond, s.testFirst, n + 2);
    var b3 := EmitS(b2, v, s.body, cs);
    var b4 := Here(b3, n + 1);
    var b5 := EmitO(b4, v, s.post);
    var b6 := EmitTest(b5, v, s.cond, !s.testFirst, n + 2);
    var b7 := FuelCheck(b6, v);
    var b8 := Jump(b7, v, Always, n);
    QuietSteps(a, v, Z, n, XorEax);
    OptionalExits(b1, v, s.cond, s.testFirst, n + 2);
    StmtExits(b2, v, s.body, cs);
    QuietSteps(b3, v, Z, n + 1, XorEax);
    OptionalExits(b4, v, s.post, false, 0);
    OptionalExits(b5, v, s.cond, !s.testFirst, n + 2);
    NeatFuel(b6, v);
    if !b7.fails {
      NeatFacts({}, b6, b7, v, 0);
    }
    QuietSteps(b7, v, Always, n, XorEax);
    QuietSteps(b8, v, Z, n + 2, XorEax);
  }

  /** A switch from its value to the end of its body, before its own end label. */
  ghost function SwitchSpan(s0: ES, v: Env, s: Stmt, n: int): ES
    requires s.Switch?
  {
    var s3 := EmitChain(EmitE(s0, v, s.c), v, s.keys, n + 1);
    Jump(s3, v, Always, if s.dflt then n + 1 + |s.keys| else n)
  }

  lemma OpenSwitch(st: ES, v: Env, s: Stmt, cs: map<Key, int>)
    requires s.Switch? && !st.fails && |st.brk| < MAX_NEST
    ensures var n := |st.lab|;
            var s0 := EmitKeepsS.SwitchLabels(st, s.keys, s.dflt);
            var s4 := SwitchSpan(s0, v, s, n);
            EmitS(st, v, s, cs)
            == Here(Nest(EmitS(Nest(s4, st.brk + [n], st.cont), v, s.body, LabelMap(s.keys, s.dflt, n + 1)),
                         st.brk, st.cont), n)
  {
    hide NewLabel, Here, Jump, EmitE, EmitChain, CaseLabels, LabelMap;
  }

  lemma SwitchSpanExits(st: ES, v: Env, s: Stmt)
    requires s.Switch?
    ensures SameExits(st, SwitchSpan(EmitKeepsS.SwitchLabels(st, s.keys, s.dflt), v, s, |st.lab|))
  {
    hide NewLabel, Jump, EmitE, EmitChain, CaseLabels;
    var s1 := CaseLabels(NewLabel(st), s.keys);
    var s0 := EmitKeepsS.SwitchLabels(st, s.keys, s.dflt);
    var s2 := EmitE(s0, v, s.c);
    var s3 := EmitChain(s2, v, s.keys, |st.lab| + 1);
    QuietSteps(st, v, Z, 0, XorEax);
    ChainExits(NewLabel(st), v, s.keys, 0);
    QuietSteps(s1, v, Z, 0, XorEax);
    ExprExits(s0, v, s.c);
    ChainExits(s2, v, s.keys, |st.lab| + 1);
    QuietSteps(s3, v, Always, if s.dflt then |st.lab| + 1 + |s.keys| else |st.lab|, XorEax);
  }

  lemma DeepLoop(st: ES, v: Env, s: Stmt, cs: map<Key, int>)
    requires s.Loop? && !st.fails && (|st.brk| >= MAX_NEST || |st.cont| >= MAX_NEST)
    ensures EmitS(st, v, s, cs) == Fail(st)
  {
  }

  lemma DeepSwitch(st: ES, v: Env, s: Stmt, cs: map<Key, int>)
    requires s.Switch? && !st.fails && |st.brk| >= MAX_NEST
    ensures EmitS(st, v, s, cs) == Fail(st)
  {
  }

  lemma NestIn(s4: ES, st: ES, n: int)
    requires SameExits(st, s4)
    ensures var a := Nest(s4, s4.brk + [n], s4.cont);
            a == Nest(s4, st.brk + [n], st.cont) && (!a.fails ==> a.brk == st.brk + [n] && a.cont == st.cont)
  {
  }

  class Emitter {
    const buf: array<Instr>
    var len: nat
    var fails: bool
    var lab: seq<int>
    var fix: seq<Fix>
    var depth: int
    var brk: seq<int>
    var cont: seq<int>
    var env: Env
    ghost var items: seq<Item>

    ghost predicate Valid()
      reads this, buf
    {
      && len == |items| <= buf.Length == env.cap
      && (forall i :: 0 <= i < len ==> buf[i] == items[i].i)
      && fix == FixesOf(items)
    }

    ghost function Abs(): ES
      reads this
    {
      ES(items, lab, |fix|, depth, brk, cont, fails)
    }

    constructor (code: array<Instr>, v: Env)
      requires v.cap == code.Length
      ensures buf == code && env == v && Valid() && Abs() == ES([], [], 0, 0, [], [], false)
    {
      buf := code;
      len, fails, lab, fix, depth, brk, cont, env := 0, false, [], [], 0, [], [], v;
      items := [];
    }

    // ---- primitives ------------------------------------------------------------

    method Put(i: Instr)
      requires Valid()
      modifies this, buf
      ensures Valid() && env == old(env) && Abs() == Put1(old(Abs()), env, i)
    {
      hide FixesOf;
      if !fails {
        if len >= buf.Length {
          fails := true;
        } else {
          buf[len] := i;
          len := len + 1;
          FixesAdd(items, Fixed(i, depth));
          items := items + [Fixed(i, depth)];
        }
      }
    }

    method PutAll(c: seq<Instr>)
      requires Valid()
      modifies this, buf
      ensures Valid() && env == old(env) && Abs() == Puts(old(Abs()), env, c)
    {
      var k := 0;
      while k < |c|
        invariant 0 <= k <= |c| && Valid() && env == old(env)
        invariant Puts(Abs(), env, c[k..]) == Puts(old(Abs()), env, c)
      {
        assert c[k..][0] == c[k] && c[k..][1..] == c[k + 1..];
        Put(c[k]);
        k := k + 1;
      }
    }

    method LabelNew() returns (l: int)
      requires Valid()
      modifies this
      ensures Valid() && env == old(env) && Abs() == NewLabel(old(Abs())) && brk == old(brk) && cont == old(cont)
      ensures !fails ==> l == old(|lab|) && |lab| == old(|lab|) + 1
    {
      l := 0;
      if !fails {
        if |lab| >= MAX_LABELS {
          fails := true;
        } else {
          l := |lab|;
          lab := lab + [-1];
        }
      }
    }

    method LabelHere(l: int)
      requires Valid()
      modifies this
      ensures Valid() && env == old(env) && Abs() == Here(old(Abs()), l)
    {
      if !fails && 0 <= l < |lab| {
        lab := lab[l := len];
      }
    }

    method Rel32(i: Instr, l: int)
      requires Valid()
      modifies this, buf
      ensures Valid() && env == old(env) && Abs() == RelTo(old(Abs()), env, i, l)
    {
      hide FixesOf;
      if !fails {
        if |fix| >= MAX_FIXUPS || len >= buf.Length {
          fails := true;
        } else {
          fix := fix + [Fix(len, l)];
          buf[len] := i;
          len := len + 1;
          FixesAdd(items, Rel(i, l, depth));
          items := items + [Rel(i, l, depth)];
        }
      }
    }

    method JumpTo(cc: CC, l: int)
      requires Valid()
      modifies this, buf
      ensures Valid() && env == old(env) && Abs() == Jump(old(Abs()), env, cc, l)
    {
      Rel32(J(cc, 0), l);
    }

    method PushValue()
      requires Valid()
      modifies this, buf
      ensures Valid() && env == old(env) && Abs() == Push(old(Abs()), env)
    {
      Put(PushRax);
      if !fails {
        depth := depth + 1;
      }
    }

    method PopInto(x: Reg)
      requires Valid()
      modifies this, buf
      ensures Valid() && env == old(env) && Abs() == PopTo(old(Abs()), env, x)
    {
      Put(Pop(x));
      if !fails {
        depth := depth - 1;
      }
    }

    method CheckFuel()
      requires Valid()
      modifies this, buf
      ensures Valid() && env == old(env) && Abs() == FuelCheck(old(Abs()), env)
    {
      Put(DecFuel);
      JumpTo(S, env.fuel);
    }

    // ---- expressions -----------------------------------------------------------

    /** The arguments come off the stack in reverse, into rdi, rsi, ... */
    method PopArguments(n: nat)
      requires Valid()
      modifies this, buf
      ensures Valid() && env == old(env) && Abs() == PopArgs(old(Abs()), env, n)
    {
      var k := n;
      while k > 0
        invariant 0 <= k <= n && Valid() && env == old(env)
        invariant PopArgs(Abs(), env, k) == PopArgs(old(Abs()), env, n)
      {
        PopInto(ArgReg(k - 1));
        k := k - 1;
      }
    }

    method EnterCall(callee: Callee, ty: Ty, n: nat)
      requires Valid()
      modifies this, buf
      ensures Valid() && env == old(env) && Abs() == EmitEnter(old(Abs()), env, callee, ty, n)
    {
      hide Put1, Puts, RelTo, FuelCheck, PopArgs, Norm;
      PopArguments(n);
      var pad := depth % 2 == 1;
      if pad {
        Put(SubRsp(8));
      }
      CheckFuel();
      match callee {
        case Unit(i) =>
          if i < |env.fn| {
            Rel32(CallRel(0), env.fn[i]);
          } else {
            fails := true;
          }
        case Kernel(a) =>
          PutAll([MovR11Imm(a), CallR11(n)]);
      }
      if pad {
        Put(AddRsp(8));
      }
      PutAll(Norm(ty));
    }

    method GenExpr(e: Expr)
      requires Valid()
      modifies this, buf
      ensures Valid() && env == old(env) && Abs() == EmitE(old(Abs()), env, e)
      decreases e, 1
    {
      hide Put1, Puts, NewLabel, Here, Jump, Push, PopTo, EmitEnter, EmitLog, Norm, BinCode, CmpCode, LoadCode, ETy,
        Count, Enc;
      if fails {
        return;
      }
      match e {
        case Num(_, x) =>
          Put(MovRaxImm(Enc(x)));
        case Load(ty, lv) =>
          GenAddr(lv);
          PutAll(LoadCode(ty));
        case Addr(lv) =>
          GenAddr(lv);
        case Assign(_, _, _) =>
          GenTwo(e);
        case Cast(ty, x) =>
          GenExpr(x);
          PutAll(Norm(ty));
        case Bin(_, _, _, _) =>
          GenTwo(e);
        case Cmp(_, _, _) =>
          GenTwo(e);
        case Not(x) =>
          GenExpr(x);
          PutAll([TestRax, SetCC(Z), MovzxAl]);
        case BitNot(ty, x) =>
          GenExpr(x);
          PutAll([NotRax(Wide(ty))] + Norm(ty));
        case LogAnd(_, _) =>
          GenLogical(e);
        case LogOr(_, _) =>
          GenLogical(e);
        case Cond(_, _, _, _) =>
          GenCond(e);
        case Comma(l, r) =>
          GenExpr(l);
          GenExpr(r);
        case Call(callee, ty, args) =>
          GenArgs(args);
          EnterCall(callee, ty, Count(args));
      }
    }

    /** One operand waits on the stack for the other. */
    method GenTwo(e: Expr)
      requires Valid() && !fails && (e.Assign? || e.Bin? || e.Cmp?)
      modifies this, buf
      ensures Valid() && env == old(env) && Abs() == EmitE(old(Abs()), env, e)
      decreases e, 0
    {
      hide Put1, Puts, NewLabel, Here, Jump, Push, PopTo, EmitEnter, EmitLog, EmitL, Norm, BinCode, CmpCode, ETy, Enc;
      match e {
        case Assign(ty, lv, rhs) =>
          GenAddr(lv);
          PushValue();
          GenExpr(rhs);
          PopInto(Rdi);
          Put(StoreRdi(if ty.Int? then ty.w else B8));
        case Bin(op, ty, l, r) =>
          GenExpr(r);
          PushValue();
          GenExpr(l);
          PopInto(Rdi);
          PutAll(BinCode(op, ty) + Norm(ty));
        case Cmp(op, l, r) =>
          GenExpr(r);
          PushValue();
          GenExpr(l);
          PopInto(Rdi);
          PutAll(CmpCode(op, ETy(l)));
      }
    }

    method GenCond(e: Expr)
      requires Valid() && !fails && e.Cond?
      modifies this, buf
      ensures Valid() && env == old(env) && Abs() == EmitE(old(Abs()), env, e)
      decreases e, 0
    {
      hide Put1, Puts, NewLabel, Here, Jump, Push, PopTo, EmitEnter, EmitLog, EmitL;
      var lelse := LabelNew();
      var lend := LabelNew();
      if fails {
        return;
      }
      GenExpr(e.c);
      Put(TestRax);
      JumpTo(Z, lelse);
      GenExpr(e.t);
      JumpTo(Always, lend);
      LabelHere(lelse);
      GenExpr(e.f);
      LabelHere(lend);
    }

    method GenLogical(e: Expr)
      requires Valid() && (e.LogAnd? || e.LogOr?)
      modifies this, buf
      ensures Valid() && env == old(env) && Abs() == EmitLog(old(Abs()), env, e)
      decreases e, 0
    {
      hide Put1, NewLabel, Here, Jump, EmitE;
      var or := e.LogOr?;
      var cc := if or then NZ else Z;
      var decided := LabelNew();
      var lend := LabelNew();
      if fails {
        return;
      }
      GenExpr(e.l);
      Put(TestRax);
      JumpTo(cc, decided);
      GenExpr(e.r);
      Put(TestRax);
      JumpTo(cc, decided);
      Put(if or then XorEax else MovEaxImm(1));
      JumpTo(Always, lend);
      LabelHere(decided);
      Put(if or then MovEaxImm(1) else XorEax);
      LabelHere(lend);
    }

    method GenAddr(lv: LVal)
      requires Valid()
      modifies this, buf
      ensures Valid() && env == old(env) && Abs() == EmitL(old(Abs()), env, lv)
      decreases lv, 1
    {
      hide Put1, EmitE, Enc;
      match lv {
        case Local(off) =>
          Put(LeaRaxRbp(off));
        case Global(a) =>
          Put(MovRaxImm(Enc(a)));
        case Deref(e) =>
          GenExpr(e);
        case Member(x, off) =>
          GenAddr(x);
          if off != 0 {
            Put(AddRaxImm(off));
          }
        case CommaL(e, x) =>
          GenExpr(e);
          GenAddr(x);
      }
    }

    /** Arguments in order, each pushed. */
    method GenArgs(args: Args)
      requires Valid()
      modifies this, buf
      ensures Valid() && env == old(env) && Abs() == EmitA(old(Abs()), env, args)
      decreases args, 1
    {
      hide EmitE, Push;
      var rest := args;
      while rest.Arg?
        invariant Valid() && env == old(env) && (rest == args || rest < args)
        invariant EmitA(Abs(), env, rest) == EmitA(old(Abs()), env, args)
        decreases rest
      {
        GenExpr(rest.e);
        PushValue();
        rest := rest.rest;
      }
    }

    // ---- statements ------------------------------------------------------------

    method ZeroBytes(size: nat)
      requires Valid()
      modifies this, buf
      ensures Valid() && env == old(env) && Abs() == EmitZero(old(Abs()), env, size)
    {
      hide Put1, Puts, NewLabel, Here, Jump, ZeroChunks, Enc;
      if size <= 64 {
        PutAll(ZeroChunks(0, size));
      } else {
        var top := LabelNew();
        Put(MovRcxImm(Enc(size)));
        LabelHere(top);
        PutAll([ZeroAt(0, 1), IncRax, DecRcx]);
        JumpTo(NZ, top);
      }
    }

    method GenTestOf(c: Option<Expr>, when: bool, lend: int)
      requires Valid()
      modifies this, buf
      ensures Valid() && env == old(env) && Abs() == EmitTest(old(Abs()), env, c, when, lend)
    {
      hide Put1, Jump, EmitE;
      if when && c.Some? {
        GenExpr(c.value);
        Put(TestRax);
        JumpTo(Z, lend);
      }
    }

    method GenOptional(c: Option<Expr>)
      requires Valid()
      modifies this, buf
      ensures Valid() && env == old(env) && Abs() == EmitO(old(Abs()), env, c)
    {
      hide EmitE;
      if c.Some? {
        GenExpr(c.value);
      }
    }

    method GenStmt(s: Stmt, cs: map<Key, int>)
      requires Valid()
      modifies this, buf
      ensures Valid() && env == old(env) && Abs() == EmitS(old(Abs()), env, s, cs)
      decreases s, 2
    {
      hide Put1, Jump, Here, EmitE, EmitO, EmitZero;
      if fails {
        return;
      }
      match s {
        case Nop =>
        case Seq(a, b) =>
          GenStmt(a, cs);
          GenStmt(b, cs);
        case Eval(e) =>
          GenExpr(e);
        case MemZero(off, n) =>
          Put(LeaRaxRbp(off));
          ZeroBytes(n);
        case Return(r) =>
          GenOptional(r);
          JumpTo(Always, env.epi);
        case If(_, _, _) =>
          GenIf(s, cs);
        case Loop(_, _, _, _) =>
          GenLoop(s, cs);
        case Break =>
          if brk == [] {
            fails := true;
          } else {
            JumpTo(Always, brk[|brk| - 1]);
          }
        case Continue =>
          if cont == [] {
            fails := true;
          } else {
            JumpTo(Always, cont[|cont| - 1]);
          }
        case Case(k, b) =>
          if k in cs {
            LabelHere(cs[k]);
            GenStmt(b, cs);
          } else {
            fails := true;
          }
        case Switch(_, _, _, _) =>
          GenSwitch(s, cs);
      }
    }

    method GenIf(s: Stmt, cs: map<Key, int>)
      requires Valid() && s.If? && !fails
      modifies this, buf
      ensures Valid() && env == old(env) && Abs() == EmitS(old(Abs()), env, s, cs)
      decreases s, 1
    {
      hide Put1, NewLabel, Here, Jump, EmitE;
      var lelse := LabelNew();
      var lend := LabelNew();
      if fails {
        return;
      }
      GenExpr(s.c);
      Put(TestRax);
      JumpTo(Z, if s.f.Some? then lelse else lend);
      GenStmt(s.t, cs);
      if s.f.Some? {
        JumpTo(Always, lend);
        LabelHere(lelse);
        GenStmt(s.f.value, cs);
      }
      LabelHere(lend);
    }

    method EnterNest(l: int, m: int, loop: bool)
      requires Valid()
      modifies this
      ensures Valid() && env == old(env)
      ensures Abs() == Nest(old(Abs()), old(brk) + [l], if loop then old(cont) + [m] else old(cont))
      ensures !fails ==> brk == old(brk) + [l] && cont == if loop then old(cont) + [m] else old(cont)
    {
      if !fails {
        brk := brk + [l];
        if loop {
          cont := cont + [m];
        }
      }
    }

    /** The exits of the innermost loop or switch come off again. */
    method LeaveNest(ghost st: ES, l: int, m: int, loop: bool)
      requires Valid() && (!fails ==> brk == st.brk + [l] && cont == if loop then st.cont + [m] else st.cont)
      modifies this
      ensures Valid() && env == old(env) && Abs() == Nest(old(Abs()), st.brk, st.cont)
    {
      if !fails {
        brk := brk[..|brk| - 1];
        if loop {
          cont := cont[..|cont| - 1];
        }
      }
    }

    method GenLoop(s: Stmt, cs: map<Key, int>)
      requires Valid() && s.Loop? && !fails
      modifies this, buf
      ensures Valid() && env == old(env) && Abs() == EmitS(old(Abs()), env, s, cs)
      decreases s, 1
    {
      hide NewLabel, LoopSpan, Nest, EmitS;
      if |brk| >= MAX_NEST || |cont| >= MAX_NEST {
        fails := true;
        DeepLoop(old(Abs()), env, s, cs);
        return;
      }
      ghost var st := Abs();
      OpenLoop(st, env, s, cs);
      var ltop := LabelNew();
      var lcont := LabelNew();
      var lend := LabelNew();
      if fails {
        return;
      }
      EnterNest(lend, lcont, true);
      ghost var a := Abs();
      SpanExits(a, env, s, cs, ltop);
      GenSpan(s, cs, ltop);
      LeaveNest(st, lend, lcont, true);
    }

    method GenSpan(s: Stmt, cs: map<Key, int>, ltop: int)
      requires Valid() && s.Loop?
      modifies this, buf
      ensures Valid() && env == old(env) && Abs() == LoopSpan(old(Abs()), env, s, cs, ltop)
      decreases s, 0
    {
      hide Here, Jump, EmitTest, EmitO, FuelCheck, EmitS;
      LabelHere(ltop);
      GenTestOf(s.cond, s.testFirst, ltop + 2);
      GenStmt(s.body, cs);
      LabelHere(ltop + 1);
      GenOptional(s.post);
      GenTestOf(s.cond, !s.testFirst, ltop + 2);
      CheckFuel();
      JumpTo(Always, ltop);
      LabelHere(ltop + 2);
    }

    /** A label for each case, in order. */
    method NewCaseLabels(keys: seq<int>)
      requires Valid()
      modifies this
      ensures Valid() && env == old(env) && Abs() == CaseLabels(old(Abs()), keys)
    {
      var k := 0;
      while k < |keys|
        invariant 0 <= k <= |keys| && Valid() && env == old(env)
        invariant CaseLabels(Abs(), keys[k..]) == CaseLabels(old(Abs()), keys)
      {
        assert keys[k..][1..] == keys[k + 1..];
        var l := LabelNew();
        k := k + 1;
      }
    }

    /** The compare chain. */
    method GenChain(keys: seq<int>, first: int)
      requires Valid()
      modifies this, buf
      ensures Valid() && env == old(env) && Abs() == EmitChain(old(Abs()), env, keys, first)
    {
      hide Puts, Jump, Enc;
      var k := 0;
      while k < |keys|
        invariant 0 <= k <= |keys| && Valid() && env == old(env)
        invariant EmitChain(Abs(), env, keys[k..], first + k) == EmitChain(old(Abs()), env, keys, first)
      {
        assert keys[k..][0] == keys[k] && keys[k..][1..] == keys[k + 1..];
        PutAll([MovR11Imm(Enc(keys[k])), CmpRaxR11]);
        JumpTo(Z, first + k);
        k := k + 1;
      }
    }

    method GenSwitch(s: Stmt, cs: map<Key, int>)
      requires Valid() && s.Switch? && !fails
      modifies this, buf
      ensures Valid() && env == old(env) && Abs() == EmitS(old(Abs()), env, s, cs)
      decreases s, 1
    {
      hide NewLabel, Here, CaseLabels, LabelMap, Nest, EmitS, SwitchSpan, EmitKeepsS.SwitchLabels;
      if |brk| >= MAX_NEST {
        fails := true;
        DeepSwitch(old(Abs()), env, s, cs);
        return;
      }
      ghost var st := Abs();
      var n := |lab|;
      OpenSwitch(st, env, s, cs);
      SwitchSpanExits(st, env, s);
      GenSelector(s);
      ghost var s4 := Abs();
      EnterNest(n, 0, false);
      NestIn(s4, st, n);
      StmtExits(Abs(), env, s.body, LabelMap(s.keys, s.dflt, n + 1));
      GenStmt(s.body, LabelMap(s.keys, s.dflt, n + 1));
      LeaveNest(st, n, 0, false);
      LabelHere(n);
    }

    /** The labels, the value and the compare chain. */
    method GenSelector(s: Stmt)
      requires Valid() && s.Switch?
      modifies this, buf
      ensures Valid() && env == old(env)
      ensures Abs() == SwitchSpan(EmitKeepsS.SwitchLabels(old(Abs()), s.keys, s.dflt), env, s, old(|lab|))
      decreases s, 0
    {
      hide NewLabel, Jump, EmitE, EmitChain, CaseLabels;
      var n := |lab|;
      var lend := LabelNew();
      NewCaseLabels(s.keys);
      if s.dflt {
        var ldefault := LabelNew();
      }
      GenExpr(s.c);
      GenChain(s.keys, n + 1);
      JumpTo(Always, if s.dflt then n + 1 + |s.keys| else n);
    }

    // ---- functions and the unit ------------------------------------------------

    method GenParams(ps: seq<Param>)
      requires Valid()
      modifies this, buf
      ensures Valid() && env == old(env) && Abs() == EmitParams(old(Abs()), env, ps, 0)
    {
      hide Puts, ArgReg;
      var k := 0;
      while k < |ps|
        invariant 0 <= k <= |ps| && Valid() && env == old(env)
        invariant EmitParams(Abs(), env, ps[k..], k) == EmitParams(old(Abs()), env, ps, 0)
      {
        assert ps[k..][0] == ps[k] && ps[k..][1..] == ps[k + 1..];
        PutAll([MovRaxArg(ArgReg(k)), LeaRdiRbp(ps[k].off), StoreRdi(ps[k].w)]);
        k := k + 1;
      }
    }

    method GenPrologue(f: Func)
      requires Valid()
      modifies this, buf
      ensures Valid() && env == old(env) && Abs() == EmitPrologue(old(Abs()), env, f)
    {
      hide Put1, Puts, FuelCheck, Jump, EmitParams;
      PutAll([PushRbp, MovRbpRsp]);
      if f.frame > 0 {
        Put(SubRsp(f.frame));
      }
      CheckFuel();
      Put(CmpRspLimit);
      JumpTo(B, env.stack);
      GenParams(f.params);
    }

    method Restart()
      requires Valid()
      modifies this
      ensures Valid() && env == old(env) && Abs() == Fresh(old(Abs()))
    {
      if !fails {
        depth, brk, cont := 0, [], [];
      }
    }

    /** The entry label here, nothing pushed, nothing to leave, a new epilogue. */
    method StartFunc(entry: int)
      requires Valid()
      modifies this
      ensures Valid() && Abs() == NewLabel(Fresh(Here(old(Abs()), entry)))
      ensures env == old(env).(epi := env.epi) && (!fails ==> env.epi == old(|lab|))
    {
      hide Here, NewLabel, Fresh;
      HereKeeps(Abs(), entry);
      LabelHere(entry);
      FreshKeeps(Abs());
      Restart();
      var epi := LabelNew();
      env := env.(epi := epi);
    }

    method GenFunc(f: Func, entry: int)
      requires Valid()
      modifies this, buf
      ensures Valid() && env == old(env).(epi := env.epi) && Abs() == EmitF(old(Abs()), old(env), f, entry)
    {
      hide Put1, Puts, Here, NewLabel, Fresh, EmitPrologue, EmitS, EmitF;
      ghost var w, h, s0, s1, s2, p, h2, r := OpenFunc(Abs(), env, f, entry);
      StartFunc(entry);
      if fails {
        return;
      }
      GenPrologue(f);
      GenStmt(f.body, map[]);
      Put(XorEax);
      LabelHere(env.epi);
      PutAll([MovRspRbp, PopRbp, Ret]);
    }

    method GenFuncs(fs: seq<Func>)
      requires Valid() && |env.fn| == |fs|
      modifies this, buf
      ensures Valid() && env == old(env).(epi := env.epi) && Abs() == EmitFs(old(Abs()), old(env), fs, 0)
    {
      hide EmitF;
      var k := 0;
      while k < |fs|
        invariant 0 <= k <= |fs| && Valid() && env == old(env).(epi := env.epi)
        invariant EmitFs(Abs(), old(env), fs, k) == EmitFs(old(Abs()), old(env), fs, 0)
      {
        AnyEpilogue(Abs(), old(env), env, fs[k], env.fn[k]);
        GenFunc(fs[k], env.fn[k]);
        k := k + 1;
      }
    }

    method GenAbort(cause: int, here: int, done: int)
      requires Valid()
      modifies this, buf
      ensures Valid() && env == old(env) && Abs() == EmitAbort(old(Abs()), env, cause, here, done)
    {
      hide Puts, Here, Jump;
      LabelHere(here);
      PutAll([SetAborted(cause), XorEax]);
      JumpTo(Always, done);
    }

    method NewUnitLabels(n: nat)
      requires Valid()
      modifies this
      ensures Valid() && env == old(env) && Abs() == NewLabels(old(Abs()), n)
    {
      var k := n;
      while k > 0
        invariant 0 <= k <= n && Valid() && env == old(env)
        invariant NewLabels(Abs(), k) == NewLabels(old(Abs()), n)
      {
        var l := LabelNew();
        k := k - 1;
      }
    }

    /** Trampoline, functions, abort stubs, into an empty buffer. */
    method GenImage(fs: seq<Func>, entry: nat)
      requires Valid() && entry < |fs| && env == UnitEnv(fs, buf.Length) && Abs() == ES([], [], 0, 0, [], [], false)
      modifies this, buf
      ensures Valid() && Abs() == EmitUnit(fs, entry, buf.Length)
    {
      hide Puts, RelTo, Here, EmitFs, EmitAbort, NewLabels;
      var done := |fs| + 2;
      NewUnitLabels(|fs| + 3);
      PutAll([SaveKrsp, LoadPrsp]);
      Rel32(CallRel(0), entry);
      LabelHere(done);
      PutAll([LoadKrsp, Halt]);
      GenFuncs(fs);
      AbortEnv(Abs(), old(env), env, 1, |fs|, done);
      GenAbort(1, |fs|, done);
      AbortEnv(Abs(), old(env), env, 2, |fs| + 1, done);
      GenAbort(2, |fs| + 1, done);
    }

    /** Fill in every rel32; a jump to a label that was never placed is refused. */
    method Resolve() returns (ok: bool)
      requires Valid()
      modifies buf
      ensures ok <==> Pending(Abs()) == {}
      ensures ok ==> buf[..len] == Lay(items, lab)
    {
      hide Lay, FixesOf, One, Retarget, OffOf, Pending;
      FixesInOrder(items);
      var k := 0;
      while k < |fix|
        invariant 0 <= k <= |fix|
        invariant forall a :: 0 <= a < k ==> IsPlaced(Abs(), fix[a].to) && buf[fix[a].at] == One(items[fix[a].at], lab,
                  fix[a].at)
        invariant forall j :: 0 <= j < len && (forall a :: 0 <= a < k ==> fix[a].at != j) ==> buf[j] == items[j].i
      {
        var f := fix[k];
        if f.to < 0 || f.to >= |lab| || lab[f.to] < 0 {
          Unplaced(Abs(), f.at);
          return false;
        }
        assert forall a :: 0 <= a < k ==> fix[a].at < f.at;
        OneRel(items[f.at], lab, f.at);
        buf[f.at] := Retarget(buf[f.at], lab[f.to] - (f.at + 1));
        k := k + 1;
      }
      forall j | 0 <= j < len
        ensures buf[j] == One(items[j], lab, j) && (items[j].Rel? ==> IsPlaced(Abs(), items[j].to))
      {
        if items[j].Rel? {
          var a := FixFor(items, j);
        } else {
          OneFixed(items[j], lab, j);
        }
      }
      AllResolved(Abs());
      LaidOut(buf[..len], items, lab);
      return true;
    }
  }

  lemma OneRel(x: Item, lab: seq<int>, at: int)
    requires x.Rel? && 0 <= x.to < |lab|
    ensures One(x, lab, at) == Retarget(x.i, lab[x.to] - (at + 1))
  {
  }

  lemma OneFixed(x: Item, lab: seq<int>, at: int)
    requires x.Fixed?
    ensures One(x, lab, at) == x.i
  {
  }

  lemma HereKeeps(st: ES, l: int)
    ensures |Here(st, l).lab| == |st.lab|
  {
  }

  lemma FreshKeeps(st: ES)
    ensures |Fresh(st).lab| == |st.lab|
  {
  }

  lemma AnyEpilogue(st: ES, v: Env, w: Env, f: Func, entry: int)
    requires w == v.(epi := w.epi)
    ensures EmitF(st, v, f, entry) == EmitF(st, w, f, entry)
  {
    hide EmitPrologue, EmitS, Put1, Puts, Here, NewLabel, Fresh;
    assert v.(epi := |st.lab|) == w.(epi := |st.lab|);
  }

  lemma Unplaced(st: ES, at: nat)
    requires at < |st.items| && st.items[at].Rel? && !IsPlaced(st, st.items[at].to)
    ensures Pending(st) != {}
  {
    assert st.items[at].to in Pending(st);
  }

  lemma AllResolved(st: ES)
    requires forall j :: 0 <= j < |st.items| && st.items[j].Rel? ==> IsPlaced(st, st.items[j].to)
    ensures Pending(st) == {}
  {
  }

  lemma LaidOut(code: seq<Instr>, items: seq<Item>, lab: seq<int>)
    requires |code| == |items| && forall j :: 0 <= j < |items| ==> code[j] == One(items[j], lab, j)
    ensures code == Lay(items, lab)
  {
  }

  /** Compile a unit into `code`. `entry` is main's index, negative when there is
      none. A unit is accepted exactly when nothing overflowed on the way and no
      jump lacks a target. For bodies as the parser builds them no jump ever does:
      the unit is accepted exactly when its code, labels, jumps and nesting fit, and
      the buffer then holds the image of Gen.dfy. */
  method Codegen(code: array<Instr>, fs: seq<Func>, entry: int) returns (ok: bool, len: nat)
    requires entry < |fs|
    modifies code
    ensures len <= code.Length
    ensures ok <==>
              entry >= 0 && EmitFitsS.UnitFits(fs, entry, code.Length)
              && Pending(EmitUnit(fs, entry, code.Length)) == {}
    ensures (forall j :: 0 <= j < |fs| ==> Plain(fs[j])) ==>
              && (ok <==> entry >= 0 && EmitFitsS.UnitFits(fs, entry, code.Length))
              && (ok ==> code[..len] == GenUnit(fs, entry))
  {
    hide EmitUnit, Plain, Lay, Pending, GenUnit, EmitFitsS.UnitFits;
    if entry < 0 {
      return false, 0;
    }
    EmitFitsS.EmitsIff(fs, entry, code.Length);
    var e := new Emitter(code, UnitEnv(fs, code.Length));
    e.GenImage(fs, entry);
    if e.fails {
      return false, 0;
    }
    if forall j :: 0 <= j < |fs| ==> Plain(fs[j]) {
      ImageIs(fs, entry, code.Length);
    }
    ok := e.Resolve();
    len := e.len;
  }

  lemma AbortEnv(st: ES, v: Env, w: Env, cause: int, here: int, done: int)
    requires w == v.(epi := w.epi)
    ensures EmitAbort(st, v, cause, here, done) == EmitAbort(st, w, cause, here, done)
  {
    hide Here;
    PutsEnv(Here(st, here), v, w, [SetAborted(cause), XorEax]);
  }

  lemma {:induction false} PutsEnv(st: ES, v: Env, w: Env, c: seq<Instr>)
    requires w == v.(epi := w.epi)
    ensures Puts(st, v, c) == Puts(st, w, c)
    decreases |c|
  {
    if c != [] {
      PutsEnv(Put1(st, v, c[0]), v, w, c[1..]);
    }
  }
}
