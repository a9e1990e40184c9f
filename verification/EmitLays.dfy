// Appending, labelling and patching produces the code of Gen.dfy: once every
// label has its place, the emitted expression is GenE of it.

module EmitLays {
  import opened Words
  import opened CTree
  import opened X64
  import opened Gen
  import opened SimOpen
  import opened Emit
  import opened EmitKeeps

  /** Going from `a` to `b` appended exactly `c`. */
  ghost predicate Writes(a: ES, b: ES, off: seq<int>, c: seq<Instr>) {
    !b.fails ==> !a.fails && Lay(b.items, off) == Lay(a.items, off) + c && |b.items| == |a.items| + |c|
  }

  /** `off` has the places that `t` gave to the labels from `n` on. */
  ghost predicate Agrees(off: seq<int>, t: ES, n: int) {
    forall l :: n <= l < |t.lab| && IsPlaced(t, l) ==> OffOf(off, l) == t.lab[l]
  }

  // ---- composition -----------------------------------------------------------------

  lemma WritesThen(a: ES, b: ES, c: ES, off: seq<int>, c1: seq<Instr>, c2: seq<Instr>)
    requires Writes(a, b, off, c1) && Writes(b, c, off, c2)
    ensures Writes(a, c, off, c1 + c2)
  {
    hide Lay;
  }

  /** A step that appends nothing. */
  lemma WritesNone(a: ES, b: ES, off: seq<int>)
    requires b.items == a.items && (!b.fails ==> !a.fails)
    ensures Writes(a, b, off, [])
  {
    hide Lay;
  }

  lemma WritesQuiet(a: ES, b: ES, c: ES, off: seq<int>, code: seq<Instr>)
    requires Writes(a, b, off, code) && c.items == b.items && (!c.fails ==> !b.fails)
    ensures Writes(a, c, off, code)
  {
    hide Lay;
  }

  lemma WritesFrom(a: ES, b: ES, c: ES, off: seq<int>, code: seq<Instr>)
    requires Writes(b, c, off, code) && b.items == a.items && (!b.fails ==> !a.fails)
    ensures Writes(a, c, off, code)
  {
    hide Lay;
  }

  /** Places survive to the end of the enclosing construct. */
  lemma AgreesPart(off: seq<int>, n: int, from: int, s: ES, t: ES, ch: set<int>, v: Env, d: int)
    requires Agrees(off, t, n) && n <= from && Neat(ch, s, t, v, d) && !t.fails
    requires forall l :: l in ch ==> l < from
    ensures Agrees(off, s, from)
  {
    hide Pending, OffOf;
  }

  // ---- primitives --------------------------------------------------------------------

  lemma LayAdd(items: seq<Item>, x: Item, off: seq<int>)
    ensures Lay(items + [x], off) == Lay(items, off) + [One(x, off, |items|)]
  {
    hide One;
  }

  lemma WritesPut(st: ES, v: Env, i: Instr, off: seq<int>)
    ensures Writes(st, Put1(st, v, i), off, [i])
  {
    hide Lay;
    LayAdd(st.items, Fixed(i, st.depth), off);
  }

  lemma {:induction false} WritesPuts(st: ES, v: Env, c: seq<Instr>, off: seq<int>)
    ensures Writes(st, Puts(st, v, c), off, c)
    decreases |c|
  {
    hide Put1, Writes;
    if c == [] {
      WritesNone(st, st, off);
    } else {
      var s1 := Put1(st, v, c[0]);
      WritesPut(st, v, c[0], off);
      WritesPuts(s1, v, c[1..], off);
      WritesThen(st, s1, Puts(s1, v, c[1..]), off, [c[0]], c[1..]);
      assert [c[0]] + c[1..] == c;
    }
  }

  lemma WritesRel(st: ES, v: Env, i: Instr, l: int, off: seq<int>)
    ensures Writes(st, RelTo(st, v, i, l), off, [Retarget(i, OffOf(off, l) - (|st.items| + 1))])
  {
    hide Lay, OffOf, Retarget;
    LayAdd(st.items, Rel(i, l, st.depth), off);
  }

  lemma WritesJump(st: ES, v: Env, cc: CC, l: int, off: seq<int>)
    ensures Writes(st, Jump(st, v, cc, l), off, [Far(cc, OffOf(off, l), |st.items|)])
  {
    hide RelTo, Writes, OffOf;
    WritesRel(st, v, J(cc, 0), l, off);
  }

  lemma DeeperItems(st: ES, d: int)
    ensures Deeper(st, d).items == st.items && Deeper(st, d).fails == st.fails
  {
  }

  lemma HereItems(st: ES, l: int)
    ensures Here(st, l).items == st.items && Here(st, l).fails == st.fails
  {
  }

  lemma WritesPush(st: ES, v: Env, off: seq<int>)
    ensures Writes(st, Push(st, v), off, [PushRax])
  {
    hide Put1, Deeper, Writes;
    WritesPut(st, v, PushRax, off);
    DeeperItems(Put1(st, v, PushRax), 1);
    WritesQuiet(st, Put1(st, v, PushRax), Push(st, v), off, [PushRax]);
  }

  lemma WritesPop(st: ES, v: Env, x: Reg, off: seq<int>)
    ensures Writes(st, PopTo(st, v, x), off, [Pop(x)])
  {
    hide Put1, Deeper, Writes;
    WritesPut(st, v, Pop(x), off);
    DeeperItems(Put1(st, v, Pop(x)), -1);
    WritesQuiet(st, Put1(st, v, Pop(x)), PopTo(st, v, x), off, [Pop(x)]);
  }

  lemma WritesFuel(st: ES, v: Env, off: seq<int>)
    ensures Writes(st, FuelCheck(st, v), off, [DecFuel, Far(S, OffOf(off, v.fuel), |st.items| + 1)])
  {
    hide Lay, OffOf, Put1, Jump, Far;
    var s1 := Put1(st, v, DecFuel);
    WritesPut(st, v, DecFuel, off);
    WritesJump(s1, v, S, v.fuel, off);
    var j := Far(S, OffOf(off, v.fuel), |s1.items|);
    WritesThen(st, s1, FuelCheck(st, v), off, [DecFuel], [j]);
    assert [DecFuel] + [j] == [DecFuel, j];
  }

  lemma WritesTest(st: ES, v: Env, cc: CC, l: int, off: seq<int>)
    ensures Writes(st, Jump(Put1(st, v, TestRax), v, cc, l), off, [TestRax, Far(cc, OffOf(off, l), |st.items| + 1)])
  {
    hide Lay, OffOf, Put1, Jump, Far;
    var s1 := Put1(st, v, TestRax);
    WritesPut(st, v, TestRax, off);
    WritesJump(s1, v, cc, l, off);
    var j := Far(cc, OffOf(off, l), |s1.items|);
    WritesThen(st, s1, Jump(s1, v, cc, l), off, [TestRax], [j]);
    assert [TestRax] + [j] == [TestRax, j];
  }

  // ---- calls -------------------------------------------------------------------------

  lemma {:induction false} WritesPops(st: ES, v: Env, n: nat, off: seq<int>)
    ensures Writes(st, PopArgs(st, v, n), off, Pops(n))
    decreases n
  {
    hide PopTo, Writes, ArgReg;
    if n == 0 {
      WritesNone(st, st, off);
    } else {
      var s1 := PopTo(st, v, ArgReg(n - 1));
      WritesPop(st, v, ArgReg(n - 1), off);
      WritesPops(s1, v, n - 1, off);
      WritesThen(st, s1, PopArgs(s1, v, n - 1), off, [Pop(ArgReg(n - 1))], Pops(n - 1));
    }
  }

  lemma WritesCallTo(st: ES, v: Env, callee: Callee, n: nat, off: seq<int>)
    ensures Writes(st, CallTo(st, v, callee, n), off, CallCode(callee, n, |st.items|, LinksOf(v, off)))
  {
    hide Lay, Puts, RelTo, OffOf;
    match callee
    case Unit(i) =>
      if i < |v.fn| {
        WritesRel(st, v, CallRel(0), v.fn[i], off);
        assert LinksOf(v, off).fn[i] == OffOf(off, v.fn[i]);
      }
    case Kernel(a) => WritesPuts(st, v, [MovR11Imm(a), CallR11(n)], off);
  }

  lemma WritesPad(st: ES, v: Env, pad: bool, i: Instr, d: nat, off: seq<int>)
    requires pad == (d % 2 == 1)
    ensures Writes(st, if pad then Put1(st, v, i) else st, off, Pad(d, i))
  {
    hide Lay, Put1;
    WritesPut(st, v, i, off);
  }

  lemma EnterShape(callee: Callee, ty: Ty, n: nat, d: nat, at: int, k: Links, q: int)
    requires q == at + |Pops(n)| + |Pad(d, SubRsp(8))|
    ensures Enter(callee, ty, n, d, at, k)
            == Pops(n) + Pad(d, SubRsp(8)) + [DecFuel, Far(S, k.fuel, q + 1)]
               + CallCode(callee, n, q + 2, k) + Pad(d, AddRsp(8)) + Norm(ty)
  {
    hide Pops, Pad, CallCode, Norm;
    var a := Pops(n) + Pad(d, SubRsp(8));
    assert a + [DecFuel] + [Far(S, k.fuel, q + 1)] == a + [DecFuel, Far(S, k.fuel, q + 1)];
  }

  lemma WritesEnter(st: ES, v: Env, callee: Callee, ty: Ty, n: nat, off: seq<int>)
    requires !EmitEnter(st, v, callee, ty, n).fails && st.depth >= n
    ensures Writes(st, EmitEnter(st, v, callee, ty, n), off,
                   Enter(callee, ty, n, st.depth - n, |st.items|, LinksOf(v, off)))
  {
    hide PopArgs, FuelCheck, CallTo, Puts, Put1, Neat, Norm, Lay, Pops, Pad, CallCode, Enter, LinksOf, OffOf, Far;
    var d := st.depth - n;
    var s1 := PopArgs(st, v, n);
    var pad := s1.depth % 2 == 1;
    var p1 := if pad then Put1(s1, v, SubRsp(8)) else s1;
    var s2 := FuelCheck(p1, v);
    var s3 := CallTo(s2, v, callee, n);
    var p2 := if pad then Put1(s3, v, AddRsp(8)) else s3;
    NeatPopArgs(st, v, n);
    NeatFacts({}, st, s1, v, 0 - n);
    WritesPops(st, v, n, off);
    WritesPad(s1, v, pad, SubRsp(8), d, off);
    WritesFuel(p1, v, off);
    WritesCallTo(s2, v, callee, n, off);
    WritesPad(s3, v, pad, AddRsp(8), d, off);
    WritesPuts(p2, v, Norm(ty), off);
    var k := LinksOf(v, off);
    var q := |st.items| + |Pops(n)| + |Pad(d, SubRsp(8))|;
    EnterShape(callee, ty, n, d, |st.items|, k, q);
    LinksFuel(v, off);
    var c1 := Pops(n) + Pad(d, SubRsp(8));
    var c2 := c1 + [DecFuel, Far(S, k.fuel, q + 1)];
    WritesThen(st, s1, p1, off, Pops(n), Pad(d, SubRsp(8)));
    WritesThen(st, p1, s2, off, c1, [DecFuel, Far(S, k.fuel, q + 1)]);
    WritesThen(st, s2, s3, off, c2, CallCode(callee, n, q + 2, k));
    WritesThen(st, s3, p2, off, c2 + CallCode(callee, n, q + 2, k), Pad(d, AddRsp(8)));
    WritesThen(st, p2, EmitEnter(st, v, callee, ty, n), off,
               c2 + CallCode(callee, n, q + 2, k) + Pad(d, AddRsp(8)), Norm(ty));
  }

  lemma LinksFuel(v: Env, off: seq<int>)
    ensures LinksOf(v, off).fuel == OffOf(off, v.fuel) && LinksOf(v, off).stack == OffOf(off, v.stack)
  {
  }

  // ---- expressions -------------------------------------------------------------------

  ghost predicate LayE(st: ES, v: Env, e: Expr, off: seq<int>) {
    st.depth >= 0 && Writes(st, EmitE(st, v, e), off, GenE(e, st.depth, |st.items|, LinksOf(v, off)))
  }

  ghost predicate LayL(st: ES, v: Env, lv: LVal, off: seq<int>) {
    st.depth >= 0 && Writes(st, EmitL(st, v, lv), off, GenL(lv, st.depth, |st.items|, LinksOf(v, off)))
  }

  ghost predicate LayA(st: ES, v: Env, args: Args, off: seq<int>) {
    st.depth >= 0 && Writes(st, EmitA(st, v, args), off, GenA(args, st.depth, |st.items|, LinksOf(v, off)))
  }

  ghost predicate GoodE(st: ES, v: Env, e: Expr, off: seq<int>) {
    st.depth >= 0 && !EmitE(st, v, e).fails && Agrees(off, EmitE(st, v, e), |st.lab|)
  }

  ghost predicate GoodL(st: ES, v: Env, lv: LVal, off: seq<int>) {
    st.depth >= 0 && !EmitL(st, v, lv).fails && Agrees(off, EmitL(st, v, lv), |st.lab|)
  }

  ghost predicate GoodA(st: ES, v: Env, args: Args, off: seq<int>) {
    st.depth >= 0 && !EmitA(st, v, args).fails && Agrees(off, EmitA(st, v, args), |st.lab|)
  }

  /** First operand, push, second operand, pop, straight code. */
  lemma WritesPair(a: ES, b: ES, c: ES, d: ES, e: ES, v: Env, off: seq<int>, c1: seq<Instr>, c2: seq<Instr>,
                   seg: seq<Instr>)
    requires Writes(a, b, off, c1) && c == Push(b, v) && Writes(c, d, off, c2) && e == Puts(PopTo(d, v, Rdi), v, seg)
    ensures Writes(a, e, off, c1 + [PushRax] + c2 + [Pop(Rdi)] + seg)
  {
    hide Writes, Push, PopTo, Puts;
    WritesPush(b, v, off);
    WritesPop(d, v, Rdi, off);
    WritesPuts(PopTo(d, v, Rdi), v, seg, off);
    WritesThen(a, b, c, off, c1, [PushRax]);
    WritesThen(a, c, d, off, c1 + [PushRax], c2);
    WritesThen(a, d, PopTo(d, v, Rdi), off, c1 + [PushRax] + c2, [Pop(Rdi)]);
    WritesThen(a, PopTo(d, v, Rdi), e, off, c1 + [PushRax] + c2 + [Pop(Rdi)], seg);
  }

  /** The states of a two-operand emission agree with `off` where they must. */
  lemma PairAgrees(a: ES, b: ES, c: ES, d: ES, e: ES, v: Env, off: seq<int>, seg: seq<Instr>)
    requires Neat({}, a, b, v, 0) && c == Push(b, v) && Neat({}, c, d, v, 0) && e == Puts(PopTo(d, v, Rdi), v, seg)
    requires Agrees(off, e, |a.lab|) && !e.fails
    ensures Agrees(off, b, |a.lab|) && Agrees(off, d, |c.lab|) && !b.fails && !d.fails
    ensures c.depth == a.depth + 1 && |c.items| == |b.items| + 1
  {
    hide Neat, Push, PopTo, Puts, Agrees;
    NeatPush(b, v);
    NeatPop(d, v, Rdi);
    NeatPuts(PopTo(d, v, Rdi), v, seg);
    NeatJoin(d, PopTo(d, v, Rdi), e, v, -1, 0);
    NeatJoin(b, c, d, v, 1, 0);
    NeatJoin(b, d, e, v, 1, -1);
    NeatFacts({}, d, e, v, -1);
    NeatFacts({}, c, d, v, 0);
    NeatFacts({}, b, c, v, 1);
    NeatFacts({}, a, b, v, 0);
    AgreesPart(off, |a.lab|, |a.lab|, b, e, {}, v, 0);
    AgreesPart(off, |a.lab|, |c.lab|, d, e, {}, v, -1);
    PushItems(b, v);
  }

  lemma PushItems(st: ES, v: Env)
    ensures !Push(st, v).fails ==> |Push(st, v).items| == |st.items| + 1
  {
  }

  lemma OpenPair(st: ES, v: Env, e: Expr) returns (s1: ES, s2: ES, s3: ES, seg: seq<Instr>)
    requires (e.Bin? || e.Cmp?) && !st.fails
    ensures s1 == EmitE(st, v, e.r) && s2 == Push(s1, v) && s3 == EmitE(s2, v, e.l)
    ensures seg == if e.Bin? then BinCode(e.op, e.ty) + Norm(e.ty) else CmpCode(e.cmp, ETy(e.l))
    ensures EmitE(st, v, e) == Puts(PopTo(s3, v, Rdi), v, seg)
  {
    hide Push, PopTo, Puts, BinCode, CmpCode, Norm, ETy;
    s1 := EmitE(st, v, e.r);
    s2 := Push(s1, v);
    s3 := EmitE(s2, v, e.l);
    seg := if e.Bin? then BinCode(e.op, e.ty) + Norm(e.ty) else CmpCode(e.cmp, ETy(e.l));
  }

  lemma LaysPair(st: ES, v: Env, e: Expr, off: seq<int>)
    requires (e.Bin? || e.Cmp?) && GoodE(st, v, e, off)
    ensures LayE(st, v, e, off)
    decreases e, 0
  {
    hide EmitE, GenE, Push, PopTo, Puts, BinCode, CmpCode, Norm, ETy, Neat, Agrees, Lay, LinksOf;
    var s1, s2, s3, seg := OpenPair(st, v, e);
    NeatE(st, v, e.r);
    NeatE(s2, v, e.l);
    var t := EmitE(st, v, e);
    PairAgrees(st, s1, s2, s3, t, v, off, seg);
    LaysE(st, v, e.r, off);
    LaysE(s2, v, e.l, off);
    var k := LinksOf(v, off);
    var c1, c2: seq<Instr>;
    if e.Bin? {
      c1, c2 := CodeBin(e, st.depth, |st.items|, k);
    } else {
      c1, c2 := CodeCmp(e, st.depth, |st.items|, k);
    }
    WritesPair(st, s1, s2, s3, t, v, off, c1, c2, seg);
  }

  lemma OpenAssign(st: ES, v: Env, e: Expr) returns (s1: ES, s2: ES, s3: ES, seg: seq<Instr>)
    requires e.Assign? && !st.fails
    ensures s1 == EmitL(st, v, e.lv) && s2 == Push(s1, v) && s3 == EmitE(s2, v, e.rhs)
    ensures seg == [StoreRdi(if e.ty.Int? then e.ty.w else B8)]
    ensures EmitE(st, v, e) == Puts(PopTo(s3, v, Rdi), v, seg)
  {
    hide Push, PopTo, Put1, EmitL;
    s1 := EmitL(st, v, e.lv);
    s2 := Push(s1, v);
    s3 := EmitE(s2, v, e.rhs);
    seg := [StoreRdi(if e.ty.Int? then e.ty.w else B8)];
    var p := PopTo(s3, v, Rdi);
    assert Puts(p, v, seg) == Puts(Put1(p, v, seg[0]), v, []);
    assert EmitE(st, v, e) == Put1(p, v, seg[0]);
  }

  lemma CodeStore(e: Expr, d: nat, at: int, k: Links) returns (c1: seq<Instr>, c2: seq<Instr>)
    requires e.Assign?
    ensures c1 == GenL(e.lv, d, at, k) && c2 == GenE(e.rhs, d + 1, at + |c1| + 1, k)
    ensures GenE(e, d, at, k) == c1 + [PushRax] + c2 + [Pop(Rdi)] + [StoreRdi(if e.ty.Int? then e.ty.w else B8)]
  {
    c1 := GenL(e.lv, d, at, k);
    c2 := GenE(e.rhs, d + 1, at + |c1| + 1, k);
    var i := StoreRdi(if e.ty.Int? then e.ty.w else B8);
    assert [Pop(Rdi), i] == [Pop(Rdi)] + [i];
    assert GenE(e, d, at, k) == c1 + [PushRax] + c2 + [Pop(Rdi), i];
  }

  lemma LaysAssign(st: ES, v: Env, e: Expr, off: seq<int>)
    requires e.Assign? && GoodE(st, v, e, off)
    ensures LayE(st, v, e, off)
    decreases e, 0
  {
    hide EmitE, EmitL, GenE, GenL, Push, PopTo, Puts, Neat, Agrees, Lay, LinksOf;
    var s1, s2, s3, seg := OpenAssign(st, v, e);
    NeatL(st, v, e.lv);
    NeatE(s2, v, e.rhs);
    var t := EmitE(st, v, e);
    PairAgrees(st, s1, s2, s3, t, v, off, seg);
    LaysL(st, v, e.lv, off);
    LaysE(s2, v, e.rhs, off);
    var c1, c2 := CodeStore(e, st.depth, |st.items|, LinksOf(v, off));
    WritesPair(st, s1, s2, s3, t, v, off, c1, c2, seg);
  }

  lemma OpenUnary(st: ES, v: Env, e: Expr) returns (s1: ES)
    requires (e.Load? || e.Cast? || e.Not? || e.BitNot? || e.Addr?) && !st.fails
    ensures s1 == if e.Load? || e.Addr? then EmitL(st, v, e.lv) else EmitE(st, v, e.e)
    ensures EmitE(st, v, e) == Puts(s1, v, Suffix(e))
  {
    hide EmitL, Norm, LoadCode;
    s1 := if e.Load? || e.Addr? then EmitL(st, v, e.lv) else EmitE(st, v, e.e);
  }

  lemma LaysUnary(st: ES, v: Env, e: Expr, off: seq<int>)
    requires (e.Load? || e.Cast? || e.Not? || e.BitNot? || e.Addr?) && GoodE(st, v, e, off)
    ensures LayE(st, v, e, off)
    decreases e, 0
  {
    hide EmitE, EmitL, GenE, GenL, Puts, Neat, Agrees, Lay, LinksOf, Suffix;
    var s1 := OpenUnary(st, v, e);
    NeatPuts(s1, v, Suffix(e));
    AgreesPart(off, |st.lab|, |st.lab|, s1, EmitE(st, v, e), {}, v, 0);
    var c1 := CodeUnary(e, st.depth, |st.items|, LinksOf(v, off));
    if e.Load? || e.Addr? {
      LaysL(st, v, e.lv, off);
    } else {
      LaysE(st, v, e.e, off);
    }
    WritesPuts(s1, v, Suffix(e), off);
    WritesThen(st, s1, EmitE(st, v, e), off, c1, Suffix(e));
  }

  lemma LaysNum(st: ES, v: Env, e: Expr, off: seq<int>)
    requires e.Num? && GoodE(st, v, e, off)
    ensures LayE(st, v, e, off)
  {
    hide Lay, Put1, Enc;
    WritesPut(st, v, MovRaxImm(Enc(e.val)), off);
  }

  lemma LaysComma(st: ES, v: Env, e: Expr, off: seq<int>)
    requires e.Comma? && GoodE(st, v, e, off)
    ensures LayE(st, v, e, off)
    decreases e, 0
  {
    hide GenE, Neat, Agrees, Lay, LinksOf;
    var s1 := EmitE(st, v, e.l);
    var t := EmitE(s1, v, e.r);
    assert t == EmitE(st, v, e);
    NeatE(st, v, e.l);
    NeatE(s1, v, e.r);
    NeatFacts({}, st, s1, v, 0);
    AgreesPart(off, |st.lab|, |st.lab|, s1, t, {}, v, 0);
    AgreesUp(off, t, |st.lab|, |s1.lab|);
    LaysE(st, v, e.l, off);
    LaysE(s1, v, e.r, off);
    var c1, c2 := CodeComma(e, st.depth, |st.items|, LinksOf(v, off));
    WritesThen(st, s1, t, off, c1, c2);
  }

  lemma AgreesUp(off: seq<int>, t: ES, m: int, n: int)
    requires Agrees(off, t, m) && m <= n
    ensures Agrees(off, t, n)
  {
    hide OffOf;
  }

  lemma LaysCall(st: ES, v: Env, e: Expr, off: seq<int>)
    requires e.Call? && GoodE(st, v, e, off)
    ensures LayE(st, v, e, off)
    decreases e, 0
  {
    hide GenE, GenA, EmitA, EmitEnter, Enter, Neat, Agrees, Lay, LinksOf, Count;
    var n: int := Count(e.args);
    var s1 := EmitA(st, v, e.args);
    var t := EmitEnter(s1, v, e.callee, e.ty, n);
    assert t == EmitE(st, v, e);
    NeatA(st, v, e.args);
    NeatFacts({}, st, s1, v, n);
    NeatEnter(s1, v, e.callee, e.ty, n);
    AgreesPart(off, |st.lab|, |st.lab|, s1, t, {}, v, 0 - n);
    LaysA(st, v, e.args, off);
    WritesEnter(s1, v, e.callee, e.ty, n, off);
    var c1, c2 := CodeCall(e, st.depth, |st.items|, LinksOf(v, off));
    WritesThen(st, s1, t, off, c1, c2);
  }

  // ---- control -----------------------------------------------------------------------

  lemma PlaceAgrees(off: seq<int>, t: ES, n: int, l: int)
    requires Agrees(off, t, n) && n <= l < |t.lab| && IsPlaced(t, l)
    ensures OffOf(off, l) == t.lab[l]
  {
    hide OffOf;
  }

  lemma LaysCond(st: ES, v: Env, e: Expr, off: seq<int>)
    requires e.Cond? && GoodE(st, v, e, off)
    ensures LayE(st, v, e, off)
    decreases e, 1
  {
    hide GenE, NewLabel, Here, Jump, Put1, Agrees, Lay, LinksOf, Handed;
    var s0 := TwoNew(st);
    var s1 := EmitE(s0, v, e.c);
    var t1 := Jump(Put1(s1, v, TestRax), v, Z, |st.lab|);
    var s2 := EmitE(t1, v, e.t);
    var t2 := Jump(s2, v, Always, |st.lab| + 1);
    var t3 := Here(t2, |st.lab|);
    var s3 := EmitE(t3, v, e.f);
    var r := Here(s3, |st.lab| + 1);
    assert r == EmitE(st, v, e);
    LaysCondSteps(st, v, e, off, s0, s1, t1, s2, t2, t3, s3, r);
  }

  /** Two own labels moved, both handed out before `from`. */
  lemma AgreesTwo(off: seq<int>, n: int, from: int, s: ES, t: ES, v: Env)
    requires Agrees(off, t, n) && n + 2 <= from && Neat({n, n + 1}, s, t, v, 0) && !t.fails
    ensures Agrees(off, s, from) && !s.fails && s.depth == t.depth
  {
    hide Neat, Agrees;
    AgreesPart(off, n, from, s, t, {n, n + 1}, v, 0);
    NeatFacts({n, n + 1}, s, t, v, 0);
  }

  lemma NeatBack(ch: set<int>, ch2: set<int>, a: ES, b: ES, c: ES, v: Env)
    requires Neat(ch2, a, b, v, 0) && Neat(ch, b, c, v, 0) && ch2 <= ch
    ensures Neat(ch, a, c, v, 0)
  {
    hide Neat;
    NeatFewer(ch2, ch, a, b, v, 0);
    NeatThen(ch, ch, a, b, c, v, 0, 0);
  }

  lemma CondNeat(n: int, v: Env, e: Expr, s0: ES, s1: ES, t1: ES, s2: ES, t2: ES, t3: ES, s3: ES, r: ES)
    requires e.Cond? && !r.fails
    requires s1 == EmitE(s0, v, e.c) && t1 == Jump(Put1(s1, v, TestRax), v, Z, n)
    requires s2 == EmitE(t1, v, e.t) && t2 == Jump(s2, v, Always, n + 1)
    requires t3 == Here(t2, n) && s3 == EmitE(t3, v, e.f) && r == Here(s3, n + 1)
    ensures var ch := {n, n + 1};
            && Neat(ch, s1, r, v, 0) && Neat(ch, t1, r, v, 0) && Neat(ch, s2, r, v, 0)
            && Neat(ch, t3, r, v, 0) && Neat(ch, s3, r, v, 0)
  {
    hide EmitE, Here, Jump, Put1, Neat, IsPlaced;
    var ch := {n, n + 1};
    NeatTest(ch, s1, v, Z, n);
    NeatE(t1, v, e.t);
    NeatJump(ch, s2, v, Always, n + 1);
    NeatHere(t2, n, v);
    NeatE(t3, v, e.f);
    NeatHere(s3, n + 1, v);
    NeatFewer({n + 1}, ch, s3, r, v, 0);
    NeatBack(ch, {}, t3, s3, r, v);
    NeatBack(ch, {n}, t2, t3, r, v);
    NeatBack(ch, ch, s2, t2, r, v);
    NeatBack(ch, {}, t1, s2, r, v);
    NeatBack(ch, ch, s1, t1, r, v);
  }

  lemma CondPlaces(n: int, v: Env, e: Expr, t2: ES, t3: ES, s3: ES, r: ES)
    requires e.Cond? && !r.fails && 0 <= n && n + 1 < |t2.lab|
    requires t3 == Here(t2, n) && s3 == EmitE(t3, v, e.f) && r == Here(s3, n + 1)
    ensures IsPlaced(r, n) && IsPlaced(r, n + 1) && r.lab[n] == |t2.items| && r.lab[n + 1] == |s3.items|
    ensures t3.items == t2.items && t3.fails == t2.fails && r.items == s3.items && r.fails == s3.fails
  {
    hide EmitE, Here, Neat;
    NeatHere(t2, n, v);
    NeatE(t3, v, e.f);
    NeatHere(s3, n + 1, v);
    KeptPlace({}, t3, s3, v, 0, n);
    KeptPlace({n + 1}, s3, r, v, 0, n);
  }

  /** The three parts may be laid out. */
  lemma CondAgrees(st: ES, v: Env, e: Expr, off: seq<int>,
                   s0: ES, s1: ES, t1: ES, s2: ES, t2: ES, t3: ES, s3: ES, r: ES)
    requires e.Cond? && st.depth >= 0 && !r.fails && Agrees(off, r, |st.lab|)
    requires Handed(st, s0) && (!s0.fails ==> |s0.lab| == |st.lab| + 2)
    requires s1 == EmitE(s0, v, e.c) && t1 == Jump(Put1(s1, v, TestRax), v, Z, |st.lab|)
    requires s2 == EmitE(t1, v, e.t) && t2 == Jump(s2, v, Always, |st.lab| + 1)
    requires t3 == Here(t2, |st.lab|) && s3 == EmitE(t3, v, e.f) && r == Here(s3, |st.lab| + 1)
    ensures GoodE(s0, v, e.c, off) && GoodE(t1, v, e.t, off) && GoodE(t3, v, e.f, off)
    ensures t1.depth == st.depth && t3.depth == st.depth && |t2.lab| >= |st.lab| + 2 && !st.fails
  {
    hide EmitE, Here, Jump, Put1, Agrees, Handed, Neat, IsPlaced;
    var n := |st.lab|;
    HandedFacts(st, s0);
    CondNeat(n, v, e, s0, s1, t1, s2, t2, t3, s3, r);
    NeatE(s0, v, e.c);
    NeatFacts({n, n + 1}, s1, r, v, 0);
    NeatFacts({}, s0, s1, v, 0);
    NeatFacts({n, n + 1}, t1, r, v, 0);
    NeatFacts({n, n + 1}, t3, r, v, 0);
    AgreesTwo(off, n, |s0.lab|, s1, r, v);
    AgreesTwo(off, n, |t1.lab|, s2, r, v);
    AgreesTwo(off, n, |t3.lab|, s3, r, v);
  }

  lemma LaysCondSteps(st: ES, v: Env, e: Expr, off: seq<int>,
                      s0: ES, s1: ES, t1: ES, s2: ES, t2: ES, t3: ES, s3: ES, r: ES)
    requires e.Cond? && st.depth >= 0 && !r.fails && Agrees(off, r, |st.lab|)
    requires Handed(st, s0) && (!s0.fails ==> |s0.lab| == |st.lab| + 2)
    requires s1 == EmitE(s0, v, e.c) && t1 == Jump(Put1(s1, v, TestRax), v, Z, |st.lab|)
    requires s2 == EmitE(t1, v, e.t) && t2 == Jump(s2, v, Always, |st.lab| + 1)
    requires t3 == Here(t2, |st.lab|) && s3 == EmitE(t3, v, e.f) && r == Here(s3, |st.lab| + 1)
    ensures Writes(st, r, off, GenE(e, st.depth, |st.items|, LinksOf(v, off)))
    decreases e, 0
  {
    hide EmitE, GenE, Here, Jump, Put1, Agrees, Lay, LinksOf, Handed, Far, OffOf, IsPlaced;
    var lelse, lend := |st.lab|, |st.lab| + 1;
    CondAgrees(st, v, e, off, s0, s1, t1, s2, t2, t3, s3, r);
    HandedFacts(st, s0);
    CondPlaces(lelse, v, e, t2, t3, s3, r);
    PlaceAgrees(off, r, lelse, lelse);
    PlaceAgrees(off, r, lelse, lend);
    LaysE(s0, v, e.c, off);
    LaysE(t1, v, e.t, off);
    LaysE(t3, v, e.f, off);
    WritesTest(s1, v, Z, lelse, off);
    WritesJump(s2, v, Always, lend, off);
    var k := LinksOf(v, off);
    var c1, c2, c3 := CodeCond(e, st.depth, |st.items|, k);
    var j1 := [TestRax, Far(Z, OffOf(off, lelse), |s1.items| + 1)];
    var j2 := [Far(Always, OffOf(off, lend), |s2.items|)];
    WritesFrom(st, s0, s1, off, c1);
    WritesThen(st, s1, t1, off, c1, j1);
    WritesThen(st, t1, s2, off, c1 + j1, c2);
    WritesThen(st, s2, t2, off, c1 + j1 + c2, j2);
    WritesQuiet(st, t2, t3, off, c1 + j1 + c2 + j2);
    WritesThen(st, t3, s3, off, c1 + j1 + c2 + j2, c3);
    WritesQuiet(st, s3, r, off, c1 + j1 + c2 + j2 + c3);
    FarIs(Z, OffOf(off, lelse), |s1.items| + 1, |c2| + 1);
    FarIs(Always, OffOf(off, lend), |s2.items|, |c3|);
  }

  lemma HandedFacts(st: ES, s: ES)
    requires Handed(st, s)
    ensures s.items == st.items && s.depth == st.depth && (!s.fails ==> !st.fails) && |s.lab| >= |st.lab|
  {
  }

  lemma FarIs(cc: CC, target: int, at: int, rel: int)
    requires target == at + 1 + rel
    ensures Far(cc, target, at) == J(cc, rel)
  {
  }

  lemma {:induction false} LaysL(st: ES, v: Env, lv: LVal, off: seq<int>)
    requires GoodL(st, v, lv, off)
    ensures LayL(st, v, lv, off)
    decreases lv, 2
  {
    hide EmitE, GenE, Put1, Neat, Agrees, Lay, LinksOf, Enc;
    match lv
    case Local(o) => WritesPut(st, v, LeaRaxRbp(o), off);
    case Global(a) => WritesPut(st, v, MovRaxImm(Enc(a)), off);
    case Deref(e) => LaysE(st, v, e, off);
    case Member(_, _) => LaysMember(st, v, lv, off);
    case CommaL(_, _) => LaysCommaL(st, v, lv, off);
  }

  lemma LaysMember(st: ES, v: Env, lv: LVal, off: seq<int>)
    requires lv.Member? && GoodL(st, v, lv, off)
    ensures LayL(st, v, lv, off)
    decreases lv, 1
  {
    hide Put1, Neat, Agrees, Lay, LinksOf, GenL;
    var s1 := EmitL(st, v, lv.lv);
    var c1 := CodeMember(lv, st.depth, |st.items|, LinksOf(v, off));
    NeatL(st, v, lv.lv);
    if lv.moff == 0 {
      LaysL(st, v, lv.lv, off);
    } else {
      var i := AddRaxImm(lv.moff);
      assert EmitL(st, v, lv) == Put1(s1, v, i);
      NeatPut(s1, v, i);
      NeatFacts({}, s1, Put1(s1, v, i), v, 0);
      AgreesPart(off, |st.lab|, |st.lab|, s1, Put1(s1, v, i), {}, v, 0);
      LaysL(st, v, lv.lv, off);
      WritesPut(s1, v, i, off);
      WritesThen(st, s1, Put1(s1, v, i), off, c1, [i]);
    }
  }

  lemma LaysCommaL(st: ES, v: Env, lv: LVal, off: seq<int>)
    requires lv.CommaL? && GoodL(st, v, lv, off)
    ensures LayL(st, v, lv, off)
    decreases lv, 1
  {
    hide Neat, Agrees, Lay, LinksOf, GenL, GenE, EmitE;
    var s1 := EmitE(st, v, lv.e);
    var t := EmitL(s1, v, lv.lv);
    NeatE(st, v, lv.e);
    NeatL(s1, v, lv.lv);
    NeatFacts({}, s1, t, v, 0);
    NeatFacts({}, st, s1, v, 0);
    AgreesPart(off, |st.lab|, |st.lab|, s1, t, {}, v, 0);
    AgreesUp(off, t, |st.lab|, |s1.lab|);
    LaysE(st, v, lv.e, off);
    LaysL(s1, v, lv.lv, off);
    var c1, c2 := CodeCommaL(lv, st.depth, |st.items|, LinksOf(v, off));
    WritesThen(st, s1, t, off, c1, c2);
  }

  lemma {:induction false} LaysA(st: ES, v: Env, args: Args, off: seq<int>)
    requires GoodA(st, v, args, off)
    ensures LayA(st, v, args, off)
    decreases args, 2
  {
    hide Neat, Agrees, Lay, LinksOf, GenE, EmitE, Push;
    if args.NoArgs? {
      WritesNone(st, st, off);
    } else {
      var s1 := EmitE(st, v, args.e);
      var s2 := Push(s1, v);
      var t := EmitA(s2, v, args.rest);
      NeatE(st, v, args.e);
      NeatPush(s1, v);
      NeatA(s2, v, args.rest);
      NeatJoin(s1, s2, t, v, 1, Count(args.rest));
      NeatFacts({}, s2, t, v, Count(args.rest));
      NeatFacts({}, s1, s2, v, 1);
      NeatFacts({}, st, s1, v, 0);
      PushItems(s1, v);
      AgreesPart(off, |st.lab|, |st.lab|, s1, t, {}, v, 1 + Count(args.rest));
      AgreesUp(off, t, |st.lab|, |s2.lab|);
      LaysE(st, v, args.e, off);
      LaysA(s2, v, args.rest, off);
      WritesPush(s1, v, off);
      var c1, c2 := CodeArg(args, st.depth, |st.items|, LinksOf(v, off));
      WritesThen(st, s1, s2, off, c1, [PushRax]);
      WritesThen(st, s2, t, off, c1 + [PushRax], c2);
    }
  }

  /** The emitted expression is GenE of it. */
  lemma {:induction false} LaysE(st: ES, v: Env, e: Expr, off: seq<int>)
    requires GoodE(st, v, e, off)
    ensures LayE(st, v, e, off)
    decreases e, 2
  {
    hide *;
    match e
    case Num(_, _) => LaysNum(st, v, e, off);
    case Load(_, _) => LaysUnary(st, v, e, off);
    case Addr(_) => LaysUnary(st, v, e, off);
    case Assign(_, _, _) => LaysAssign(st, v, e, off);
    case Cast(_, _) => LaysUnary(st, v, e, off);
    case Bin(_, _, _, _) => LaysPair(st, v, e, off);
    case Cmp(_, _, _) => LaysPair(st, v, e, off);
    case Not(_) => LaysUnary(st, v, e, off);
    case BitNot(_, _) => LaysUnary(st, v, e, off);
    case LogAnd(_, _) => LaysLog(st, v, e, off);
    case LogOr(_, _) => LaysLog(st, v, e, off);
    case Cond(_, _, _, _) => LaysCond(st, v, e, off);
    case Comma(_, _) => LaysComma(st, v, e, off);
    case Call(_, _, _) => LaysCall(st, v, e, off);
  }

  lemma LaysLog(st: ES, v: Env, e: Expr, off: seq<int>)
    requires (e.LogAnd? || e.LogOr?) && GoodE(st, v, e, off)
    ensures LayE(st, v, e, off)
    decreases e, 1
  {
    hide GenE, NewLabel, Here, Jump, Put1, Agrees, Lay, LinksOf, Handed;
    var or := e.LogOr?;
    var cc := if or then NZ else Z;
    var n := |st.lab|;
    var s0 := TwoNew(st);
    var s1 := EmitE(s0, v, e.l);
    var t1 := Jump(Put1(s1, v, TestRax), v, cc, n);
    var s2 := EmitE(t1, v, e.r);
    var s3 := Jump(Put1(s2, v, TestRax), v, cc, n);
    var p3 := Put1(s3, v, if or then XorEax else MovEaxImm(1));
    var s4 := Jump(p3, v, Always, n + 1);
    var t4 := Here(s4, n);
    var s5 := Put1(t4, v, if or then MovEaxImm(1) else XorEax);
    var r := Here(s5, n + 1);
    assert EmitE(st, v, e) == EmitLog(st, v, e);
    assert r == EmitLog(st, v, e);
    LaysLogSteps(st, v, e, off, s0, s1, t1, s2, s3, p3, s4, t4, s5, r);
  }

  lemma LogNeat(n: int, v: Env, or: bool, e: Expr, s1: ES, t1: ES, s2: ES, s3: ES, p3: ES, s4: ES, t4: ES, s5: ES,
                r: ES)
    requires !r.fails && t1 == Jump(Put1(s1, v, TestRax), v, if or then NZ else Z, n)
    requires s2 == EmitE(t1, v, e) && s3 == Jump(Put1(s2, v, TestRax), v, if or then NZ else Z, n)
    requires p3 == Put1(s3, v, if or then XorEax else MovEaxImm(1)) && s4 == Jump(p3, v, Always, n + 1)
    requires t4 == Here(s4, n) && s5 == Put1(t4, v, if or then MovEaxImm(1) else XorEax) && r == Here(s5, n + 1)
    ensures var ch := {n, n + 1}; Neat(ch, s1, r, v, 0) && Neat(ch, t1, r, v, 0) && Neat(ch, s2, r, v, 0)
  {
    hide EmitE, Here, Jump, Put1, Neat, IsPlaced;
    var ch := {n, n + 1};
    var cc := if or then NZ else Z;
    NeatTest(ch, s1, v, cc, n);
    NeatE(t1, v, e);
    NeatTest(ch, s2, v, cc, n);
    NeatPut(s3, v, if or then XorEax else MovEaxImm(1));
    NeatJump(ch, p3, v, Always, n + 1);
    NeatHere(s4, n, v);
    NeatPut(t4, v, if or then MovEaxImm(1) else XorEax);
    NeatHere(s5, n + 1, v);
    NeatFewer({n + 1}, ch, s5, r, v, 0);
    NeatBack(ch, {}, t4, s5, r, v);
    NeatBack(ch, {n}, s4, t4, r, v);
    NeatBack(ch, ch, p3, s4, r, v);
    NeatBack(ch, {}, s3, p3, r, v);
    NeatBack(ch, ch, s2, s3, r, v);
    NeatBack(ch, {}, t1, s2, r, v);
    NeatBack(ch, ch, s1, t1, r, v);
  }

  lemma LogPlaces(n: int, v: Env, i: Instr, s4: ES, t4: ES, s5: ES, r: ES)
    requires !r.fails && 0 <= n && n + 1 < |s4.lab| && t4 == Here(s4, n) && s5 == Put1(t4, v, i) && r == Here(s5, n + 1)
    ensures IsPlaced(r, n) && IsPlaced(r, n + 1) && r.lab[n] == |s4.items| && r.lab[n + 1] == |s5.items|
    ensures t4.items == s4.items && t4.fails == s4.fails && r.items == s5.items && r.fails == s5.fails
  {
    hide Here, Neat, Put1;
    NeatHere(s4, n, v);
    NeatPut(t4, v, i);
    NeatHere(s5, n + 1, v);
  }

  /** Where the two labels end up, and that the operands may be laid out. */
  lemma LogAgrees(st: ES, v: Env, e: Expr, off: seq<int>,
                  s0: ES, s1: ES, t1: ES, s2: ES, s3: ES, p3: ES, s4: ES, t4: ES, s5: ES, r: ES)
    requires (e.LogAnd? || e.LogOr?) && st.depth >= 0 && !r.fails && Agrees(off, r, |st.lab|)
    requires Handed(st, s0) && (!s0.fails ==> |s0.lab| == |st.lab| + 2)
    requires var cc := if e.LogOr? then NZ else Z;
             && s1 == EmitE(s0, v, e.l) && t1 == Jump(Put1(s1, v, TestRax), v, cc, |st.lab|)
             && s2 == EmitE(t1, v, e.r) && s3 == Jump(Put1(s2, v, TestRax), v, cc, |st.lab|)
    requires p3 == Put1(s3, v, if e.LogOr? then XorEax else MovEaxImm(1)) && s4 == Jump(p3, v, Always, |st.lab| + 1)
    requires t4 == Here(s4, |st.lab|) && s5 == Put1(t4, v, if e.LogOr? then MovEaxImm(1) else XorEax)
    requires r == Here(s5, |st.lab| + 1)
    ensures GoodE(s0, v, e.l, off) && GoodE(t1, v, e.r, off) && t1.depth == st.depth && s0.items == st.items
    ensures !s0.fails && !st.fails
    ensures OffOf(off, |st.lab|) == |s4.items| && OffOf(off, |st.lab| + 1) == |s5.items| && s0.depth == st.depth
    ensures t4.items == s4.items && t4.fails == s4.fails && r.items == s5.items && r.fails == s5.fails
  {
    hide EmitE, Here, Jump, Put1, Agrees, Handed, Neat, Far, OffOf, IsPlaced;
    var n := |st.lab|;
    HandedFacts(st, s0);
    LogNeat(n, v, e.LogOr?, e.r, s1, t1, s2, s3, p3, s4, t4, s5, r);
    AgreesTwo(off, n, |s0.lab|, s1, r, v);
    AgreesTwo(off, n, |t1.lab|, s2, r, v);
    NeatFacts({n, n + 1}, t1, r, v, 0);
    NeatE(s0, v, e.l);
    NeatFacts({}, s0, s1, v, 0);
    LogPlaces(n, v, if e.LogOr? then MovEaxImm(1) else XorEax, s4, t4, s5, r);
    PlaceAgrees(off, r, n, n);
    PlaceAgrees(off, r, n, n + 1);
  }

  lemma LaysLogSteps(st: ES, v: Env, e: Expr, off: seq<int>,
                     s0: ES, s1: ES, t1: ES, s2: ES, s3: ES, p3: ES, s4: ES, t4: ES, s5: ES, r: ES)
    requires (e.LogAnd? || e.LogOr?) && st.depth >= 0 && !r.fails && Agrees(off, r, |st.lab|)
    requires Handed(st, s0) && (!s0.fails ==> |s0.lab| == |st.lab| + 2)
    requires var cc := if e.LogOr? then NZ else Z;
             && s1 == EmitE(s0, v, e.l) && t1 == Jump(Put1(s1, v, TestRax), v, cc, |st.lab|)
             && s2 == EmitE(t1, v, e.r) && s3 == Jump(Put1(s2, v, TestRax), v, cc, |st.lab|)
    requires p3 == Put1(s3, v, if e.LogOr? then XorEax else MovEaxImm(1)) && s4 == Jump(p3, v, Always, |st.lab| + 1)
    requires t4 == Here(s4, |st.lab|) && s5 == Put1(t4, v, if e.LogOr? then MovEaxImm(1) else XorEax)
    requires r == Here(s5, |st.lab| + 1)
    ensures Writes(st, r, off, GenE(e, st.depth, |st.items|, LinksOf(v, off)))
    decreases e, 0
  {
    hide EmitE, GenE, Here, Jump, Put1, Lay, LinksOf, Handed, Far, OffOf, IsPlaced, BoolCode, Agrees;
    var decided, lend := |st.lab|, |st.lab| + 1;
    var cc := if e.LogOr? then NZ else Z;
    var i, j := if e.LogOr? then XorEax else MovEaxImm(1), if e.LogOr? then MovEaxImm(1) else XorEax;
    LogAgrees(st, v, e, off, s0, s1, t1, s2, s3, p3, s4, t4, s5, r);
    LaysE(s0, v, e.l, off);
    LaysE(t1, v, e.r, off);
    WritesTest(s1, v, cc, decided, off);
    WritesTest(s2, v, cc, decided, off);
    WritesPut(s3, v, i, off);
    WritesJump(p3, v, Always, lend, off);
    WritesPut(t4, v, j, off);
    var c1, c2 := CodeLog(e, st.depth, |st.items|, LinksOf(v, off));
    var j1 := [TestRax, Far(cc, OffOf(off, decided), |s1.items| + 1)];
    var j2 := [TestRax, Far(cc, OffOf(off, decided), |s2.items| + 1)];
    var j3 := [Far(Always, OffOf(off, lend), |p3.items|)];
    WritesFrom(st, s0, s1, off, c1);
    WritesThen(st, s1, t1, off, c1, j1);
    WritesThen(st, t1, s2, off, c1 + j1, c2);
    var c := c1 + j1 + c2;
    WritesThen(s2, s3, p3, off, j2, [i]);
    WritesThen(s2, p3, s4, off, j2 + [i], j3);
    WritesQuiet(s2, s4, t4, off, j2 + [i] + j3);
    WritesThen(s2, t4, s5, off, j2 + [i] + j3, [j]);
    WritesThen(st, s2, s5, off, c, j2 + [i] + j3 + [j]);
    WritesQuiet(st, s5, r, off, c + (j2 + [i] + j3 + [j]));
    FarIs(cc, OffOf(off, decided), |s1.items| + 1, |c2| + 4);
    FarIs(cc, OffOf(off, decided), |s2.items| + 1, 2);
    FarIs(Always, OffOf(off, lend), |p3.items|, 1);
    BoolShape(e.LogOr?, j2 + [i] + j3 + [j]);
  }

  lemma BoolShape(or: bool, c: seq<Instr>)
    requires c == [TestRax, J(if or then NZ else Z, 2)] + [if or then XorEax else MovEaxImm(1)] + [J(Always, 1)]
                  + [if or then MovEaxImm(1) else XorEax]
    ensures c == BoolCode(or)
  {
  }
}
