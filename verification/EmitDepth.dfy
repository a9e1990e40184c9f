// The emitter's depth is the count of words pushed: at every item it puts into
// the buffer, its depth is the number of pushes less pops since the function began.

module EmitDepth {
  import opened Basics
  import opened Words
  import opened CTree
  import opened X64
  import opened Gen
  import opened Emit
  import opened Depth
  import opened EmitFits
  import opened EmitFitsS

  /** Words pushed by the items from `from` up to `j`. */
  ghost function Net(items: seq<Item>, from: nat, j: nat): int
    requires from <= j <= |items|
  {
    if j == from then 0 else Net(items, from, j - 1) + Pushes(items[j - 1].i)
  }

  /** Since `from`, every item's recorded depth is the count at that item, and the
      emitter's depth is the count now. */
  ghost predicate Tracked(st: ES, from: nat) {
    !st.fails ==>
      && from <= |st.items| && st.depth == Net(st.items, from, |st.items|)
      && forall j :: from <= j < |st.items| ==> st.items[j].depth == Net(st.items, from, j)
  }

  /** What was in the buffer stays there, and the count stays right. */
  ghost predicate Tracks(a: ES, b: ES, from: nat) {
    && (!b.fails ==> !a.fails && a.items <= b.items)
    && (Tracked(a, from) ==> Tracked(b, from))
  }

  lemma TracksThen(a: ES, b: ES, c: ES, from: nat)
    requires Tracks(a, b, from) && Tracks(b, c, from)
    ensures Tracks(a, c, from)
  {
    hide Tracked;
  }

  /** A step that puts nothing into the buffer and leaves the depth. */
  lemma TracksQuiet(a: ES, b: ES, from: nat)
    requires !b.fails ==> !a.fails && b.items == a.items && b.depth == a.depth
    ensures Tracks(a, b, from)
  {
  }

  lemma {:induction false} NetPrefix(a: seq<Item>, b: seq<Item>, from: nat, j: nat)
    requires from <= j <= |a| && a <= b
    ensures Net(b, from, j) == Net(a, from, j)
  {
    if j > from {
      NetPrefix(a, b, from, j - 1);
    }
  }

  /** One item put, and the depth moved by what it pushes. */
  lemma TracksItem(a: ES, b: ES, x: Item, from: nat)
    requires !b.fails ==> !a.fails && b.items == a.items + [x] && x.depth == a.depth && b.depth == a.depth + Pushes(x.i)
    ensures Tracks(a, b, from)
  {
    if !b.fails && Tracked(a, from) {
      forall j | from <= j <= |a.items|
        ensures Net(b.items, from, j) == Net(a.items, from, j)
      {
        NetPrefix(a.items, b.items, from, j);
      }
    }
  }

  // ---- primitives ----------------------------------------------------------------------

  lemma TrackPut(st: ES, v: Env, i: Instr, from: nat)
    requires Pushes(i) == 0
    ensures Tracks(st, Put1(st, v, i), from)
  {
    hide Tracks;
    TracksItem(st, Put1(st, v, i), Fixed(i, st.depth), from);
  }

  predicate Pushless(c: seq<Instr>) { forall j :: 0 <= j < |c| ==> Pushes(c[j]) == 0 }

  lemma {:induction false} TrackPuts(st: ES, v: Env, c: seq<Instr>, from: nat)
    requires Pushless(c)
    ensures Tracks(st, Puts(st, v, c), from)
    decreases |c|
  {
    hide Tracks, Put1;
    if c == [] {
      TracksQuiet(st, st, from);
    } else {
      TrackPut(st, v, c[0], from);
      TrackPuts(Put1(st, v, c[0]), v, c[1..], from);
      TracksThen(st, Put1(st, v, c[0]), Puts(st, v, c), from);
    }
  }

  lemma TrackRel(st: ES, v: Env, i: Instr, l: int, from: nat)
    requires Pushes(i) == 0
    ensures Tracks(st, RelTo(st, v, i, l), from)
  {
    hide Tracks;
    TracksItem(st, RelTo(st, v, i, l), Rel(i, l, st.depth), from);
  }

  lemma TrackJump(st: ES, v: Env, cc: CC, l: int, from: nat)
    ensures Tracks(st, Jump(st, v, cc, l), from)
  {
    hide Tracks, RelTo;
    TrackRel(st, v, J(cc, 0), l, from);
  }

  lemma TrackHere(st: ES, l: int, from: nat)
    ensures Tracks(st, Here(st, l), from)
  {
    hide Tracks;
    TracksQuiet(st, Here(st, l), from);
  }

  lemma TrackNew(st: ES, from: nat)
    ensures Tracks(st, NewLabel(st), from)
  {
    hide Tracks;
    TracksQuiet(st, NewLabel(st), from);
  }

  lemma TrackNest(st: ES, brk: seq<int>, cont: seq<int>, from: nat)
    ensures Tracks(st, Nest(st, brk, cont), from)
  {
    hide Tracks;
    TracksQuiet(st, Nest(st, brk, cont), from);
  }

  lemma TrackFail(st: ES, from: nat)
    ensures Tracks(st, Fail(st), from)
  {
    hide Tracks;
    TracksQuiet(st, Fail(st), from);
  }

  lemma TrackPush(st: ES, v: Env, from: nat)
    ensures Tracks(st, Push(st, v), from)
  {
    hide Tracks;
    TracksItem(st, Push(st, v), Fixed(PushRax, st.depth), from);
  }

  lemma TrackPop(st: ES, v: Env, x: Reg, from: nat)
    ensures Tracks(st, PopTo(st, v, x), from)
  {
    hide Tracks;
    TracksItem(st, PopTo(st, v, x), Fixed(Pop(x), st.depth), from);
  }

  lemma TrackFuel(st: ES, v: Env, from: nat)
    ensures Tracks(st, FuelCheck(st, v), from)
  {
    hide Tracks, Put1, Jump;
    TrackPut(st, v, DecFuel, from);
    TrackJump(Put1(st, v, DecFuel), v, S, v.fuel, from);
    TracksThen(st, Put1(st, v, DecFuel), FuelCheck(st, v), from);
  }

  /** A test and a jump on it. */
  lemma TrackTest(st: ES, v: Env, i: Instr, cc: CC, l: int, from: nat)
    requires Pushes(i) == 0
    ensures Tracks(st, Jump(Put1(st, v, i), v, cc, l), from)
  {
    hide Tracks, Put1, Jump;
    TrackPut(st, v, i, from);
    TrackJump(Put1(st, v, i), v, cc, l, from);
    TracksThen(st, Put1(st, v, i), Jump(Put1(st, v, i), v, cc, l), from);
  }

  lemma {:induction false} TrackPopArgs(st: ES, v: Env, n: nat, from: nat)
    ensures Tracks(st, PopArgs(st, v, n), from)
    decreases n
  {
    hide Tracks, PopTo;
    if n == 0 {
      TracksQuiet(st, st, from);
    } else {
      var s1 := PopTo(st, v, ArgReg(n - 1));
      TrackPop(st, v, ArgReg(n - 1), from);
      TrackPopArgs(s1, v, n - 1, from);
      TracksThen(st, s1, PopArgs(st, v, n), from);
    }
  }

  lemma TrackCallTo(st: ES, v: Env, callee: Callee, n: nat, from: nat)
    ensures Tracks(st, CallTo(st, v, callee, n), from)
  {
    hide Tracks, RelTo, Puts;
    match callee
    case Unit(i) =>
      if i < |v.fn| {
        TrackRel(st, v, CallRel(0), v.fn[i], from);
      } else {
        TrackFail(st, from);
      }
    case Kernel(a) => TrackPuts(st, v, [MovR11Imm(a), CallR11(n)], from);
  }

  lemma NormPushless(ty: Ty)
    ensures Pushless(Norm(ty)) && Pushless(LoadCode(ty))
  {
  }

  lemma TrackEnter(st: ES, v: Env, callee: Callee, ty: Ty, n: nat, from: nat)
    ensures Tracks(st, EmitEnter(st, v, callee, ty, n), from)
  {
    hide Tracks, PopArgs, Put1, FuelCheck, CallTo, Puts, Norm;
    var s1 := PopArgs(st, v, n);
    var pad := s1.depth % 2 == 1;
    var t1 := if pad then Put1(s1, v, SubRsp(8)) else s1;
    var s2 := FuelCheck(t1, v);
    var s3 := CallTo(s2, v, callee, n);
    var t3 := if pad then Put1(s3, v, AddRsp(8)) else s3;
    TrackPopArgs(st, v, n, from);
    TrackPut(s1, v, SubRsp(8), from);
    TracksQuiet(s1, s1, from);
    TracksThen(st, s1, t1, from);
    TrackFuel(t1, v, from);
    TracksThen(st, t1, s2, from);
    TrackCallTo(s2, v, callee, n, from);
    TracksThen(st, s2, s3, from);
    TrackPut(s3, v, AddRsp(8), from);
    TracksQuiet(s3, s3, from);
    TracksThen(st, s3, t3, from);
    NormPushless(ty);
    TrackPuts(t3, v, Norm(ty), from);
    TracksThen(st, t3, Puts(t3, v, Norm(ty)), from);
  }

  // ---- expressions -------------------------------------------------------------------------

  /** Something tracked, then straight code. */
  lemma TrackThenPuts(a: ES, b: ES, v: Env, c: seq<Instr>, from: nat)
    requires Tracks(a, b, from) && Pushless(c)
    ensures Tracks(a, Puts(b, v, c), from)
  {
    hide Tracks, Puts;
    TrackPuts(b, v, c, from);
    TracksThen(a, b, Puts(b, v, c), from);
  }

  lemma TrackThenPut(a: ES, b: ES, v: Env, i: Instr, from: nat)
    requires Tracks(a, b, from) && Pushes(i) == 0
    ensures Tracks(a, Put1(b, v, i), from)
  {
    hide Tracks, Put1;
    TrackPut(b, v, i, from);
    TracksThen(a, b, Put1(b, v, i), from);
  }

  lemma TrackThenPush(a: ES, b: ES, v: Env, from: nat)
    requires Tracks(a, b, from)
    ensures Tracks(a, Push(b, v), from)
  {
    hide Tracks, Push;
    TrackPush(b, v, from);
    TracksThen(a, b, Push(b, v), from);
  }

  lemma TrackThenPop(a: ES, b: ES, v: Env, x: Reg, from: nat)
    requires Tracks(a, b, from)
    ensures Tracks(a, PopTo(b, v, x), from)
  {
    hide Tracks, PopTo;
    TrackPop(b, v, x, from);
    TracksThen(a, b, PopTo(b, v, x), from);
  }

  lemma TrackThenJump(a: ES, b: ES, v: Env, cc: CC, l: int, from: nat)
    requires Tracks(a, b, from)
    ensures Tracks(a, Jump(b, v, cc, l), from)
  {
    hide Tracks, Jump;
    TrackJump(b, v, cc, l, from);
    TracksThen(a, b, Jump(b, v, cc, l), from);
  }

  lemma TrackThenTest(a: ES, b: ES, v: Env, cc: CC, l: int, from: nat)
    requires Tracks(a, b, from)
    ensures Tracks(a, Jump(Put1(b, v, TestRax), v, cc, l), from)
  {
    hide Tracks, Jump, Put1;
    TrackTest(b, v, TestRax, cc, l, from);
    TracksThen(a, b, Jump(Put1(b, v, TestRax), v, cc, l), from);
  }

  lemma TrackThenHere(a: ES, b: ES, l: int, from: nat)
    requires Tracks(a, b, from)
    ensures Tracks(a, Here(b, l), from)
  {
    hide Tracks, Here;
    TrackHere(b, l, from);
    TracksThen(a, b, Here(b, l), from);
  }

  lemma TrackTwoNew(st: ES, from: nat)
    ensures Tracks(st, NewLabel(NewLabel(st)), from)
  {
    hide Tracks, NewLabel;
    TrackNew(st, from);
    TrackNew(NewLabel(st), from);
    TracksThen(st, NewLabel(st), NewLabel(NewLabel(st)), from);
  }

  lemma {:induction false} TrackE(st: ES, v: Env, e: Expr, from: nat)
    ensures Tracks(st, EmitE(st, v, e), from)
    decreases e, 2
  {
    hide Tracks, EmitL, EmitA, Puts, Put1, Push, PopTo, Norm, LoadCode, BinCode, CmpCode, EmitEnter, Enc;
    if st.fails {
      TracksQuiet(st, st, from);
      return;
    }
    match e
    case Num(_, x) => TrackPut(st, v, MovRaxImm(Enc(x)), from);
    case Load(ty, lv) =>
      TrackL(st, v, lv, from);
      NormPushless(ty);
      TrackThenPuts(st, EmitL(st, v, lv), v, LoadCode(ty), from);
    case Addr(lv) => TrackL(st, v, lv, from);
    case Assign(_, _, _) => TrackPair(st, v, e, from);
    case Cast(ty, x) =>
      TrackE(st, v, x, from);
      NormPushless(ty);
      TrackThenPuts(st, EmitE(st, v, x), v, Norm(ty), from);
    case Bin(_, _, _, _) => TrackPair(st, v, e, from);
    case Cmp(_, _, _) => TrackPair(st, v, e, from);
    case Not(x) =>
      TrackE(st, v, x, from);
      TrackThenPuts(st, EmitE(st, v, x), v, [TestRax, SetCC(Z), MovzxAl], from);
    case BitNot(ty, x) =>
      TrackE(st, v, x, from);
      NormPushless(ty);
      TrackThenPuts(st, EmitE(st, v, x), v, [NotRax(Wide(ty))] + Norm(ty), from);
    case LogAnd(_, _) => TrackLog(st, v, e, from);
    case LogOr(_, _) => TrackLog(st, v, e, from);
    case Cond(_, _, _, _) => TrackCond(st, v, e, from);
    case Comma(l, r) =>
      TrackE(st, v, l, from);
      TrackE(EmitE(st, v, l), v, r, from);
      TracksThen(st, EmitE(st, v, l), EmitE(EmitE(st, v, l), v, r), from);
    case Call(callee, ty, args) =>
      TrackA(st, v, args, from);
      TrackEnter(EmitA(st, v, args), v, callee, ty, Count(args), from);
      TracksThen(st, EmitA(st, v, args), EmitE(st, v, e), from);
  }

  lemma BinPushless(op: BinOp, ty: Ty, cmp: CmpOp)
    ensures Pushless(BinCode(op, ty) + Norm(ty)) && Pushless(CmpCode(cmp, ty))
  {
  }

  /** One operand pushed, the other computed, the first popped. */
  lemma TrackPair(st: ES, v: Env, e: Expr, from: nat)
    requires !st.fails && (e.Assign? || e.Bin? || e.Cmp?)
    ensures Tracks(st, EmitE(st, v, e), from)
    decreases e, 0
  {
    hide Tracks, EmitL, EmitA, Puts, Put1, Push, PopTo, Norm, BinCode, CmpCode;
    var x := if e.Assign? then e.rhs else e.l;
    var s1 := if e.Assign? then EmitL(st, v, e.lv) else EmitE(st, v, e.r);
    if e.Assign? {
      TrackL(st, v, e.lv, from);
    } else {
      TrackE(st, v, e.r, from);
    }
    TrackThenPush(st, s1, v, from);
    var s2 := Push(s1, v);
    TrackE(s2, v, x, from);
    TracksThen(st, s2, EmitE(s2, v, x), from);
    TrackThenPop(st, EmitE(s2, v, x), v, Rdi, from);
    var s3 := PopTo(EmitE(s2, v, x), v, Rdi);
    if e.Assign? {
      TrackThenPut(st, s3, v, StoreRdi(if e.ty.Int? then e.ty.w else B8), from);
    } else if e.Bin? {
      BinPushless(e.op, e.ty, Eq);
      TrackThenPuts(st, s3, v, BinCode(e.op, e.ty) + Norm(e.ty), from);
    } else {
      BinPushless(Add, ETy(e.l), e.cmp);
      TrackThenPuts(st, s3, v, CmpCode(e.cmp, ETy(e.l)), from);
    }
  }

  lemma TrackCond(st: ES, v: Env, e: Expr, from: nat)
    requires !st.fails && e.Cond?
    ensures Tracks(st, EmitE(st, v, e), from)
    decreases e, 0
  {
    hide Tracks, Put1, Jump, Here, NewLabel;
    var lelse, lend, s0 := |st.lab|, |st.lab| + 1, NewLabel(NewLabel(st));
    TrackTwoNew(st, from);
    TrackE(s0, v, e.c, from);
    var s1 := EmitE(s0, v, e.c);
    TracksThen(st, s0, s1, from);
    TrackThenTest(st, s1, v, Z, lelse, from);
    var t1 := Jump(Put1(s1, v, TestRax), v, Z, lelse);
    TrackE(t1, v, e.t, from);
    var s2 := EmitE(t1, v, e.t);
    TracksThen(st, t1, s2, from);
    TrackThenJump(st, s2, v, Always, lend, from);
    TrackThenHere(st, Jump(s2, v, Always, lend), lelse, from);
    var t2 := Here(Jump(s2, v, Always, lend), lelse);
    TrackE(t2, v, e.f, from);
    TracksThen(st, t2, EmitE(t2, v, e.f), from);
    TrackThenHere(st, EmitE(t2, v, e.f), lend, from);
  }

  lemma TrackLog(st: ES, v: Env, e: Expr, from: nat)
    requires e.LogAnd? || e.LogOr?
    ensures Tracks(st, EmitLog(st, v, e), from)
    decreases e, 1
  {
    hide Tracks, Put1, Jump, Here, NewLabel, EmitE;
    var or, decided, lend, s0 := e.LogOr?, |st.lab|, |st.lab| + 1, NewLabel(NewLabel(st));
    var cc := if or then NZ else Z;
    TrackTwoNew(st, from);
    TrackE(s0, v, e.l, from);
    var s1 := EmitE(s0, v, e.l);
    TracksThen(st, s0, s1, from);
    TrackThenTest(st, s1, v, cc, decided, from);
    var t1 := Jump(Put1(s1, v, TestRax), v, cc, decided);
    TrackE(t1, v, e.r, from);
    var s2 := EmitE(t1, v, e.r);
    TracksThen(st, t1, s2, from);
    TrackThenTest(st, s2, v, cc, decided, from);
    var s3 := Jump(Put1(s2, v, TestRax), v, cc, decided);
    TrackThenPut(st, s3, v, if or then XorEax else MovEaxImm(1), from);
    TrackThenJump(st, Put1(s3, v, if or then XorEax else MovEaxImm(1)), v, Always, lend, from);
    var s4 := Jump(Put1(s3, v, if or then XorEax else MovEaxImm(1)), v, Always, lend);
    TrackThenHere(st, s4, decided, from);
    TrackThenPut(st, Here(s4, decided), v, if or then MovEaxImm(1) else XorEax, from);
    TrackThenHere(st, Put1(Here(s4, decided), v, if or then MovEaxImm(1) else XorEax), lend, from);
  }

  lemma {:induction false} TrackL(st: ES, v: Env, lv: LVal, from: nat)
    ensures Tracks(st, EmitL(st, v, lv), from)
    decreases lv, 2
  {
    hide Tracks, EmitE, Put1, Enc;
    match lv
    case Local(off) => TrackPut(st, v, LeaRaxRbp(off), from);
    case Global(a) => TrackPut(st, v, MovRaxImm(Enc(a)), from);
    case Deref(e) => TrackE(st, v, e, from);
    case Member(x, off) =>
      TrackL(st, v, x, from);
      TrackThenPut(st, EmitL(st, v, x), v, AddRaxImm(off), from);
    case CommaL(e, x) =>
      TrackE(st, v, e, from);
      TrackL(EmitE(st, v, e), v, x, from);
      TracksThen(st, EmitE(st, v, e), EmitL(EmitE(st, v, e), v, x), from);
  }

  lemma {:induction false} TrackA(st: ES, v: Env, args: Args, from: nat)
    ensures Tracks(st, EmitA(st, v, args), from)
    decreases args, 2
  {
    hide Tracks, EmitE, Push;
    match args
    case NoArgs => TracksQuiet(st, st, from);
    case Arg(e, rest) =>
      TrackE(st, v, e, from);
      TrackThenPush(st, EmitE(st, v, e), v, from);
      var s1 := Push(EmitE(st, v, e), v);
      TrackA(s1, v, rest, from);
      TracksThen(st, s1, EmitA(s1, v, rest), from);
  }

  // ---- statements ---------------------------------------------------------------------------

  lemma ChunksPushless(k: nat, size: nat)
    ensures Pushless(ZeroChunks(k, size))
  {
    ChunksStill(k, size);
    forall j | 0 <= j < |ZeroChunks(k, size)|
      ensures Pushes(ZeroChunks(k, size)[j]) == 0
    {
      assert Still(ZeroChunks(k, size)[j]);
    }
  }

  lemma TrackZero(st: ES, v: Env, size: nat, from: nat)
    ensures Tracks(st, EmitZero(st, v, size), from)
  {
    hide Tracks, Put1, Puts, Jump, Here, NewLabel, ZeroChunks, Enc;
    if size <= 64 {
      ChunksPushless(0, size);
      TrackPuts(st, v, ZeroChunks(0, size), from);
    } else {
      var top := |st.lab|;
      TrackNew(st, from);
      TrackThenPut(st, NewLabel(st), v, MovRcxImm(Enc(size)), from);
      TrackThenHere(st, Put1(NewLabel(st), v, MovRcxImm(Enc(size))), top, from);
      var s1 := Here(Put1(NewLabel(st), v, MovRcxImm(Enc(size))), top);
      TrackThenPuts(st, s1, v, [ZeroAt(0, 1), IncRax, DecRcx], from);
      TrackThenJump(st, Puts(s1, v, [ZeroAt(0, 1), IncRax, DecRcx]), v, NZ, top, from);
    }
  }

  lemma TrackO(st: ES, v: Env, c: Option<Expr>, from: nat)
    ensures Tracks(st, EmitO(st, v, c), from)
  {
    hide Tracks, EmitE;
    TracksQuiet(st, st, from);
    if c.Some? {
      TrackE(st, v, c.value, from);
    }
  }

  lemma TrackWhen(st: ES, v: Env, c: Option<Expr>, when: bool, lend: int, from: nat)
    ensures Tracks(st, EmitTest(st, v, c, when, lend), from)
  {
    hide Tracks, EmitE, Put1, Jump;
    TracksQuiet(st, st, from);
    if c.Some? {
      TrackE(st, v, c.value, from);
      TrackThenTest(st, EmitE(st, v, c.value), v, Z, lend, from);
    }
  }

  lemma {:induction false} TrackCases(st: ES, keys: seq<int>, from: nat)
    ensures Tracks(st, CaseLabels(st, keys), from)
    decreases |keys|
  {
    hide Tracks, NewLabel;
    if keys == [] {
      TracksQuiet(st, st, from);
    } else {
      TrackNew(st, from);
      TrackCases(NewLabel(st), keys[1..], from);
      TracksThen(st, NewLabel(st), CaseLabels(st, keys), from);
    }
  }

  lemma {:induction false} TrackChain(st: ES, v: Env, keys: seq<int>, first: int, from: nat)
    ensures Tracks(st, EmitChain(st, v, keys, first), from)
    decreases |keys|
  {
    hide Tracks, Puts, Jump, Enc;
    if keys == [] {
      TracksQuiet(st, st, from);
    } else {
      var s1 := Puts(st, v, [MovR11Imm(Enc(keys[0])), CmpRaxR11]);
      TrackPuts(st, v, [MovR11Imm(Enc(keys[0])), CmpRaxR11], from);
      TrackThenJump(st, s1, v, Z, first, from);
      TrackChain(Jump(s1, v, Z, first), v, keys[1..], first + 1, from);
      TracksThen(st, Jump(s1, v, Z, first), EmitChain(st, v, keys, first), from);
    }
  }

  lemma {:induction false} TrackS(st: ES, v: Env, s: Stmt, cs: map<Key, int>, from: nat)
    ensures Tracks(st, EmitS(st, v, s, cs), from)
    decreases s, 1
  {
    hide Tracks, EmitE, EmitO, EmitZero, Put1, Jump, Here, Fail;
    if st.fails {
      TracksQuiet(st, st, from);
      return;
    }
    match s
    case Nop => TracksQuiet(st, st, from);
    case Seq(a, b) =>
      TrackS(st, v, a, cs, from);
      TrackS(EmitS(st, v, a, cs), v, b, cs, from);
      TracksThen(st, EmitS(st, v, a, cs), EmitS(st, v, s, cs), from);
    case Eval(e) => TrackE(st, v, e, from);
    case MemZero(off, n) =>
      TrackPut(st, v, LeaRaxRbp(off), from);
      TrackZero(Put1(st, v, LeaRaxRbp(off)), v, n, from);
      TracksThen(st, Put1(st, v, LeaRaxRbp(off)), EmitS(st, v, s, cs), from);
    case Return(r) =>
      TrackO(st, v, r, from);
      TrackThenJump(st, EmitO(st, v, r), v, Always, v.epi, from);
    case If(_, _, _) => TrackIf(st, v, s, cs, from);
    case Loop(_, _, _, _) => TrackLoop(st, v, s, cs, from);
    case Break =>
      TrackFail(st, from);
      TrackJump(st, v, Always, Last(st.brk), from);
    case Continue =>
      TrackFail(st, from);
      TrackJump(st, v, Always, Last(st.cont), from);
    case Case(k, b) =>
      TrackFail(st, from);
      if k in cs {
        TrackHere(st, cs[k], from);
        TrackS(Here(st, cs[k]), v, b, cs, from);
        TracksThen(st, Here(st, cs[k]), EmitS(st, v, s, cs), from);
      }
    case Switch(_, _, _, _) => TrackSwitch(st, v, s, cs, from);
  }

  lemma TrackIf(st: ES, v: Env, s: Stmt, cs: map<Key, int>, from: nat)
    requires !st.fails && s.If?
    ensures Tracks(st, EmitS(st, v, s, cs), from)
    decreases s, 0
  {
    hide Tracks, Put1, Jump, Here, NewLabel, EmitE;
    var lelse, lend, s0 := |st.lab|, |st.lab| + 1, NewLabel(NewLabel(st));
    TrackTwoNew(st, from);
    TrackE(s0, v, s.c, from);
    var s1 := EmitE(s0, v, s.c);
    TracksThen(st, s0, s1, from);
    var to := if s.f.Some? then lelse else lend;
    TrackThenTest(st, s1, v, Z, to, from);
    var t1 := Jump(Put1(s1, v, TestRax), v, Z, to);
    TrackS(t1, v, s.t, cs, from);
    var s2 := EmitS(t1, v, s.t, cs);
    TracksThen(st, t1, s2, from);
    if s.f.None? {
      TrackThenHere(st, s2, lend, from);
    } else {
      TrackThenJump(st, s2, v, Always, lend, from);
      TrackThenHere(st, Jump(s2, v, Always, lend), lelse, from);
      var t2 := Here(Jump(s2, v, Always, lend), lelse);
      TrackS(t2, v, s.f.value, cs, from);
      TracksThen(st, t2, EmitS(t2, v, s.f.value, cs), from);
      TrackThenHere(st, EmitS(t2, v, s.f.value, cs), lend, from);
    }
  }

  lemma TrackLoop(st: ES, v: Env, s: Stmt, cs: map<Key, int>, from: nat)
    requires !st.fails && s.Loop?
    ensures Tracks(st, EmitS(st, v, s, cs), from)
    decreases s, 0
  {
    hide Tracks, Jump, Here, NewLabel, EmitO, EmitTest, Nest, FuelCheck;
    var ltop, lcont, lend := |st.lab|, |st.lab| + 1, |st.lab| + 2;
    TrackFail(st, from);
    if |st.brk| < MAX_NEST && |st.cont| < MAX_NEST {
      var n2 := NewLabel(NewLabel(st));
      var n3 := NewLabel(n2);
      TrackTwoNew(st, from);
      TrackNew(n2, from);
      TracksThen(st, n2, n3, from);
      var n4 := Nest(n3, st.brk + [lend], st.cont + [lcont]);
      TrackNest(n3, st.brk + [lend], st.cont + [lcont], from);
      TracksThen(st, n3, n4, from);
      TrackThenHere(st, n4, ltop, from);
      TrackLoopBody(st, v, s, cs, Here(n4, ltop), from);
    }
  }

  lemma TrackLoopBody(st: ES, v: Env, s: Stmt, cs: map<Key, int>, s1: ES, from: nat)
    requires !st.fails && s.Loop? && |st.brk| < MAX_NEST && |st.cont| < MAX_NEST && Tracks(st, s1, from)
    requires var n := |st.lab|;
             s1 == Here(Nest(NewLabel(NewLabel(NewLabel(st))), st.brk + [n + 2], st.cont + [n + 1]), n)
    ensures Tracks(st, EmitS(st, v, s, cs), from)
    decreases s, 0, 0
  {
    hide Tracks, Jump, Here, NewLabel, EmitO, EmitTest, Nest, FuelCheck;
    var ltop, lcont, lend := |st.lab|, |st.lab| + 1, |st.lab| + 2;
    var t1 := EmitTest(s1, v, s.cond, s.testFirst, lend);
    TrackWhen(s1, v, s.cond, s.testFirst, lend, from);
    TracksThen(st, s1, t1, from);
    var t2 := EmitS(t1, v, s.body, cs);
    TrackS(t1, v, s.body, cs, from);
    TracksThen(st, t1, t2, from);
    TrackThenHere(st, t2, lcont, from);
    var s2 := Here(t2, lcont);
    TrackO(s2, v, s.post, from);
    TracksThen(st, s2, EmitO(s2, v, s.post), from);
    var s3 := EmitTest(EmitO(s2, v, s.post), v, s.cond, !s.testFirst, lend);
    TrackWhen(EmitO(s2, v, s.post), v, s.cond, !s.testFirst, lend, from);
    TracksThen(st, EmitO(s2, v, s.post), s3, from);
    TrackFuel(s3, v, from);
    TracksThen(st, s3, FuelCheck(s3, v), from);
    TrackThenJump(st, FuelCheck(s3, v), v, Always, ltop, from);
    var s4 := Jump(FuelCheck(s3, v), v, Always, ltop);
    TrackThenHere(st, s4, lend, from);
    TrackNest(Here(s4, lend), st.brk, st.cont, from);
    TracksThen(st, Here(s4, lend), Nest(Here(s4, lend), st.brk, st.cont), from);
  }

  lemma TrackSwitch(st: ES, v: Env, s: Stmt, cs: map<Key, int>, from: nat)
    requires !st.fails && s.Switch?
    ensures Tracks(st, EmitS(st, v, s, cs), from)
    decreases s, 0
  {
    hide Tracks, Jump, Here, NewLabel, CaseLabels, EmitE, EmitChain, Nest, LabelMap;
    var lend := |st.lab|;
    TrackFail(st, from);
    if |st.brk| < MAX_NEST {
      TrackNew(st, from);
      var s1 := CaseLabels(NewLabel(st), s.keys);
      TrackCases(NewLabel(st), s.keys, from);
      TracksThen(st, NewLabel(st), s1, from);
      TracksQuiet(s1, s1, from);
      TrackNew(s1, from);
      var t1 := if s.dflt then NewLabel(s1) else s1;
      TracksThen(st, s1, t1, from);
      var s2 := EmitE(t1, v, s.c);
      TrackE(t1, v, s.c, from);
      TracksThen(st, t1, s2, from);
      var s3 := EmitChain(s2, v, s.keys, lend + 1);
      TrackChain(s2, v, s.keys, lend + 1, from);
      TracksThen(st, s2, s3, from);
      var to := if s.dflt then lend + 1 + |s.keys| else lend;
      TrackThenJump(st, s3, v, Always, to, from);
      var s4 := Jump(s3, v, Always, to);
      var t4 := Nest(s4, st.brk + [lend], st.cont);
      TrackNest(s4, st.brk + [lend], st.cont, from);
      TracksThen(st, s4, t4, from);
      var ls := LabelMap(s.keys, s.dflt, lend + 1);
      var s5 := EmitS(t4, v, s.body, ls);
      TrackS(t4, v, s.body, ls, from);
      TracksThen(st, t4, s5, from);
      TrackNest(s5, st.brk, st.cont, from);
      TracksThen(st, s5, Nest(s5, st.brk, st.cont), from);
      TrackThenHere(st, Nest(s5, st.brk, st.cont), lend, from);
    }
  }

  // ---- functions ------------------------------------------------------------------------------

  lemma {:induction false} TrackParams(st: ES, v: Env, ps: seq<Param>, i: nat, from: nat)
    ensures Tracks(st, EmitParams(st, v, ps, i), from)
    decreases |ps|
  {
    hide Tracks, Puts;
    if ps == [] {
      TracksQuiet(st, st, from);
    } else {
      var c := [MovRaxArg(ArgReg(i)), LeaRdiRbp(ps[0].off), StoreRdi(ps[0].w)];
      TrackPuts(st, v, c, from);
      TrackParams(Puts(st, v, c), v, ps[1..], i + 1, from);
      TracksThen(st, Puts(st, v, c), EmitParams(st, v, ps, i), from);
    }
  }

  lemma TrackPrologue(st: ES, v: Env, f: Func, from: nat)
    ensures Tracks(st, EmitPrologue(st, v, f), from)
  {
    hide Tracks, Puts, Put1, FuelCheck, Jump, EmitParams;
    var s1 := Puts(st, v, [PushRbp, MovRbpRsp]);
    TrackPuts(st, v, [PushRbp, MovRbpRsp], from);
    TrackThenPut(st, s1, v, SubRsp(f.frame), from);
    var s2 := if f.frame > 0 then Put1(s1, v, SubRsp(f.frame)) else s1;
    TrackFuel(s2, v, from);
    TracksThen(st, s2, FuelCheck(s2, v), from);
    TrackTest(FuelCheck(s2, v), v, CmpRspLimit, B, v.stack, from);
    var s3 := Jump(Put1(FuelCheck(s2, v), v, CmpRspLimit), v, B, v.stack);
    TracksThen(st, FuelCheck(s2, v), s3, from);
    TrackParams(s3, v, f.params, 0, from);
    TracksThen(st, s3, EmitParams(s3, v, f.params, 0), from);
  }

  /** In a function's items the recorded depths are the counts from its first. */
  lemma TrackF(st: ES, v: Env, f: Func, entry: int)
    ensures var r := EmitF(st, v, f, entry);
            !r.fails ==> !st.fails && st.items <= r.items && Tracked(r, |st.items|)
  {
    hide Tracks, Here, NewLabel, EmitPrologue, Put1, Puts, EmitS;
    var w, from := v.(epi := |st.lab|), |st.items|;
    var s0 := NewLabel(Fresh(Here(st, entry)));
    var s1 := EmitPrologue(s0, w, f);
    TrackPrologue(s0, w, f, from);
    TrackS(s1, w, f.body, map[], from);
    var s2 := EmitS(s1, w, f.body, map[]);
    TracksThen(s0, s1, s2, from);
    TrackThenPut(s0, s2, w, XorEax, from);
    TrackThenHere(s0, Put1(s2, w, XorEax), w.epi, from);
    TrackThenPuts(s0, Here(Put1(s2, w, XorEax), w.epi), w, [MovRspRbp, PopRbp, Ret], from);
    FreshStart(st, entry);
    TracksGives(s0, EmitF(st, v, f, entry), from);
  }

  lemma FreshStart(st: ES, entry: int)
    ensures var s0 := NewLabel(Fresh(Here(st, entry))); !s0.fails ==> !st.fails && s0.items == st.items && s0.depth == 0
  {
  }

  lemma TracksGives(a: ES, b: ES, from: nat)
    requires Tracks(a, b, from) && (!a.fails ==> from == |a.items| && a.depth == 0)
    ensures !b.fails ==> !a.fails && a.items <= b.items && Tracked(b, from)
  {
  }

  /** The items of function `j` lie where its code does, with their recorded depths
      the counts from its first. */
  lemma {:induction false} TrackFs(st: ES, v: Env, fs: seq<Func>, i: nat, j: nat)
    requires i <= j < |fs| && |v.fn| == |fs| && Within(st, v)
    ensures var r, from := EmitFs(st, v, fs, i), Places(fs[i..], |st.items|)[j - i];
            !r.fails ==>
              && !st.fails && st.items <= r.items && |st.items| <= from && from + SizeF(fs[j]) <= |r.items|
              && forall x :: from <= x < from + SizeF(fs[j]) ==> r.items[x].depth == Net(r.items, from, x)
    decreases |fs| - i
  {
    hide EmitF, SizeF, Room;
    var s1 := EmitF(st, v, fs[i], v.fn[i]);
    TrackF(st, v, fs[i], v.fn[i]);
    FuncSize(st, v, fs[i], v.fn[i]);
    assert fs[i..][0] == fs[i] && fs[i..][1..] == fs[i + 1..];
    var r := EmitFs(st, v, fs, i);
    if i == j {
      TrackRest(s1, v, fs, i + 1);
      if !r.fails {
        var from := |st.items|;
        forall x | from <= x < from + SizeF(fs[j])
          ensures r.items[x].depth == Net(r.items, from, x)
        {
          NetPrefix(s1.items, r.items, from, x);
        }
      }
    } else if !s1.fails {
      TrackFs(s1, v, fs, i + 1, j);
    } else {
      TrackRest(s1, v, fs, i + 1);
    }
  }

  lemma FuncSize(st: ES, v: Env, f: Func, entry: int)
    requires Within(st, v)
    ensures var r := EmitF(st, v, f, entry); !r.fails ==> |r.items| == |st.items| + SizeF(f) && Within(r, v)
  {
    hide EmitF, SizeF, CostS, LabelsS, FixupsS;
    SpendF(st, v, f, entry);
  }

  lemma {:induction false} TrackRest(st: ES, v: Env, fs: seq<Func>, i: nat)
    ensures var r := EmitFs(st, v, fs, i); !r.fails ==> !st.fails && st.items <= r.items
    decreases |fs| - i
  {
    hide EmitF;
    if i < |fs| && i < |v.fn| {
      TrackF(st, v, fs[i], v.fn[i]);
      TrackRest(EmitF(st, v, fs[i], v.fn[i]), v, fs, i + 1);
    }
  }

  // ---- the unit -----------------------------------------------------------------------------------

  /** The same for the whole buffer. */
  lemma TrackUnit(fs: seq<Func>, entry: nat, cap: nat, j: nat)
    requires entry < |fs| && j < |fs| && !EmitUnit(fs, entry, cap).fails
    ensures var items, from := EmitUnit(fs, entry, cap).items, Layout(fs).fn[j];
            && 0 <= from && from + SizeF(fs[j]) <= |items|
            && forall x :: from <= x < from + SizeF(fs[j]) ==> items[x].depth == Net(items, from, x)
  {
    hide Tracks, Here, Puts, RelTo, EmitFs, EmitAbort, NewLabels, SizeF, Uses, SizeFs;
    var v, done, none := UnitEnv(fs, cap), |fs| + 2, ES([], [], 0, 0, [], [], false);
    var s0 := NewLabels(none, |fs| + 3);
    var t1 := RelTo(Puts(s0, v, [SaveKrsp, LoadPrsp]), v, CallRel(0), entry);
    var t2 := Puts(Here(t1, done), v, [LoadKrsp, Halt]);
    var s2 := EmitFs(t2, v, fs, 0);
    var s3 := EmitAbort(s2, v, 1, |fs|, done);
    var r := EmitAbort(s3, v, 2, |fs| + 1, done);
    assert r == EmitUnit(fs, entry, cap);
    UseStart(fs, entry, v, none, s0, t1, t2);
    FiveItems(none, t2, v, |fs| + 3);
    TrackFs(t2, v, fs, 0, j);
    assert fs[0..] == fs;
    TrackAbort(s2, v, 1, |fs|, done);
    TrackAbort(s3, v, 2, |fs| + 1, done);
    var from := Layout(fs).fn[j];
    forall x | from <= x < from + SizeF(fs[j])
      ensures r.items[x].depth == Net(r.items, from, x)
    {
      NetPrefix(s2.items, r.items, from, x);
    }
  }

  lemma FiveItems(none: ES, t2: ES, v: Env, n: nat)
    requires none == ES([], [], 0, 0, [], [], false) && Uses(none, t2, v, Cost(5, n, 1, 0, true))
    ensures Within(t2, v) && (!t2.fails ==> |t2.items| == 5)
  {
  }

  lemma TrackAbort(st: ES, v: Env, cause: int, here: int, done: int)
    ensures var r := EmitAbort(st, v, cause, here, done); !r.fails ==> !st.fails && st.items <= r.items
  {
    hide Tracks, Here, Puts, Jump;
    TrackHere(st, here, 0);
    TrackThenPuts(st, Here(st, here), v, [SetAborted(cause), XorEax], 0);
    TrackThenJump(st, Puts(Here(st, here), v, [SetAborted(cause), XorEax]), v, Always, done, 0);
    Grew(st, EmitAbort(st, v, cause, here, done));
  }

  lemma Grew(a: ES, b: ES)
    requires Tracks(a, b, 0)
    ensures !b.fails ==> !a.fails && a.items <= b.items
  {
  }

  /** Counting along the items is counting along the code they become. */
  lemma {:induction false} NetIsPushed(items: seq<Item>, off: seq<int>, from: nat, seg: seq<Instr>, j: nat)
    requires j <= |seg| && from + |seg| <= |items| && Lay(items, off)[from..from + |seg|] == seg
    ensures Net(items, from, from + j) == Pushed(seg, j)
    decreases j
  {
    hide OffOf;
    if j > 0 {
      NetIsPushed(items, off, from, seg, j - 1);
      assert seg[j - 1] == Lay(items, off)[from + j - 1];
    }
  }
}
