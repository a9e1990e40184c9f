// From a function as written, compound assignments included, to the buffer: what
// is typed as written is typed as lowered, so the code does what was written.

module CSource {
  import opened Basics
  import opened Words
  import opened CTree
  import opened X64
  import opened Gen
  import opened SimUnit
  import opened EmitFitsS
  import opened Compiled
  import opened CFence
  import opened CUpdate
  import opened CLowers
  import opened CStatements

  // ---- types as written ----------------------------------------------------------------------

  function UnaryTy(u: Unary): Ty {
    match u
    case ToType(ty) => ty
    case LogNot => INT
    case Flip(ty) => ty
  }

  function STy(e: Src): Ty {
    match e
    case SNum(ty, _) => ty
    case SLoad(ty, _) => ty
    case SAddr(_) => PTR
    case SAssign(ty, _, _) => ty
    case SUnary(u, _) => UnaryTy(u)
    case SBin(_, ty, _, _) => ty
    case SCmp(_, _, _) => INT
    case SLog(_, _, _) => INT
    case SCond(ty, _, _, _) => ty
    case SComma(_, r) => STy(r)
    case SCall(_, ty, _) => ty
    case SUpdate(_, ty, _, _) => ty
  }

  function SCount(args: SrcA): nat { if args.SNone? then 0 else 1 + SCount(args.rest) }

  /** An update's new value has a type: arithmetic at a common type of numbers, a
      step over things that have a size. */
  predicate UpTyped(up: Up, ty: Ty) {
    match up
    case Arith(_, ct) => ct.Int?
    case Shift(_) => true
    case Step(_, size) => Fits(size, B8, false)
  }

  predicate UnaryTyped(u: Unary, x: Ty) {
    match u
    case ToType(ty) => ty.Int? ==> x.Int?
    case LogNot => x.Int?
    case Flip(ty) => x.Int? && ty.Int?
  }

  /** What the parser checks of an expression as written. */
  predicate Typed(w: World, e: Src) {
    match e
    case SNum(ty, v) => ty.Int? && Fits(v, ty.w, ty.uns)
    case SLoad(ty, lv) => ty.Int? && TypedL(w, lv)
    case SAddr(lv) => TypedL(w, lv)
    case SAssign(ty, lv, r) => ty.Int? && TypedL(w, lv) && Typed(w, r) && STy(r) == ty
    case SUnary(u, x) => Typed(w, x) && UnaryTyped(u, STy(x))
    case SBin(op, ty, l, r) =>
      && ty.Int? && Typed(w, l) && Typed(w, r) && STy(l).Int? && STy(r).Int?
      && (op.Div? || op.Mod? ==> STy(l) == ty && STy(r) == ty)
      && (op.Shr? ==> STy(l) == ty)
    case SCmp(_, l, r) => Typed(w, l) && Typed(w, r) && STy(l) == STy(r) && STy(l).Int?
    case SLog(_, l, r) => Typed(w, l) && Typed(w, r) && STy(l).Int? && STy(r).Int?
    case SCond(ty, c, t, f) =>
      && Typed(w, c) && STy(c).Int? && Typed(w, t) && Typed(w, f)
      && (ty.Int? ==> STy(t) == ty && STy(f) == ty)
    case SComma(l, r) => Typed(w, l) && Typed(w, r)
    case SCall(callee, ty, args) =>
      && TypedA(w, args) && SCount(args) <= 6
      && (callee.Unit? ==> callee.index < |w.funcs|
                           && |w.funcs[callee.index].params| == SCount(args)
                           && (ty.Int? ==> w.funcs[callee.index].ret.Int?))
    case SUpdate(up, ty, lv, r) => ty.Int? && TypedL(w, lv) && Typed(w, r) && STy(r).Int? && UpTyped(up, ty)
  }

  predicate TypedL(w: World, lv: SrcL) {
    match lv
    case SLocal(_) => true
    case SGlobal(_) => true
    case SDeref(e) => Typed(w, e) && STy(e) == PTR
    case SMember(x, _) => TypedL(w, x)
    case SCommaL(e, x) => Typed(w, e) && TypedL(w, x)
  }

  predicate TypedA(w: World, args: SrcA) {
    args.SArg? ==> Typed(w, args.e) && STy(args.e).Int? && TypedA(w, args.rest)
  }

  // ---- lowering keeps the types --------------------------------------------------------------

  lemma HiddenTyped(w: World, up: Up, ty: Ty, lv: LVal, rhs: Expr, n: nat)
    requires ty.Int? && WellTypedL(w, lv) && WellTyped(w, rhs) && ETy(rhs).Int? && UpTyped(up, ty)
    ensures WellTyped(w, Hidden(up, ty, lv, rhs, n)) && ETy(Hidden(up, ty, lv, rhs, n)) == ty
  {
    hide Fits;
    var at := Deref(Load(PTR, Temp(n)));
    assert WellTyped(w, Load(PTR, Temp(n))) && WellTypedL(w, at) && WellTyped(w, Load(ty, at));
    var val := Combined(up, ty, Load(ty, at), rhs);
    assert WellTyped(w, val) && ETy(val) == ty by {
      CombinedTyped(w, up, ty, Load(ty, at), rhs);
    }
    assert WellTyped(w, Assign(PTR, Temp(n), Addr(lv)));
  }

  lemma CombinedTyped(w: World, up: Up, ty: Ty, was: Expr, rhs: Expr)
    requires ty.Int? && WellTyped(w, was) && ETy(was) == ty && WellTyped(w, rhs) && ETy(rhs).Int? && UpTyped(up, ty)
    ensures WellTyped(w, Combined(up, ty, was, rhs)) && ETy(Combined(up, ty, was, rhs)) == ty
  {
    hide Fits;
    match up
    case Arith(op, ct) =>
      assert WellTyped(w, Cast(ct, was)) && WellTyped(w, Cast(ct, rhs));
      assert WellTyped(w, Bin(op, ct, Cast(ct, was), Cast(ct, rhs)));
    case Shift(right) => assert WellTyped(w, Cast(INT, rhs));
    case Step(down, size) =>
      var scaled := Bin(BinOp.Mul, LONG, Cast(LONG, rhs), Num(LONG, size));
      assert WellTyped(w, Cast(LONG, rhs)) && WellTyped(w, Num(LONG, size)) && WellTyped(w, scaled);
      assert WellTyped(w, Bin(if down then BinOp.Sub else BinOp.Add, PTR, was, scaled));
  }

  lemma UnaryLowered(w: World, u: Unary, e: Expr)
    requires WellTyped(w, e) && UnaryTyped(u, ETy(e))
    ensures WellTyped(w, LowerUnary(u, e)) && ETy(LowerUnary(u, e)) == UnaryTy(u)
  {
  }

  /** An expression typed as written lowers to a well-typed tree of the same type. */
  lemma {:induction false} LowerTyped(w: World, e: Src, n: nat)
    requires Typed(w, e)
    ensures WellTyped(w, Lower(e, n).0) && ETy(Lower(e, n).0) == STy(e)
    decreases e, 1
  {
    hide Fits, Hidden, LowerUnary, UpTyped, UnaryTyped;
    match e
    case SNum(_, _) =>
    case SLoad(_, lv) => LowerTypedL(w, lv, n);
    case SAddr(lv) => LowerTypedL(w, lv, n);
    case SAssign(_, lv, r) =>
      LowerTypedL(w, lv, n);
      LowerTyped(w, r, LowerL(lv, n).1);
    case SUnary(u, x) =>
      LowerTyped(w, x, n);
      UnaryLowered(w, u, Lower(x, n).0);
    case SBin(_, _, _, _) => LowerTypedTwo(w, e, n);
    case SCmp(_, _, _) => LowerTypedTwo(w, e, n);
    case SLog(_, _, _) => LowerTypedTwo(w, e, n);
    case SCond(_, c, t, f) =>
      LowerTyped(w, c, n);
      LowerTyped(w, t, Lower(c, n).1);
      LowerTyped(w, f, Lower(t, Lower(c, n).1).1);
    case SComma(_, _) => LowerTypedTwo(w, e, n);
    case SCall(_, _, args) => LowerTypedA(w, args, n);
    case SUpdate(up, ty, lv, r) =>
      LowerTypedL(w, lv, n);
      var a := LowerL(lv, n);
      LowerTyped(w, r, a.1);
      var v := Lower(r, a.1);
      HiddenTyped(w, up, ty, a.0, v.0, v.1);
  }

  lemma {:induction false} LowerTypedTwo(w: World, e: Src, n: nat)
    requires Typed(w, e) && (e.SBin? || e.SCmp? || e.SLog? || e.SComma?)
    ensures WellTyped(w, Lower(e, n).0) && ETy(Lower(e, n).0) == STy(e)
    decreases e, 0
  {
    LowerTyped(w, e.l, n);
    LowerTyped(w, e.r, Lower(e.l, n).1);
  }

  lemma {:induction false} LowerTypedL(w: World, lv: SrcL, n: nat)
    requires TypedL(w, lv)
    ensures WellTypedL(w, LowerL(lv, n).0)
    decreases lv
  {
    match lv
    case SLocal(_) =>
    case SGlobal(_) =>
    case SDeref(e) => LowerTyped(w, e, n);
    case SMember(x, _) => LowerTypedL(w, x, n);
    case SCommaL(e, x) =>
      LowerTyped(w, e, n);
      LowerTypedL(w, x, Lower(e, n).1);
  }

  lemma {:induction false} LowerTypedA(w: World, args: SrcA, n: nat)
    requires TypedA(w, args)
    ensures WellTypedA(w, LowerA(args, n).0) && Count(LowerA(args, n).0) == SCount(args)
    decreases args
  {
    if args.SArg? {
      LowerTyped(w, args.e, n);
      LowerTypedA(w, args.rest, Lower(args.e, n).1);
    }
  }

  // ---- statements ----------------------------------------------------------------------------

  predicate TypedP(w: World, p: Part) { Typed(w, p.e) }

  /** What the parser checks of a statement as written; the lists of cases are those
      of the labels in the body. */
  predicate Formed(w: World, s: SrcS, ret: Ty, brk: bool, cont: bool) {
    match s
    case TNop => true
    case TSeq(a, b) => Formed(w, a, ret, brk, cont) && Formed(w, b, ret, brk, cont)
    case TEval(p) => TypedP(w, p)
    case TZero(_, n) => n < 0x8000_0000
    case TReturn(r) => if r.Some? then TypedP(w, r.value) && STy(r.value.e) == ret else ret == Void
    case TIf(c, t, f) =>
      && TypedP(w, c) && STy(c.e).Int? && Formed(w, t, ret, brk, cont)
      && (f.Some? ==> Formed(w, f.value, ret, brk, cont))
    case TLoop(c, _, p, b) =>
      && (c.Some? ==> TypedP(w, c.value) && STy(c.value.e).Int?)
      && (p.Some? ==> TypedP(w, p.value))
      && Formed(w, b, ret, true, true)
    case TBreak => brk
    case TContinue => cont
    case TCase(_, b) => Formed(w, b, ret, brk, cont)
    case TSwitch(c, keys, dflt, b) =>
      && TypedP(w, c) && STy(c.e).Int? && Formed(w, b, ret, true, cont) && Listed(keys, dflt, LowerS(b), STy(c.e))
  }

  /** The list of a switch's cases is that of the labels in its body, each once. */
  predicate Listed(keys: seq<int>, dflt: bool, b: Stmt, ty: Ty)
    requires ty.Int?
  {
    && DistinctCases(b)
    && (forall i, j :: 0 <= i < j < |keys| ==> keys[i] != keys[j])
    && (forall v :: v in keys ==> HasCase(b, CaseOf(v)) && Fits(v, ty.w, ty.uns))
    && (forall k :: k in Cases(b) && k.CaseOf? ==> k.v in keys)
    && (dflt <==> HasCase(b, Default)) && !HasCase(b, Buried)
  }

  lemma PartTyped(w: World, p: Part)
    requires TypedP(w, p)
    ensures WellTyped(w, LowerP(p)) && ETy(LowerP(p)) == STy(p.e)
  {
    hide WellTyped, Typed, Lower, ETy, STy;
    LowerTyped(w, p.e, p.n);
  }

  /** A statement the parser accepts as written lowers to a well-formed tree. */
  lemma {:induction false} LowerFormed(w: World, s: SrcS, ret: Ty, brk: bool, cont: bool)
    requires Formed(w, s, ret, brk, cont)
    ensures WellFormed(w, LowerS(s), ret, brk, cont)
    decreases s
  {
    hide WellTyped, TypedP, LowerP, ETy, STy, Cases, DistinctCases, Fits;
    match s
    case TNop =>
    case TSeq(a, b) =>
      LowerFormed(w, a, ret, brk, cont);
      LowerFormed(w, b, ret, brk, cont);
    case TEval(p) => PartTyped(w, p);
    case TZero(_, _) =>
    case TReturn(r) =>
      if r.Some? {
        PartTyped(w, r.value);
      }
    case TIf(c, t, f) =>
      PartTyped(w, c);
      LowerFormed(w, t, ret, brk, cont);
      if f.Some? {
        LowerFormed(w, f.value, ret, brk, cont);
      }
    case TLoop(c, _, p, b) =>
      if c.Some? {
        PartTyped(w, c.value);
      }
      if p.Some? {
        PartTyped(w, p.value);
      }
      LowerFormed(w, b, ret, true, true);
    case TBreak =>
    case TContinue =>
    case TCase(_, b) => LowerFormed(w, b, ret, brk, cont);
    case TSwitch(c, keys, dflt, b) =>
      PartTyped(w, c);
      LowerFormed(w, b, ret, true, cont);
      SwitchLowered(w, LowerP(c), keys, dflt, LowerS(b), ret, brk, cont);
  }

  lemma SwitchLowered(w: World, c: Expr, keys: seq<int>, dflt: bool, b: Stmt, ret: Ty, brk: bool, cont: bool)
    requires WellTyped(w, c) && ETy(c).Int? && WellFormed(w, b, ret, true, cont) && Listed(keys, dflt, b, ETy(c))
    ensures WellFormed(w, Switch(c, keys, dflt, b), ret, brk, cont)
  {
    hide WellTyped, Cases, DistinctCases, Fits;
  }

  predicate FormedF(w: World, f: SrcF) {
    && f.frame % 16 == 0 && |f.params| <= 6 && FitsS(f.body)
    && Formed(w, f.body, f.ret, false, false) && Cases(LowerS(f.body)) == {}
  }

  lemma FunctionFormed(w: World, f: SrcF)
    requires FormedF(w, f)
    ensures WellFormedFunc(w, LowerF(f)) && FitsS(f.body)
  {
    hide Formed, WellFormed, LowerS, Cases, FitsS;
    LowerFormed(w, f.body, f.ret, false, false);
  }

  // ---- as written, in the buffer -------------------------------------------------------------

  /** How a run may end, given what was written: as that says, but for the bytes of
      the function's own temporaries. */
  ghost predicate Delivered(w: World, ret: Ty, s: State, t: State, r: Out<int>) {
    match r
    case Ok(v, m, f) =>
      && t.status == Halted && t.rsp == s.rsp && Near(w, m, t.mem) && t.fuel == f
      && t.rt.aborted == s.rt.aborted && (ret.Int? ==> t.rax == Enc(v))
    case NoFuel(m) =>
      t.status == Halted && t.rsp == s.rsp && Near(w, m, t.mem) && t.fuel == -1 && t.rt.aborted == 1 && t.rax == 0
    case NoStack(m, f) =>
      t.status == Halted && t.rsp == s.rsp && Near(w, m, t.mem) && t.fuel == f && t.rt.aborted == 2 && t.rax == 0
    case Trap => t.status == Trapped
    case Wild => true
  }

  lemma Delivers(w: World, entry: nat, s: State, t: State, r1: Out<int>, r2: Out<int>, m: Mem, fp: int)
    requires entry < |w.funcs| && Agree(w, r1, r2, m, fp) && Finished(Bare(w), entry, s, t, r2)
    ensures Delivered(w, w.funcs[entry].ret, s, t, r1) && (r2.Wild? ==> r1.Wild?)
  {
    hide Near, Spared;
  }

  /** The entry function as written, with compound assignments anywhere in it, and
      the buffer the generator fills for the unit: running the buffer gives what was
      written, within a bound linear in fuel. */
  lemma SourceRuns(w: World, f: SrcF, entry: nat, cap: nat, s: State) returns (n: nat)
    requires entry < |w.funcs| && w.funcs[entry] == LowerF(f) && FormedF(Bare(w), f)
    requires forall j :: 0 <= j < |w.funcs| && j != entry ==> WellFormedFunc(Bare(w), w.funcs[j])
    requires UnitFits(w.funcs, entry, cap) && Blind(w) && Home(w, s.rt.prsp - 16, s.mem)
    requires s.status == Running && s.pc == 0 && 0 <= s.fuel
    requires s.rt.limit == w.limit && s.rt.prsp % 16 == 0
    ensures var r := MeanF(w, f, Incoming(w, entry, s), s.rt.prsp, s.mem, s.fuel);
            && Delivered(w, f.ret, s, Run(Bare(w), Buffer(w.funcs, entry, cap), s, n), r)
            && (r.Wild? || n <= 8 + MaxWeight(w.funcs) * (s.fuel + 1))
  {
    hide FormedF, WellFormedFunc, UnitFits, Blind, Home, Incoming, MeanF, RunFunc, Run, Buffer, MaxWeight, Finished,
      Agree,
      Delivered;
    var b := Bare(w);
    FunctionFormed(b, f);
    var vs := Incoming(b, entry, s);
    assert vs == Incoming(w, entry, s) by {
      SameIncoming(w, entry, s);
    }
    n := CompiledRuns(b, entry, cap, s);
    FunctionMeans(w, f, vs, s.rt.prsp, s.mem, s.fuel);
    Delivers(w, entry, s, Run(b, Buffer(w.funcs, entry, cap), s, n), MeanF(w, f, vs, s.rt.prsp, s.mem, s.fuel),
      RunFunc(b, LowerF(f), vs, s.rt.prsp, s.mem, s.fuel), s.mem, s.rt.prsp - 16);
  }

  lemma SameIncoming(w: World, entry: nat, s: State)
    requires entry < |w.funcs|
    ensures Incoming(Bare(w), entry, s) == Incoming(w, entry, s)
  {
  }
}
