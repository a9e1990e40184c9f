// The emitter as a function of its state: instructions appended, labels handed
// out and placed, jumps left to be filled in. Once anything fails, nothing more
// happens; the unit is then refused as a whole.

module Emit {
  import opened Basics
  import opened Words
  import opened CTree
  import opened X64
  import opened Gen

  const MAX_LABELS := 2048
  const MAX_FIXUPS := 4096
  const MAX_NEST := 64

  /** An instruction in the buffer, with the emitter's depth when it was put there;
      `Rel` still waits for its label's place. */
  datatype Item = Fixed(i: Instr, depth: int) | Rel(i: Instr, to: int, depth: int)

  datatype ES = ES(
    items: seq<Item>,
    lab: seq<int>,
    nfix: nat,
    depth: int,
    brk: seq<int>,
    cont: seq<int>,
    fails: bool)

  /** What stays fixed while a function is emitted: buffer size, and the labels
      of the abort stubs, the functions and the current epilogue. */
  datatype Env = Env(cap: nat, fuel: int, stack: int, fn: seq<int>, epi: int)

  function Retarget(i: Instr, rel: int): Instr {
    match i
    case J(cc, _) => J(cc, rel)
    case CallRel(_) => CallRel(rel)
    case _ => i
  }

  function OffOf(off: seq<int>, l: int): int {
    if 0 <= l < |off| then off[l] else 0
  }

  /** An item with its label at the place `off` gives it. */
  function One(x: Item, off: seq<int>, at: int): Instr {
    match x
    case Fixed(i, _) => i
    case Rel(i, l, _) => Retarget(i, OffOf(off, l) - (at + 1))
  }

  /** The buffer once every label has its place. */
  function Lay(items: seq<Item>, off: seq<int>): (r: seq<Instr>)
    ensures |r| == |items|
  {
    seq(|items|, i requires 0 <= i < |items| => One(items[i], off, i))
  }

  function LinksOf(v: Env, off: seq<int>): Links {
    Links(OffOf(off, v.fuel), OffOf(off, v.stack), seq(|v.fn|, i requires 0 <= i < |v.fn| => OffOf(off, v.fn[i])))
  }

  // ---- primitives ------------------------------------------------------------

  function Fail(st: ES): ES { st.(fails := true) }

  function Put1(st: ES, v: Env, i: Instr): (r: ES)
    ensures (st.fails ==> r == st) && |r.lab| >= |st.lab|
  {
    if st.fails then st
    else if |st.items| >= v.cap then Fail(st)
    else st.(items := st.items + [Fixed(i, st.depth)])
  }

  function Puts(st: ES, v: Env, c: seq<Instr>): (r: ES)
    ensures (st.fails ==> r == st) && |r.lab| >= |st.lab|
    decreases |c|
  {
    if c == [] then st else Puts(Put1(st, v, c[0]), v, c[1..])
  }

  function NewLabel(st: ES): (r: ES)
    ensures (st.fails ==> r == st) && |r.lab| >= |st.lab|
  {
    if st.fails then st
    else if |st.lab| >= MAX_LABELS then Fail(st)
    else st.(lab := st.lab + [-1])
  }

  function Here(st: ES, l: int): (r: ES)
    ensures (st.fails ==> r == st) && |r.lab| >= |st.lab|
  {
    if st.fails || !(0 <= l < |st.lab|) then st
    else st.(lab := st.lab[l := |st.items|])
  }

  function RelTo(st: ES, v: Env, i: Instr, l: int): (r: ES)
    ensures (st.fails ==> r == st) && |r.lab| >= |st.lab|
  {
    if st.fails then st
    else if st.nfix >= MAX_FIXUPS || |st.items| >= v.cap then Fail(st)
    else st.(items := st.items + [Rel(i, l, st.depth)], nfix := st.nfix + 1)
  }

  function Jump(st: ES, v: Env, cc: CC, l: int): (r: ES)
    ensures (st.fails ==> r == st) && |r.lab| >= |st.lab|
  {
    RelTo(st, v, J(cc, 0), l)
  }

  function Deeper(st: ES, n: int): (r: ES)
    ensures (st.fails ==> r == st) && |r.lab| >= |st.lab|
  {
    if st.fails then st else st.(depth := st.depth + n)
  }

  function Push(st: ES, v: Env): (r: ES)
    ensures (st.fails ==> r == st) && |r.lab| >= |st.lab|
  {
    Deeper(Put1(st, v, PushRax), 1)
  }

  function PopTo(st: ES, v: Env, x: Reg): (r: ES)
    ensures (st.fails ==> r == st) && |r.lab| >= |st.lab|
  {
    Deeper(Put1(st, v, Pop(x)), -1)
  }

  function FuelCheck(st: ES, v: Env): (r: ES)
    ensures (st.fails ==> r == st) && |r.lab| >= |st.lab|
  {
    Jump(Put1(st, v, DecFuel), v, S, v.fuel)
  }

  // ---- expressions ---------------------------------------------------------------

  function PopArgs(st: ES, v: Env, n: nat): (r: ES)
    ensures (st.fails ==> r == st) && |r.lab| >= |st.lab|
    decreases n
  {
    if n == 0 then st else PopArgs(PopTo(st, v, ArgReg(n - 1)), v, n - 1)
  }

  function CallTo(st: ES, v: Env, callee: Callee, n: nat): (r: ES)
    ensures (st.fails ==> r == st) && |r.lab| >= |st.lab|
  {
    match callee
    case Unit(i) => if i < |v.fn| then RelTo(st, v, CallRel(0), v.fn[i]) else Fail(st)
    case Kernel(a) => Puts(st, v, [MovR11Imm(a), CallR11(n)])
  }

  function EmitEnter(st: ES, v: Env, callee: Callee, ty: Ty, n: nat): (r: ES)
    ensures (st.fails ==> r == st) && |r.lab| >= |st.lab|
  {
    var s1 := PopArgs(st, v, n);
    var pad := s1.depth % 2 == 1;
    var s2 := FuelCheck(if pad then Put1(s1, v, SubRsp(8)) else s1, v);
    var s3 := CallTo(s2, v, callee, n);
    Puts(if pad then Put1(s3, v, AddRsp(8)) else s3, v, Norm(ty))
  }

  function EmitE(st: ES, v: Env, e: Expr): (r: ES)
    ensures (st.fails ==> r == st) && |r.lab| >= |st.lab|
    decreases e, 1
  {
    if st.fails then st else
    match e
    case Num(_, x) => Put1(st, v, MovRaxImm(Enc(x)))
    case Load(ty, lv) => Puts(EmitL(st, v, lv), v, LoadCode(ty))
    case Addr(lv) => EmitL(st, v, lv)
    case Assign(ty, lv, rhs) =>
      Put1(PopTo(EmitE(Push(EmitL(st, v, lv), v), v, rhs), v, Rdi), v, StoreRdi(if ty.Int? then ty.w else B8))
    case Cast(ty, x) => Puts(EmitE(st, v, x), v, Norm(ty))
    case Bin(op, ty, l, r) =>
      Puts(PopTo(EmitE(Push(EmitE(st, v, r), v), v, l), v, Rdi), v, BinCode(op, ty) + Norm(ty))
    case Cmp(op, l, r) =>
      Puts(PopTo(EmitE(Push(EmitE(st, v, r), v), v, l), v, Rdi), v, CmpCode(op, ETy(l)))
    case Not(x) => Puts(EmitE(st, v, x), v, [TestRax, SetCC(Z), MovzxAl])
    case BitNot(ty, x) => Puts(EmitE(st, v, x), v, [NotRax(Wide(ty))] + Norm(ty))
    case LogAnd(_, _) => EmitLog(st, v, e)
    case LogOr(_, _) => EmitLog(st, v, e)
    case Cond(_, c, t, f) =>
      var lelse, lend := |st.lab|, |st.lab| + 1;
      var s1 := EmitE(NewLabel(NewLabel(st)), v, c);
      var s2 := EmitE(Jump(Put1(s1, v, TestRax), v, Z, lelse), v, t);
      Here(EmitE(Here(Jump(s2, v, Always, lend), lelse), v, f), lend)
    case Comma(l, r) => EmitE(EmitE(st, v, l), v, r)
    case Call(callee, ty, args) => EmitEnter(EmitA(st, v, args), v, callee, ty, Count(args))
  }

  /** && and ||: both operands jump to the same deciding label. */
  function EmitLog(st: ES, v: Env, e: Expr): (t: ES)
    requires e.LogAnd? || e.LogOr?
    ensures (st.fails ==> t == st) && |t.lab| >= |st.lab|
    decreases e, 0
  {
    var or := e.LogOr?;
    var cc := if or then NZ else Z;
    var decided, lend := |st.lab|, |st.lab| + 1;
    var s1 := EmitE(NewLabel(NewLabel(st)), v, e.l);
    var s2 := EmitE(Jump(Put1(s1, v, TestRax), v, cc, decided), v, e.r);
    var s3 := Jump(Put1(s2, v, TestRax), v, cc, decided);
    var s4 := Jump(Put1(s3, v, if or then XorEax else MovEaxImm(1)), v, Always, lend);
    Here(Put1(Here(s4, decided), v, if or then MovEaxImm(1) else XorEax), lend)
  }

  function EmitL(st: ES, v: Env, lv: LVal): (r: ES)
    ensures (st.fails ==> r == st) && |r.lab| >= |st.lab|
    decreases lv, 1
  {
    match lv
    case Local(off) => Put1(st, v, LeaRaxRbp(off))
    case Global(a) => Put1(st, v, MovRaxImm(Enc(a)))
    case Deref(e) => EmitE(st, v, e)
    case Member(x, off) =>
      var s1 := EmitL(st, v, x);
      if off == 0 then s1 else Put1(s1, v, AddRaxImm(off))
    case CommaL(e, x) => EmitL(EmitE(st, v, e), v, x)
  }

  function EmitA(st: ES, v: Env, args: Args): (r: ES)
    ensures (st.fails ==> r == st) && |r.lab| >= |st.lab|
    decreases args, 1
  {
    match args
    case NoArgs => st
    case Arg(e, rest) => EmitA(Push(EmitE(st, v, e), v), v, rest)
  }

  // ---- statements -----------------------------------------------------------------

  function EmitZero(st: ES, v: Env, size: nat): (r: ES)
    ensures (st.fails ==> r == st) && |r.lab| >= |st.lab|
  {
    if size <= 64 then Puts(st, v, ZeroChunks(0, size))
    else
      var top := |st.lab|;
      var s1 := Here(Put1(NewLabel(st), v, MovRcxImm(Enc(size))), top);
      Jump(Puts(s1, v, [ZeroAt(0, 1), IncRax, DecRcx]), v, NZ, top)
  }

  function EmitO(st: ES, v: Env, c: Option<Expr>): (r: ES)
    ensures (st.fails ==> r == st) && |r.lab| >= |st.lab|
  {
    if c.Some? then EmitE(st, v, c.value) else st
  }

  function EmitTest(st: ES, v: Env, c: Option<Expr>, when: bool, lend: int): (r: ES)
    ensures (st.fails ==> r == st) && |r.lab| >= |st.lab|
  {
    if when && c.Some? then Jump(Put1(EmitE(st, v, c.value), v, TestRax), v, Z, lend) else st
  }

  function Nest(st: ES, brk: seq<int>, cont: seq<int>): (r: ES)
    ensures (st.fails ==> r == st) && |r.lab| >= |st.lab|
  {
    if st.fails then st else st.(brk := brk, cont := cont)
  }

  /** Labels for the cases in order, then the default. */
  function CaseLabels(st: ES, keys: seq<int>): (r: ES)
    ensures (st.fails ==> r == st) && |r.lab| >= |st.lab|
    decreases |keys|
  {
    if keys == [] then st else CaseLabels(NewLabel(st), keys[1..])
  }

  function LabelMap(keys: seq<int>, dflt: bool, first: int): map<Key, int>
    decreases |keys|
  {
    if keys == [] then (if dflt then map[Default := first] else map[])
    else LabelMap(keys[1..], dflt, first + 1)[CaseOf(keys[0]) := first]
  }

  function EmitChain(st: ES, v: Env, keys: seq<int>, first: int): (r: ES)
    ensures (st.fails ==> r == st) && |r.lab| >= |st.lab|
    decreases |keys|
  {
    if keys == [] then st
    else EmitChain(Jump(Puts(st, v, [MovR11Imm(Enc(keys[0])), CmpRaxR11]), v, Z, first), v, keys[1..], first + 1)
  }

  function Last(s: seq<int>): int { if s == [] then -1 else s[|s| - 1] }

  /** `cs` gives the labels of the innermost switch's cases. */
  function EmitS(st: ES, v: Env, s: Stmt, cs: map<Key, int>): (r: ES)
    ensures (st.fails ==> r == st) && |r.lab| >= |st.lab|
    decreases s
  {
    if st.fails then st else
    match s
    case Nop => st
    case Seq(a, b) => EmitS(EmitS(st, v, a, cs), v, b, cs)
    case Eval(e) => EmitE(st, v, e)
    case MemZero(off, n) => EmitZero(Put1(st, v, LeaRaxRbp(off)), v, n)
    case Return(r) => Jump(EmitO(st, v, r), v, Always, v.epi)
    case If(c, t, f) =>
      var lelse, lend := |st.lab|, |st.lab| + 1;
      var s1 := EmitE(NewLabel(NewLabel(st)), v, c);
      var s2 := EmitS(Jump(Put1(s1, v, TestRax), v, Z, if f.Some? then lelse else lend), v, t, cs);
      if f.None? then Here(s2, lend)
      else Here(EmitS(Here(Jump(s2, v, Always, lend), lelse), v, f.value, cs), lend)
    case Loop(c, first, p, b) =>
      var ltop, lcont, lend := |st.lab|, |st.lab| + 1, |st.lab| + 2;
      if |st.brk| >= MAX_NEST || |st.cont| >= MAX_NEST then Fail(st)
      else
        var s1 := Here(Nest(NewLabel(NewLabel(NewLabel(st))), st.brk + [lend], st.cont + [lcont]), ltop);
        var s2 := Here(EmitS(EmitTest(s1, v, c, first, lend), v, b, cs), lcont);
        var s3 := EmitTest(EmitO(s2, v, p), v, c, !first, lend);
        Nest(Here(Jump(FuelCheck(s3, v), v, Always, ltop), lend), st.brk, st.cont)
    case Break => if st.brk == [] then Fail(st) else Jump(st, v, Always, Last(st.brk))
    case Continue => if st.cont == [] then Fail(st) else Jump(st, v, Always, Last(st.cont))
    case Case(k, b) => if k in cs then EmitS(Here(st, cs[k]), v, b, cs) else Fail(st)
    case Switch(c, keys, dflt, b) =>
      var lend := |st.lab|;
      if |st.brk| >= MAX_NEST then Fail(st)
      else
        var s1 := CaseLabels(NewLabel(st), keys);
        var s2 := EmitE(if dflt then NewLabel(s1) else s1, v, c);
        var s3 := EmitChain(s2, v, keys, lend + 1);
        var s4 := Jump(s3, v, Always, if dflt then lend + 1 + |keys| else lend);
        var s5 := EmitS(Nest(s4, st.brk + [lend], st.cont), v, b, LabelMap(keys, dflt, lend + 1));
        Here(Nest(s5, st.brk, st.cont), lend)
  }

  // ---- functions and the unit --------------------------------------------------------

  function EmitParams(st: ES, v: Env, ps: seq<Param>, i: nat): (r: ES)
    ensures (st.fails ==> r == st) && |r.lab| >= |st.lab|
    decreases |ps|
  {
    if ps == [] then st
    else EmitParams(Puts(st, v, [MovRaxArg(ArgReg(i)), LeaRdiRbp(ps[0].off), StoreRdi(ps[0].w)]), v, ps[1..], i + 1)
  }

  function EmitPrologue(st: ES, v: Env, f: Func): (r: ES)
    ensures (st.fails ==> r == st) && |r.lab| >= |st.lab|
  {
    var s1 := Puts(st, v, [PushRbp, MovRbpRsp]);
    var s2 := if f.frame > 0 then Put1(s1, v, SubRsp(f.frame)) else s1;
    var s3 := Jump(Put1(FuelCheck(s2, v), v, CmpRspLimit), v, B, v.stack);
    EmitParams(s3, v, f.params, 0)
  }

  function Fresh(st: ES): (r: ES)
    ensures (st.fails ==> r == st) && |r.lab| >= |st.lab|
  {
    if st.fails then st else st.(depth := 0, brk := [], cont := [])
  }

  function EmitF(st: ES, v: Env, f: Func, entry: int): (r: ES)
    ensures (st.fails ==> r == st) && |r.lab| >= |st.lab|
  {
    var w := v.(epi := |st.lab|);
    var s1 := EmitPrologue(NewLabel(Fresh(Here(st, entry))), w, f);
    var s2 := Here(Put1(EmitS(s1, w, f.body, map[]), w, XorEax), w.epi);
    Puts(s2, w, [MovRspRbp, PopRbp, Ret])
  }

  function EmitFs(st: ES, v: Env, fs: seq<Func>, i: nat): (r: ES)
    ensures (st.fails ==> r == st) && |r.lab| >= |st.lab|
    decreases |fs| - i
  {
    if i >= |fs| || i >= |v.fn| then st else EmitFs(EmitF(st, v, fs[i], v.fn[i]), v, fs, i + 1)
  }

  function NewLabels(st: ES, n: nat): (r: ES)
    ensures (st.fails ==> r == st) && |r.lab| >= |st.lab|
    decreases n
  {
    if n == 0 then st else NewLabels(NewLabel(st), n - 1)
  }

  function EmitAbort(st: ES, v: Env, cause: int, here: int, done: int): (r: ES)
    ensures (st.fails ==> r == st) && |r.lab| >= |st.lab|
  {
    Jump(Puts(Here(st, here), v, [SetAborted(cause), XorEax]), v, Always, done)
  }

  function UnitEnv(fs: seq<Func>, cap: nat): Env {
    Env(cap, |fs|, |fs| + 1, seq(|fs|, i => i), -1)
  }

  /** The whole unit from an empty buffer: function labels first, then the two
      abort labels and the common exit. */
  function EmitUnit(fs: seq<Func>, entry: nat, cap: nat): ES
    requires entry < |fs|
  {
    var v, done := UnitEnv(fs, cap), |fs| + 2;
    var s0 := NewLabels(ES([], [], 0, 0, [], [], false), |fs| + 3);
    var s1 := Here(RelTo(Puts(s0, v, [SaveKrsp, LoadPrsp]), v, CallRel(0), entry), done);
    var s2 := EmitFs(Puts(s1, v, [LoadKrsp, Halt]), v, fs, 0);
    EmitAbort(EmitAbort(s2, v, 1, |fs|, done), v, 2, |fs| + 1, done)
  }
}
