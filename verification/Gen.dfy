// The code each construct compiles to, laid out as one block per tree.
//
// This is the emitter's output with every label already resolved: `at` is the
// index the block starts at, so a jump out of the block knows its distance.
// Emitter.dfy proves that appending, labelling and patching in place produces
// exactly this.

module Gen {
  import opened Basics
  import opened Words
  import opened CTree
  import opened X64

  /** Where the abort stubs and the functions lie. */
  datatype Links = Links(fuel: int, stack: int, fn: seq<int>)

  /** Where break, continue and return go. */
  datatype Exits = Exits(brk: int, cont: int, epi: int)

  function Far(cc: CC, target: int, at: int): Instr {
    J(cc, target - (at + 1))
  }

  function Norm(ty: Ty): seq<Instr> {
    if ty.Void? || ty.w == B8 then [] else [Ext(ty.w, ty.uns)]
  }

  function LoadCode(ty: Ty): seq<Instr> {
    if ty.Void? then [] else [LoadRax(ty.w, ty.uns)]
  }

  function BinCode(op: BinOp, ty: Ty): seq<Instr> {
    var wide := Wide(ty);
    var uns := ty.Int? && ty.uns;
    match op
    case Add => [AddRR(wide)]
    case Sub => [SubRR(wide)]
    case Mul => [MulRR(wide)]
    case Bit(b) => [BitRR(b, wide)]
    case Div => if uns then [XorEdx, DivRdi(wide)] else [SignRdx(wide), IDivRdi(wide)]
    case Mod =>
      (if uns then [XorEdx, DivRdi(wide)] else [SignRdx(wide), IDivRdi(wide)]) + [MovRaxRdx(wide)]
    case Shl => [MovRcxRdi, ShlCl(wide)]
    case Shr => [MovRcxRdi, if uns then ShrCl(wide) else SarCl(wide)]
  }

  function CmpCC(op: CmpOp, uns: bool): CC {
    match op
    case Eq => Z
    case Ne => NZ
    case Lt => if uns then B else L
    case Le => if uns then BE else LE
  }

  function CmpCode(op: CmpOp, ty: Ty): seq<Instr> {
    [CmpRR(Wide(ty)), SetCC(CmpCC(op, ty.Int? && ty.uns)), MovzxAl]
  }

  function Pops(n: nat): seq<Instr> {
    if n == 0 then [] else [Pop(ArgReg(n - 1))] + Pops(n - 1)
  }

  function Pad(d: nat, i: Instr): seq<Instr> {
    if d % 2 == 1 then [i] else []
  }

  function CallCode(callee: Callee, n: nat, at: int, k: Links): seq<Instr> {
    match callee
    case Unit(i) => [CallRel((if i < |k.fn| then k.fn[i] else 0) - (at + 1))]
    case Kernel(a) => [MovR11Imm(a), CallR11(n)]
  }

  /** From the evaluated arguments on the stack to the normalised result. */
  function Enter(callee: Callee, ty: Ty, n: nat, d: nat, at: int, k: Links): seq<Instr> {
    var c1 := Pops(n) + Pad(d, SubRsp(8)) + [DecFuel];
    var c2 := c1 + [Far(S, k.fuel, at + |c1|)];
    c2 + CallCode(callee, n, at + |c2|, k) + Pad(d, AddRsp(8)) + Norm(ty)
  }

  /** Code for the value of `e` with `d` words of this frame already pushed. */
  function GenE(e: Expr, d: nat, at: int, k: Links): seq<Instr>
    decreases e
  {
    match e
    case Num(_, v) => [MovRaxImm(Enc(v))]
    case Load(ty, lv) => GenL(lv, d, at, k) + LoadCode(ty)
    case Addr(lv) => GenL(lv, d, at, k)
    case Assign(ty, lv, rhs) =>
      var c1 := GenL(lv, d, at, k);
      var c2 := GenE(rhs, d + 1, at + |c1| + 1, k);
      c1 + [PushRax] + c2 + [Pop(Rdi), StoreRdi(if ty.Int? then ty.w else B8)]
    case Cast(ty, x) => GenE(x, d, at, k) + Norm(ty)
    case Bin(op, ty, l, r) =>
      var c1 := GenE(r, d, at, k);
      var c2 := GenE(l, d + 1, at + |c1| + 1, k);
      c1 + [PushRax] + c2 + [Pop(Rdi)] + BinCode(op, ty) + Norm(ty)
    case Cmp(op, l, r) =>
      var c1 := GenE(r, d, at, k);
      var c2 := GenE(l, d + 1, at + |c1| + 1, k);
      c1 + [PushRax] + c2 + [Pop(Rdi)] + CmpCode(op, ETy(l))
    case Not(x) => GenE(x, d, at, k) + [TestRax, SetCC(Z), MovzxAl]
    case BitNot(ty, x) => GenE(x, d, at, k) + [NotRax(Wide(ty))] + Norm(ty)
    case LogAnd(l, r) =>
      var c1 := GenE(l, d, at, k);
      var c2 := GenE(r, d, at + |c1| + 2, k);
      c1 + [TestRax, J(Z, |c2| + 4)] + c2 + [TestRax, J(Z, 2), MovEaxImm(1), J(Always, 1), XorEax]
    case LogOr(l, r) =>
      var c1 := GenE(l, d, at, k);
      var c2 := GenE(r, d, at + |c1| + 2, k);
      c1 + [TestRax, J(NZ, |c2| + 4)] + c2 + [TestRax, J(NZ, 2), XorEax, J(Always, 1), MovEaxImm(1)]
    case Cond(_, c, t, f) =>
      var c1 := GenE(c, d, at, k);
      var c2 := GenE(t, d, at + |c1| + 2, k);
      var c3 := GenE(f, d, at + |c1| + |c2| + 3, k);
      c1 + [TestRax, J(Z, |c2| + 1)] + c2 + [J(Always, |c3|)] + c3
    case Comma(l, r) =>
      var c1 := GenE(l, d, at, k);
      c1 + GenE(r, d, at + |c1|, k)
    case Call(callee, ty, args) =>
      var c1 := GenA(args, d, at, k);
      c1 + Enter(callee, ty, Count(args), d, at + |c1|, k)
  }

  function GenL(lv: LVal, d: nat, at: int, k: Links): seq<Instr>
    decreases lv
  {
    match lv
    case Local(off) => [LeaRaxRbp(off)]
    case Global(a) => [MovRaxImm(Enc(a))]
    case Deref(e) => GenE(e, d, at, k)
    case Member(x, off) => GenL(x, d, at, k) + (if off == 0 then [] else [AddRaxImm(off)])
    case CommaL(e, x) =>
      var c1 := GenE(e, d, at, k);
      c1 + GenL(x, d, at + |c1|, k)
  }

  function GenA(args: Args, d: nat, at: int, k: Links): seq<Instr>
    decreases args
  {
    match args
    case NoArgs => []
    case Arg(e, rest) =>
      var c1 := GenE(e, d, at, k);
      c1 + [PushRax] + GenA(rest, d + 1, at + |c1| + 1, k)
  }

  // ---- statements --------------------------------------------------------

  /** Zero `size` bytes at rax: unrolled up to 64 bytes, a counted byte loop
      beyond. */
  function ZeroCode(size: nat): seq<Instr> {
    if size <= 64 then ZeroChunks(0, size)
    else [MovRcxImm(Enc(size)), ZeroAt(0, 1), IncRax, DecRcx, J(NZ, -4)]
  }

  function Chunk(rem: nat): nat {
    if rem >= 8 then 8 else if rem >= 4 then 4 else if rem >= 2 then 2 else 1
  }

  function ZeroChunks(k: nat, size: nat): seq<Instr>
    decreases size - k
  {
    if k >= size then [] else [ZeroAt(k, Chunk(size - k))] + ZeroChunks(k + Chunk(size - k), size)
  }

  function SizeE(e: Expr, d: nat): nat { |GenE(e, d, 0, Links(0, 0, []))| }

  function SizeO(c: Option<Expr>): nat { if c.Some? then SizeE(c.value, 0) else 0 }

  function SizeTest(c: Option<Expr>, when: bool): nat {
    if when && c.Some? then SizeE(c.value, 0) + 2 else 0
  }

  function SizeS(s: Stmt): nat {
    match s
    case Nop => 0
    case Seq(a, b) => SizeS(a) + SizeS(b)
    case Eval(e) => SizeE(e, 0)
    case MemZero(_, n) => 1 + |ZeroCode(n)|
    case Return(r) => SizeO(r) + 1
    case If(c, t, f) => SizeE(c, 0) + 2 + SizeS(t) + (if f.Some? then 1 + SizeS(f.value) else 0)
    case Loop(c, first, p, b) =>
      SizeTest(c, first) + SizeS(b) + SizeO(p) + SizeTest(c, !first) + 3
    case Break => 1
    case Continue => 1
    case Case(_, b) => SizeS(b)
    case Switch(c, keys, _, b) => SizeE(c, 0) + 3 * |keys| + 1 + SizeS(b)
  }

  /** How far into a statement's code a case label lies. */
  function CaseOff(s: Stmt, key: Key): nat {
    match s
    case Seq(a, b) => if HasCase(a, key) then CaseOff(a, key) else SizeS(a) + CaseOff(b, key)
    case If(c, t, f) =>
      if HasCase(t, key) || f.None? then SizeE(c, 0) + 2 + CaseOff(t, key)
      else SizeE(c, 0) + 2 + SizeS(t) + 1 + CaseOff(f.value, key)
    case Loop(c, first, _, b) => SizeTest(c, first) + CaseOff(b, key)
    case Case(k, b) => if k == key then 0 else CaseOff(b, key)
    case _ => 0
  }

  function GenO(c: Option<Expr>, at: int, k: Links): seq<Instr> {
    if c.Some? then GenE(c.value, 0, at, k) else []
  }

  function GenTest(c: Option<Expr>, when: bool, lend: int, at: int, k: Links): seq<Instr> {
    if when && c.Some? then
      var c1 := GenE(c.value, 0, at, k);
      c1 + [TestRax, Far(Z, lend, at + |c1| + 1)]
    else []
  }

  /** The compare chain; the body, and so every label, starts at `body`. */
  function Chain(keys: seq<int>, b: Stmt, body: int, at: int): seq<Instr> {
    if keys == [] then []
    else
      [MovR11Imm(Enc(keys[0])), CmpRaxR11, Far(Z, body + CaseOff(b, CaseOf(keys[0])), at + 2)]
      + Chain(keys[1..], b, body, at + 3)
  }

  function GenS(s: Stmt, at: int, k: Links, x: Exits): seq<Instr>
    decreases s
  {
    match s
    case Nop => []
    case Seq(a, b) => GenS(a, at, k, x) + GenS(b, at + SizeS(a), k, x)
    case Eval(e) => GenE(e, 0, at, k)
    case MemZero(off, n) => [LeaRaxRbp(off)] + ZeroCode(n)
    case Return(r) => GenO(r, at, k) + [Far(Always, x.epi, at + SizeO(r))]
    case If(c, t, f) =>
      var a1 := at + SizeE(c, 0) + 2;
      if f.None? then GenE(c, 0, at, k) + [TestRax, J(Z, SizeS(t))] + GenS(t, a1, k, x)
      else
        GenE(c, 0, at, k) + [TestRax, J(Z, SizeS(t) + 1)] + GenS(t, a1, k, x)
        + [J(Always, SizeS(f.value))] + GenS(f.value, a1 + SizeS(t) + 1, k, x)
    case Loop(c, first, p, b) =>
      var lend := at + SizeS(s);
      var a1 := at + SizeTest(c, first);
      var lcont := a1 + SizeS(b);
      var a2 := lcont + SizeO(p);
      var a3 := a2 + SizeTest(c, !first);
      GenTest(c, first, lend, at, k) + GenS(b, a1, k, Exits(lend, lcont, x.epi))
      + GenO(p, lcont, k) + GenTest(c, !first, lend, a2, k)
      + [DecFuel, Far(S, k.fuel, a3 + 1), Far(Always, at, a3 + 2)]
    case Break => [Far(Always, x.brk, at)]
    case Continue => [Far(Always, x.cont, at)]
    case Case(_, b) => GenS(b, at, k, x)
    case Switch(c, keys, dflt, b) =>
      var a1 := at + SizeE(c, 0);
      var a2 := a1 + 3 * |keys|;
      var lend := a2 + 1 + SizeS(b);
      GenE(c, 0, at, k) + Chain(keys, b, a2 + 1, a1)
      + [Far(Always, if dflt then a2 + 1 + CaseOff(b, Default) else lend, a2)]
      + GenS(b, a2 + 1, k, Exits(lend, x.cont, x.epi))
  }

  // ---- functions and the unit --------------------------------------------

  function ParamCode(ps: seq<Param>, i: nat): seq<Instr>
    decreases |ps|
  {
    if ps == [] then []
    else [MovRaxArg(ArgReg(i)), LeaRdiRbp(ps[0].off), StoreRdi(ps[0].w)] + ParamCode(ps[1..], i + 1)
  }

  function Prologue(f: Func, at: int, k: Links): seq<Instr> {
    var c1 := [PushRbp, MovRbpRsp] + (if f.frame > 0 then [SubRsp(f.frame)] else []) + [DecFuel];
    var c2 := c1 + [Far(S, k.fuel, at + |c1|), CmpRspLimit];
    c2 + [Far(B, k.stack, at + |c2|)] + ParamCode(f.params, 0)
  }

  function SizeF(f: Func): nat {
    |Prologue(f, 0, Links(0, 0, []))| + SizeS(f.body) + 4
  }

  function GenF(f: Func, at: int, k: Links): seq<Instr> {
    var c1 := Prologue(f, at, k);
    var epi := at + |c1| + SizeS(f.body) + 1;
    c1 + GenS(f.body, at + |c1|, k, Exits(0, 0, epi)) + [XorEax, MovRspRbp, PopRbp, Ret]
  }

  function GenFs(fs: seq<Func>, at: int, k: Links): seq<Instr>
    decreases |fs|
  {
    if fs == [] then [] else GenF(fs[0], at, k) + GenFs(fs[1..], at + SizeF(fs[0]), k)
  }

  /** Entry points of the functions when the first starts at `at`. */
  function Places(fs: seq<Func>, at: int): (r: seq<int>)
    ensures |r| == |fs|
    decreases |fs|
  {
    if fs == [] then [] else [at] + Places(fs[1..], at + SizeF(fs[0]))
  }

  function SizeFs(fs: seq<Func>): nat
    decreases |fs|
  {
    if fs == [] then 0 else SizeF(fs[0]) + SizeFs(fs[1..])
  }

  /** The trampoline is 5 instructions; its second half is where aborts land. */
  const LDONE: int := 3

  function Layout(fs: seq<Func>): Links {
    Links(5 + SizeFs(fs), 5 + SizeFs(fs) + 3, Places(fs, 5))
  }

  /** The whole image: trampoline, functions, abort stubs. */
  function GenUnit(fs: seq<Func>, entry: nat): seq<Instr> {
    var k := Layout(fs);
    [SaveKrsp, LoadPrsp, CallRel((if entry < |fs| then k.fn[entry] else 0) - LDONE), LoadKrsp, Halt]
    + GenFs(fs, 5, k)
    + [SetAborted(1), XorEax, Far(Always, LDONE, k.fuel + 2)]
    + [SetAborted(2), XorEax, Far(Always, LDONE, k.stack + 2)]
  }
}
