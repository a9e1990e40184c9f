// The typed tree the parser hands to the code generator, and what it means.
//
// The meaning is the C meaning over mathematical integers, made total by the
// two budgets a compiled program really has: fuel, spent at every loop
// back-edge and call, and its own stack. Where C leaves an order open the
// meaning fixes the one the generator documents: right operand first.

module CTree {
  import opened Basics
  import opened Words

  /** A pointer is Int(B8, true); `Void` is the type of a value nobody reads. */
  datatype Ty = Void | Int(w: Width, uns: bool)

  const PTR: Ty := Int(B8, true)
  const INT: Ty := Int(B4, false)
  const LONG: Ty := Int(B8, false)

  datatype BinOp = Add | Sub | Mul | Div | Mod | Bit(b: BitOp) | Shl | Shr
  datatype CmpOp = Eq | Ne | Lt | Le

  datatype Callee = Unit(index: nat) | Kernel(addr: Word)

  datatype Expr =
    | Num(ty: Ty, val: int)
    | Load(ty: Ty, lv: LVal)
    | Addr(lv: LVal)
    | Assign(ty: Ty, lv: LVal, rhs: Expr)
    | Cast(ty: Ty, e: Expr)
    | Bin(op: BinOp, ty: Ty, l: Expr, r: Expr)
    | Cmp(cmp: CmpOp, l: Expr, r: Expr)
    | Not(e: Expr)
    | BitNot(ty: Ty, e: Expr)
    | LogAnd(l: Expr, r: Expr)
    | LogOr(l: Expr, r: Expr)
    | Cond(ty: Ty, c: Expr, t: Expr, f: Expr)
    | Comma(l: Expr, r: Expr)
    | Call(callee: Callee, ty: Ty, args: Args)

  datatype LVal =
    | Local(off: int)
    | Global(a: int)
    | Deref(e: Expr)
    | Member(lv: LVal, moff: int)
    | CommaL(e: Expr, lv: LVal)

  datatype Args = NoArgs | Arg(e: Expr, rest: Args)

  /** The label of a `case`, already converted to the switch's type; or one the
      switch never found when it went through its body. */
  datatype Key = CaseOf(v: int) | Default | Buried

  datatype Stmt =
    | Nop
    | Seq(s1: Stmt, s2: Stmt)
    | Eval(e: Expr)
    | MemZero(off: int, size: nat)
    | Return(ret: Option<Expr>)
    | If(c: Expr, t: Stmt, f: Option<Stmt>)
    | Loop(cond: Option<Expr>, testFirst: bool, post: Option<Expr>, body: Stmt)
    | Break
    | Continue
    | Case(key: Key, body: Stmt)
    | Switch(c: Expr, keys: seq<int>, dflt: bool, body: Stmt)

  datatype Param = Param(w: Width, off: int)
  datatype Func = Func(params: seq<Param>, frame: nat, ret: Ty, body: Stmt)

  /** The registers a called function need not preserve, besides rax. */
  datatype Regs = Regs(rdi: Word, rsi: Word, rdx: Word, rcx: Word, r8: Word, r9: Word, r11: Word)

  /** What a kernel function gives back: its result, memory as it left it, and
      whatever it left in the registers. */
  datatype Answer = Answer(v: Word, mem: Mem, r: Regs)

  /** The rest of the machine a unit runs in. `kern` is the curated kernel table:
      entry, arguments, memory, and the fuel left, which is different at every call
      of a run, so that the kernel may answer each call as its own state has it.
      Bytes in [lo, hi) are fenced off: a program access to them is Wild. */
  datatype World = World(
    funcs: seq<Func>,
    kern: (Word, seq<Word>, Mem, int) -> Answer,
    limit: int,
    lo: int,
    hi: int)

  /** What running something ends in. `Trap` is a divide error or a memory
      fault, `NoFuel`/`NoStack` the two aborts, `Wild` a fenced access or a
      tree no parser builds. */
  datatype Out<T> =
    | Ok(v: T, mem: Mem, fuel: nat)
    | Trap
    | NoFuel(mem: Mem)
    | NoStack(mem: Mem, fuel: nat)
    | Wild
  {
    function Fail<U>(): (r: Out<U>)
      requires !Ok?
      ensures !r.Ok?
    {
      match this
      case Trap => Trap
      case NoFuel(m) => NoFuel(m)
      case NoStack(m, f) => NoStack(m, f)
      case Wild => Wild
    }
  }

  // ---- types -----------------------------------------------------------

  function ETy(e: Expr): Ty {
    match e
    case Num(ty, _) => ty
    case Load(ty, _) => ty
    case Addr(_) => PTR
    case Assign(ty, _, _) => ty
    case Cast(ty, _) => ty
    case Bin(_, ty, _, _) => ty
    case Cmp(_, _, _) => INT
    case Not(_) => INT
    case BitNot(ty, _) => ty
    case LogAnd(_, _) => INT
    case LogOr(_, _) => INT
    case Cond(ty, _, _, _) => ty
    case Comma(_, r) => ETy(r)
    case Call(_, ty, _) => ty
  }

  /** What the parser guarantees of the trees it builds. */
  predicate WellTyped(w: World, e: Expr) {
    match e
    case Num(ty, v) => ty.Int? && Fits(v, ty.w, ty.uns)
    case Load(ty, lv) => ty.Int? && WellTypedL(w, lv)
    case Addr(lv) => WellTypedL(w, lv)
    case Assign(ty, lv, r) =>
      ty.Int? && WellTypedL(w, lv) && WellTyped(w, r) && ETy(r) == ty
    case Cast(ty, x) => WellTyped(w, x) && (ty.Int? ==> ETy(x).Int?)
    case Bin(op, ty, l, r) =>
      && ty.Int? && WellTyped(w, l) && WellTyped(w, r) && ETy(l).Int? && ETy(r).Int?
      && (op.Div? || op.Mod? ==> ETy(l) == ty && ETy(r) == ty)
      && (op.Shr? ==> ETy(l) == ty)
    case Cmp(_, l, r) => WellTyped(w, l) && WellTyped(w, r) && ETy(l) == ETy(r) && ETy(l).Int?
    case Not(x) => WellTyped(w, x) && ETy(x).Int?
    case BitNot(ty, x) => WellTyped(w, x) && ETy(x).Int? && ty.Int?
    case LogAnd(l, r) => WellTyped(w, l) && WellTyped(w, r) && ETy(l).Int? && ETy(r).Int?
    case LogOr(l, r) => WellTyped(w, l) && WellTyped(w, r) && ETy(l).Int? && ETy(r).Int?
    case Cond(ty, c, t, f) =>
      && WellTyped(w, c) && ETy(c).Int? && WellTyped(w, t) && WellTyped(w, f)
      && (ty.Int? ==> ETy(t) == ty && ETy(f) == ty)
    case Comma(l, r) => WellTyped(w, l) && WellTyped(w, r)
    case Call(callee, ty, args) =>
      && WellTypedA(w, args) && Count(args) <= 6
      && (callee.Unit? ==> callee.index < |w.funcs|
                           && |w.funcs[callee.index].params| == Count(args)
                           && (ty.Int? ==> w.funcs[callee.index].ret.Int?))
  }

  predicate WellTypedL(w: World, lv: LVal) {
    match lv
    case Local(_) => true
    case Global(_) => true
    case Deref(e) => WellTyped(w, e) && ETy(e) == PTR
    case Member(x, _) => WellTypedL(w, x)
    case CommaL(e, x) => WellTyped(w, e) && WellTypedL(w, x)
  }

  predicate WellTypedA(w: World, args: Args) {
    args.Arg? ==> WellTyped(w, args.e) && ETy(args.e).Int? && WellTypedA(w, args.rest)
  }

  function Count(args: Args): nat {
    if args.NoArgs? then 0 else 1 + Count(args.rest)
  }

  /** Case labels of a switch body; a nested switch owns its own. */
  function Cases(s: Stmt): set<Key> {
    match s
    case Seq(a, b) => Cases(a) + Cases(b)
    case If(_, t, f) => Cases(t) + (if f.Some? then Cases(f.value) else {})
    case Loop(_, _, _, b) => Cases(b)
    case Case(k, b) => {k} + Cases(b)
    case _ => {}
  }

  predicate HasCase(s: Stmt, k: Key) { k in Cases(s) }

  /** No label occurs twice (the parser refuses duplicates). */
  predicate DistinctCases(s: Stmt) {
    match s
    case Seq(a, b) => DistinctCases(a) && DistinctCases(b) && Cases(a) !! Cases(b)
    case If(_, t, f) =>
      && DistinctCases(t)
      && (f.Some? ==> DistinctCases(f.value) && Cases(t) !! Cases(f.value))
    case Loop(_, _, _, b) => DistinctCases(b)
    case Case(k, b) => DistinctCases(b) && k !in Cases(b)
    case _ => true
  }

  /** `ret` is the enclosing function's return type; `brk`/`cont` say whether a
      break or a continue has something to leave. */
  predicate WellFormed(w: World, s: Stmt, ret: Ty, brk: bool, cont: bool) {
    match s
    case Nop => true
    case Seq(a, b) => WellFormed(w, a, ret, brk, cont) && WellFormed(w, b, ret, brk, cont)
    case Eval(e) => WellTyped(w, e)
    case MemZero(_, n) => n < 0x8000_0000
    case Return(r) =>
      if r.Some? then WellTyped(w, r.value) && ETy(r.value) == ret else ret == Void
    case If(c, t, f) =>
      && WellTyped(w, c) && ETy(c).Int? && WellFormed(w, t, ret, brk, cont)
      && (f.Some? ==> WellFormed(w, f.value, ret, brk, cont))
    case Loop(c, _, p, b) =>
      && (c.Some? ==> WellTyped(w, c.value) && ETy(c.value).Int?)
      && (p.Some? ==> WellTyped(w, p.value))
      && WellFormed(w, b, ret, true, true)
    case Break => brk
    case Continue => cont
    case Case(_, b) => WellFormed(w, b, ret, brk, cont)
    case Switch(c, keys, dflt, b) =>
      && WellTyped(w, c) && ETy(c).Int?
      && WellFormed(w, b, ret, true, cont) && DistinctCases(b)
      && (forall i, j :: 0 <= i < j < |keys| ==> keys[i] != keys[j])
      && (forall v :: v in keys ==> HasCase(b, CaseOf(v)) && Fits(v, ETy(c).w, ETy(c).uns))
      && (forall k :: k in Cases(b) && k.CaseOf? ==> k.v in keys)
      && (dflt <==> HasCase(b, Default)) && !HasCase(b, Buried)
  }

  predicate WellFormedFunc(w: World, f: Func) {
    && f.frame % 16 == 0
    && |f.params| <= 6
    && WellFormed(w, f.body, f.ret, false, false)
    && Cases(f.body) == {}
  }

  predicate WellFormedUnit(w: World) {
    forall i :: 0 <= i < |w.funcs| ==> WellFormedFunc(w, w.funcs[i])
  }

  // ---- operators ---------------------------------------------------------

  function Wide(ty: Ty): bool { ty.Int? && ty.w == B8 }

  predicate BinTraps(op: BinOp, ty: Ty, x: int, y: int)
    requires ty.Int?
  {
    (op.Div? || op.Mod?) &&
    (y == 0 || (!ty.uns && !(-(OpMod(Wide(ty)) / 2) <= TDiv(x, y) < OpMod(Wide(ty)) / 2)))
  }

  /** C11 sections 6.5.5 to 6.5.12, with the result converted to `ty`. A shift
      count is taken modulo the width of the operation, which is what C leaves
      undefined and the processor defines. */
  function BinVal(op: BinOp, ty: Ty, x: int, y: int): int
    requires ty.Int? && !BinTraps(op, ty, x, y)
  {
    var m := OpMod(Wide(ty));
    var n := OpBits(Wide(ty));
    var exact := match op
      case Add => x + y
      case Sub => x - y
      case Mul => x * y
      case Div => TDiv(x, y)
      case Mod => TMod(x, y)
      case Bit(b) => Bitwise(b, x % m, y % m, n)
      case Shl => x * Pow2(y % n)
      case Shr => x / Pow2(y % n);
    Conv(exact, ty.w, ty.uns)
  }

  function CmpVal(op: CmpOp, x: int, y: int): int {
    var b := match op
      case Eq => x == y
      case Ne => x != y
      case Lt => x < y
      case Le => x <= y;
    if b then 1 else 0
  }

  function Truth(v: int): int { if v != 0 then 1 else 0 }

  /** `v` converted to `ty`; a void value is left alone. */
  function As(v: int, ty: Ty): int {
    if ty.Int? then Conv(v, ty.w, ty.uns) else v
  }

  // ---- memory accesses ---------------------------------------------------

  predicate Fenced(w: World, a: int, n: int) {
    a < w.hi && w.lo < a + n && w.lo < w.hi && 0 < n
  }

  function Get(w: World, a: int, ty: Ty, mem: Mem, fuel: nat): (r: Out<int>)
    requires 0 <= a
    ensures r.Ok? ==> r.fuel == fuel
  {
    if ty.Void? then Wild else
    var n := ty.w.Bytes();
    if a + n > |mem| then Trap
    else if Fenced(w, a, n) then Wild
    else Ok(Conv(LoadLE(mem, a, n), ty.w, ty.uns), mem, fuel)
  }

  function Put(w: World, a: int, ty: Ty, v: int, mem: Mem, fuel: nat): (r: Out<int>)
    requires 0 <= a
    ensures r.Ok? ==> r.fuel == fuel
  {
    if ty.Void? then Wild else
    var n := ty.w.Bytes();
    if a + n > |mem| then Trap
    else if Fenced(w, a, n) then Wild
    else Ok(v, StoreLE(mem, a, v, n), fuel)
  }

  function ZeroFill(mem: Mem, a: nat, n: nat): (r: Mem)
    requires a + n <= |mem|
    ensures |r| == |mem|
    decreases n
  {
    if n == 0 then mem else ZeroFill(mem[a := 0], a + 1, n - 1)
  }

  /** Incoming arguments into their frame slots. */
  function PutParams(w: World, ps: seq<Param>, vs: seq<int>, fp: int, mem: Mem, fuel: nat): (r: Out<int>)
    ensures r.Ok? ==> r.fuel == fuel
    decreases |ps|
  {
    if ps == [] || vs == [] then Ok(0, mem, fuel)
    else
      var p := Put(w, Enc(fp + ps[0].off), Int(ps[0].w, true), vs[0], mem, fuel);
      if !p.Ok? then p else PutParams(w, ps[1..], vs[1..], fp, p.mem, fuel)
  }

  // ---- the meaning -------------------------------------------------------
  // Total functions: a tree the parser never builds simply means Wild.

  /** The value of `e` in the frame at `fp`, with `sp` the lowest stack byte in
      use: it says where a callee's frame will lie, and nothing else. */
  function EvalE(w: World, e: Expr, fp: int, sp: int, mem: Mem, fuel: nat): (r: Out<int>)
    ensures r.Ok? ==> r.fuel <= fuel
    decreases fuel, e, 0
  {
    match e
    case Num(_, v) => Ok(v, mem, fuel)
    case Load(ty, lv) =>
      var a := EvalL(w, lv, fp, sp, mem, fuel);
      if !a.Ok? then a else Get(w, a.v, ty, a.mem, a.fuel)
    case Addr(lv) => EvalL(w, lv, fp, sp, mem, fuel)
    case Assign(ty, lv, rhs) =>
      var a := EvalL(w, lv, fp, sp, mem, fuel);
      if !a.Ok? then a else
      var v := EvalE(w, rhs, fp, sp - 8, a.mem, a.fuel);
      if !v.Ok? then v else Put(w, a.v, ty, v.v, v.mem, v.fuel)
    case Cast(ty, x) =>
      var v := EvalE(w, x, fp, sp, mem, fuel);
      if !v.Ok? then v else Ok(As(v.v, ty), v.mem, v.fuel)
    case Bin(op, ty, l, rr) =>
      var y := EvalE(w, rr, fp, sp, mem, fuel);
      if !y.Ok? then y else
      var x := EvalE(w, l, fp, sp - 8, y.mem, y.fuel);
      if !x.Ok? then x
      else if ty.Void? then Wild
      else if BinTraps(op, ty, x.v, y.v) then Trap
      else Ok(BinVal(op, ty, x.v, y.v), x.mem, x.fuel)
    case Cmp(op, l, rr) =>
      var y := EvalE(w, rr, fp, sp, mem, fuel);
      if !y.Ok? then y else
      var x := EvalE(w, l, fp, sp - 8, y.mem, y.fuel);
      if !x.Ok? then x else Ok(CmpVal(op, x.v, y.v), x.mem, x.fuel)
    case Not(x) =>
      var v := EvalE(w, x, fp, sp, mem, fuel);
      if !v.Ok? then v else Ok(1 - Truth(v.v), v.mem, v.fuel)
    case BitNot(ty, x) =>
      var v := EvalE(w, x, fp, sp, mem, fuel);
      if !v.Ok? then v else Ok(As(-v.v - 1, ty), v.mem, v.fuel)
    case LogAnd(l, rr) =>
      var x := EvalE(w, l, fp, sp, mem, fuel);
      if !x.Ok? || x.v == 0 then x else
      var y := EvalE(w, rr, fp, sp, x.mem, x.fuel);
      if !y.Ok? then y else Ok(Truth(y.v), y.mem, y.fuel)
    case LogOr(l, rr) =>
      var x := EvalE(w, l, fp, sp, mem, fuel);
      if !x.Ok? then x else if x.v != 0 then Ok(1, x.mem, x.fuel) else
      var y := EvalE(w, rr, fp, sp, x.mem, x.fuel);
      if !y.Ok? then y else Ok(Truth(y.v), y.mem, y.fuel)
    case Cond(_, c, t, f) =>
      var b := EvalE(w, c, fp, sp, mem, fuel);
      if !b.Ok? then b
      else if b.v != 0 then EvalE(w, t, fp, sp, b.mem, b.fuel)
      else EvalE(w, f, fp, sp, b.mem, b.fuel)
    case Comma(l, rr) =>
      var x := EvalE(w, l, fp, sp, mem, fuel);
      if !x.Ok? then x else EvalE(w, rr, fp, sp, x.mem, x.fuel)
    case Call(callee, ty, args) =>
      var a := EvalA(w, args, fp, sp, mem, fuel);
      if !a.Ok? then a.Fail()
      else if a.fuel == 0 then NoFuel(a.mem)
      else
        var v := Invoke(w, callee, a.v, sp - sp % 16, a.mem, a.fuel - 1);
        if !v.Ok? then v else Ok(As(v.v, ty), v.mem, v.fuel)
  }

  /** The address `lv` designates. */
  function EvalL(w: World, lv: LVal, fp: int, sp: int, mem: Mem, fuel: nat): (r: Out<int>)
    ensures r.Ok? ==> r.fuel <= fuel && 0 <= r.v < 0x1_0000_0000_0000_0000
    decreases fuel, lv, 0
  {
    match lv
    case Local(off) => Ok(Enc(fp + off), mem, fuel)
    case Global(a) => Ok(Enc(a), mem, fuel)
    case Deref(e) =>
      var v := EvalE(w, e, fp, sp, mem, fuel);
      if !v.Ok? then v else Ok(Enc(v.v), v.mem, v.fuel)
    case Member(x, off) =>
      var a := EvalL(w, x, fp, sp, mem, fuel);
      if !a.Ok? then a else Ok(Enc(a.v + off), a.mem, a.fuel)
    case CommaL(e, x) =>
      var v := EvalE(w, e, fp, sp, mem, fuel);
      if !v.Ok? then v else EvalL(w, x, fp, sp, v.mem, v.fuel)
  }

  /** Arguments, left to right; each one waits on the stack for the next. */
  function EvalA(w: World, args: Args, fp: int, sp: int, mem: Mem, fuel: nat): (r: Out<seq<int>>)
    ensures r.Ok? ==> r.fuel <= fuel && |r.v| == Count(args)
    decreases fuel, args, 0
  {
    match args
    case NoArgs => Ok([], mem, fuel)
    case Arg(e, rest) =>
      var v := EvalE(w, e, fp, sp, mem, fuel);
      if !v.Ok? then v.Fail() else
      var vs := EvalA(w, rest, fp, sp - 8, v.mem, v.fuel);
      if !vs.Ok? then vs else Ok([v.v] + vs.v, vs.mem, vs.fuel)
  }

  function Encs(vs: seq<int>): seq<Word> {
    seq(|vs|, i requires 0 <= i < |vs| => Enc(vs[i]))
  }

  /** A call, with `top` the 16-aligned stack pointer at the call instruction. */
  function Invoke(w: World, callee: Callee, vs: seq<int>, top: int, mem: Mem, fuel: nat): (r: Out<int>)
    ensures r.Ok? ==> r.fuel <= fuel
    decreases fuel, 1
  {
    match callee
    case Kernel(addr) =>
      var k := w.kern(addr, Encs(vs), mem, fuel);
      Ok(k.v, k.mem, fuel)
    case Unit(i) =>
      if i >= |w.funcs| then Wild else RunFunc(w, w.funcs[i], vs, top, mem, fuel)
  }

  /** The callee's prologue and body. It pays its own fuel, then must fit the
      stack; falling off its end returns 0. */
  function RunFunc(w: World, f: Func, vs: seq<int>, top: int, mem: Mem, fuel: nat): (r: Out<int>)
    ensures r.Ok? ==> r.fuel <= fuel
    decreases fuel, 0
  {
    var fp := top - 16;
    if fuel == 0 then NoFuel(mem)
    else if fp - f.frame < w.limit then NoStack(mem, fuel - 1)
    else
      var p := PutParams(w, f.params, vs, fp, mem, fuel - 1);
      if !p.Ok? then p else
      var b := Exec(w, f.body, None, fp, fp - f.frame, p.mem, fuel - 1);
      match b
      case Ok(Gone(v), m, n) => Ok(v, m, n)
      case Ok(Next, m, n) => Ok(0, m, n)
      case Ok(_, _, _) => Wild
      case _ => b.Fail()
  }

  /** How a statement is left. */
  datatype Flow = Next | Brk | Cont | Gone(v: int)

  /** Running `s` from its start, or from the case label `k` inside it. */
  function Exec(w: World, s: Stmt, k: Option<Key>, fp: int, sp: int, mem: Mem, fuel: nat): (r: Out<Flow>)
    ensures r.Ok? ==> r.fuel <= fuel
    decreases fuel, s, 1
  {
    match s
    case Nop => Ok(Next, mem, fuel)
    case Seq(a, b) =>
      if k.Some? && !HasCase(a, k.value) then Exec(w, b, k, fp, sp, mem, fuel)
      else
        var x := Exec(w, a, k, fp, sp, mem, fuel);
        if x.Ok? && x.v.Next? then Exec(w, b, None, fp, sp, x.mem, x.fuel) else x
    case Eval(e) =>
      var v := EvalE(w, e, fp, sp, mem, fuel);
      if !v.Ok? then v.Fail() else Ok(Next, v.mem, v.fuel)
    case MemZero(off, size) =>
      var a := Enc(fp + off);
      if size == 0 then Ok(Next, mem, fuel)
      else if a + size > |mem| then Trap
      else if Fenced(w, a, size) then Wild
      else Ok(Next, ZeroFill(mem, a, size), fuel)
    case Return(r) =>
      if r.None? then Ok(Gone(0), mem, fuel) else
      var v := EvalE(w, r.value, fp, sp, mem, fuel);
      if !v.Ok? then v.Fail() else Ok(Gone(v.v), v.mem, v.fuel)
    case If(c, t, f) =>
      if k.Some? then
        if HasCase(t, k.value) then Exec(w, t, k, fp, sp, mem, fuel)
        else if f.Some? then Exec(w, f.value, k, fp, sp, mem, fuel)
        else Wild
      else
        var b := EvalE(w, c, fp, sp, mem, fuel);
        if !b.Ok? then b.Fail()
        else if b.v != 0 then Exec(w, t, None, fp, sp, b.mem, b.fuel)
        else if f.Some? then Exec(w, f.value, None, fp, sp, b.mem, b.fuel)
        else Ok(Next, b.mem, b.fuel)
    case Loop(_, _, _, _) => Iterate(w, s, k, fp, sp, mem, fuel)
    case Break => Ok(Brk, mem, fuel)
    case Continue => Ok(Cont, mem, fuel)
    case Case(key, b) =>
      Exec(w, b, if k == Some(key) then None else k, fp, sp, mem, fuel)
    case Switch(c, keys, dflt, b) =>
      var v := EvalE(w, c, fp, sp, mem, fuel);
      if !v.Ok? then v.Fail()
      else if v.v !in keys && !dflt then Ok(Next, v.mem, v.fuel)
      else
        var key := if v.v in keys then CaseOf(v.v) else Default;
        var x := Exec(w, b, Some(key), fp, sp, v.mem, v.fuel);
        if x.Ok? && x.v.Brk? then Ok(Next, x.mem, x.fuel) else x
  }

  /** An optional expression; an absent one counts as true. */
  function EvalO(w: World, c: Option<Expr>, fp: int, sp: int, mem: Mem, fuel: nat): (r: Out<int>)
    ensures r.Ok? ==> r.fuel <= fuel
    decreases fuel, c, 0
  {
    if c.Some? then EvalE(w, c.value, fp, sp, mem, fuel) else Ok(1, mem, fuel)
  }

  /** The loop from its top (or from label `k`), paying one fuel per back-edge. */
  function Iterate(w: World, s: Stmt, k: Option<Key>, fp: int, sp: int, mem: Mem, fuel: nat): (r: Out<Flow>)
    requires s.Loop?
    ensures r.Ok? ==> r.fuel <= fuel
    decreases fuel, s, 0
  {
    var t := if s.testFirst && k.None? then EvalO(w, s.cond, fp, sp, mem, fuel) else Ok(1, mem, fuel);
    if !t.Ok? then t.Fail() else if t.v == 0 then Ok(Next, t.mem, t.fuel) else
    var b := Exec(w, s.body, k, fp, sp, t.mem, t.fuel);
    if !b.Ok? || b.v.Gone? then b else if b.v.Brk? then Ok(Next, b.mem, b.fuel)
    else Tail(w, s, fp, sp, b.mem, b.fuel)
  }

  /** From the `continue` point: the post expression, a trailing test, the
      back-edge. */
  function Tail(w: World, s: Stmt, fp: int, sp: int, mem: Mem, fuel: nat): (r: Out<Flow>)
    requires s.Loop?
    ensures r.Ok? ==> r.fuel <= fuel
    decreases fuel, s, 0, 0
  {
    var p := EvalO(w, s.post, fp, sp, mem, fuel);
    if !p.Ok? then p.Fail() else
    var u := if s.testFirst then Ok(1, p.mem, p.fuel) else EvalO(w, s.cond, fp, sp, p.mem, p.fuel);
    if !u.Ok? then u.Fail() else if u.v == 0 then Ok(Next, u.mem, u.fuel)
    else if u.fuel == 0 then NoFuel(u.mem)
    else Iterate(w, s, None, fp, sp, u.mem, u.fuel - 1)
  }

  lemma AsFits(v: int, ty: Ty)
    requires ty.Int?
    ensures Fits(As(v, ty), ty.w, ty.uns)
  {
  }

  lemma BinFits(op: BinOp, ty: Ty, x: int, y: int)
    requires ty.Int? && !BinTraps(op, ty, x, y)
    ensures Fits(BinVal(op, ty, x, y), ty.w, ty.uns)
  {
  }

  /** Every value an expression yields lies in its type. */
  lemma {:induction false} EvalFits(w: World, e: Expr, fp: int, sp: int, mem: Mem, fuel: nat)
    requires WellTyped(w, e) && ETy(e).Int?
    ensures var r := EvalE(w, e, fp, sp, mem, fuel);
            r.Ok? ==> Fits(r.v, ETy(e).w, ETy(e).uns)
    decreases e
  {
    var r := EvalE(w, e, fp, sp, mem, fuel);
    if r.Ok? {
      match e
      case Num(_, _) =>
      case Load(ty, lv) =>
        var a := EvalL(w, lv, fp, sp, mem, fuel);
        AsFits(LoadLE(a.mem, a.v, ty.w.Bytes()), ty);
      case Addr(_) =>
      case Assign(_, lv, rhs) =>
        var a := EvalL(w, lv, fp, sp, mem, fuel);
        EvalFits(w, rhs, fp, sp - 8, a.mem, a.fuel);
      case Cast(ty, x) =>
        AsFits(EvalE(w, x, fp, sp, mem, fuel).v, ty);
      case Bin(op, ty, l, rr) =>
        var y := EvalE(w, rr, fp, sp, mem, fuel);
        var x := EvalE(w, l, fp, sp - 8, y.mem, y.fuel);
        BinFits(op, ty, x.v, y.v);
      case Cmp(_, _, _) =>
      case Not(_) =>
      case BitNot(ty, x) =>
        AsFits(-EvalE(w, x, fp, sp, mem, fuel).v - 1, ty);
      case LogAnd(l, _) =>
        EvalFits(w, l, fp, sp, mem, fuel);
      case LogOr(_, _) =>
      case Cond(_, c, t, f) =>
        var b := EvalE(w, c, fp, sp, mem, fuel);
        EvalFits(w, t, fp, sp, b.mem, b.fuel);
        EvalFits(w, f, fp, sp, b.mem, b.fuel);
      case Comma(l, rr) =>
        var x := EvalE(w, l, fp, sp, mem, fuel);
        EvalFits(w, rr, fp, sp, x.mem, x.fuel);
      case Call(callee, ty, args) =>
        var a := EvalA(w, args, fp, sp, mem, fuel);
        AsFits(Invoke(w, callee, a.v, sp - sp % 16, a.mem, a.fuel - 1).v, ty);
    }
  }
}
