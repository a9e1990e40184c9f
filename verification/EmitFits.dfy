// When the emitter refuses a unit: the room a tree needs in the code buffer, the
// label table, the fixup table and the nesting stacks, and the proof that
// emission fails exactly when one of them is too small.

module EmitFits {
  import opened Words
  import opened CTree
  import opened X64
  import opened Gen
  import opened SimOpen
  import opened SimSizes
  import opened SimBase
  import opened SimOpenS
  import opened Emit

  // ---- what a tree needs -------------------------------------------------------------

  /** Labels an expression takes. */
  function LabelsE(e: Expr): nat {
    match e
    case Num(_, _) => 0
    case Load(_, lv) => LabelsL(lv)
    case Addr(lv) => LabelsL(lv)
    case Assign(_, lv, rhs) => LabelsL(lv) + LabelsE(rhs)
    case Cast(_, x) => LabelsE(x)
    case Bin(_, _, l, r) => LabelsE(r) + LabelsE(l)
    case Cmp(_, l, r) => LabelsE(r) + LabelsE(l)
    case Not(x) => LabelsE(x)
    case BitNot(_, x) => LabelsE(x)
    case LogAnd(l, r) => 2 + LabelsE(l) + LabelsE(r)
    case LogOr(l, r) => 2 + LabelsE(l) + LabelsE(r)
    case Cond(_, c, t, f) => 2 + LabelsE(c) + LabelsE(t) + LabelsE(f)
    case Comma(l, r) => LabelsE(l) + LabelsE(r)
    case Call(_, _, args) => LabelsA(args)
  }

  function LabelsL(lv: LVal): nat {
    match lv
    case Local(_) => 0
    case Global(_) => 0
    case Deref(e) => LabelsE(e)
    case Member(x, _) => LabelsL(x)
    case CommaL(e, x) => LabelsE(e) + LabelsL(x)
  }

  function LabelsA(args: Args): nat {
    match args
    case NoArgs => 0
    case Arg(e, rest) => LabelsE(e) + LabelsA(rest)
  }

  /** Jumps and calls an expression leaves to be filled in. */
  function FixupsE(e: Expr): nat {
    match e
    case Num(_, _) => 0
    case Load(_, lv) => FixupsL(lv)
    case Addr(lv) => FixupsL(lv)
    case Assign(_, lv, rhs) => FixupsL(lv) + FixupsE(rhs)
    case Cast(_, x) => FixupsE(x)
    case Bin(_, _, l, r) => FixupsE(r) + FixupsE(l)
    case Cmp(_, l, r) => FixupsE(r) + FixupsE(l)
    case Not(x) => FixupsE(x)
    case BitNot(_, x) => FixupsE(x)
    case LogAnd(l, r) => 3 + FixupsE(l) + FixupsE(r)
    case LogOr(l, r) => 3 + FixupsE(l) + FixupsE(r)
    case Cond(_, c, t, f) => 2 + FixupsE(c) + FixupsE(t) + FixupsE(f)
    case Comma(l, r) => FixupsE(l) + FixupsE(r)
    case Call(callee, _, args) => FixupsA(args) + (if callee.Unit? then 2 else 1)
  }

  function FixupsL(lv: LVal): nat {
    match lv
    case Local(_) => 0
    case Global(_) => 0
    case Deref(e) => FixupsE(e)
    case Member(x, _) => FixupsL(x)
    case CommaL(e, x) => FixupsE(e) + FixupsL(x)
  }

  function FixupsA(args: Args): nat {
    match args
    case NoArgs => 0
    case Arg(e, rest) => FixupsE(e) + FixupsA(rest)
  }

  /** Every call is to one of `n` functions, or to the kernel. */
  predicate CallsE(e: Expr, n: nat) {
    match e
    case Num(_, _) => true
    case Load(_, lv) => CallsL(lv, n)
    case Addr(lv) => CallsL(lv, n)
    case Assign(_, lv, rhs) => CallsL(lv, n) && CallsE(rhs, n)
    case Cast(_, x) => CallsE(x, n)
    case Bin(_, _, l, r) => CallsE(r, n) && CallsE(l, n)
    case Cmp(_, l, r) => CallsE(r, n) && CallsE(l, n)
    case Not(x) => CallsE(x, n)
    case BitNot(_, x) => CallsE(x, n)
    case LogAnd(l, r) => CallsE(l, n) && CallsE(r, n)
    case LogOr(l, r) => CallsE(l, n) && CallsE(r, n)
    case Cond(_, c, t, f) => CallsE(c, n) && CallsE(t, n) && CallsE(f, n)
    case Comma(l, r) => CallsE(l, n) && CallsE(r, n)
    case Call(callee, _, args) => CallsA(args, n) && (callee.Unit? ==> callee.index < n)
  }

  predicate CallsL(lv: LVal, n: nat) {
    match lv
    case Local(_) => true
    case Global(_) => true
    case Deref(e) => CallsE(e, n)
    case Member(x, _) => CallsL(x, n)
    case CommaL(e, x) => CallsE(e, n) && CallsL(x, n)
  }

  predicate CallsA(args: Args, n: nat) {
    match args
    case NoArgs => true
    case Arg(e, rest) => CallsE(e, n) && CallsA(rest, n)
  }

  // ---- the cost of a step ----------------------------------------------------------------

  /** Items, labels and fixups a step takes, the words it leaves pushed, and whether
      it can be done at all. */
  datatype Cost = Cost(n: nat, l: nat, f: nat, d: int, ok: bool)

  const NOTHING := Cost(0, 0, 0, 0, true)
  const ITEM := Cost(1, 0, 0, 0, true)
  const LABEL := Cost(0, 1, 0, 0, true)
  const JUMP := Cost(1, 0, 1, 0, true)

  function Plus(x: Cost, y: Cost): Cost { Cost(x.n + y.n, x.l + y.l, x.f + y.f, x.d + y.d, x.ok && y.ok) }

  lemma PlusIs(x: Cost, y: Cost)
    ensures Plus(x, y) == Cost(x.n + y.n, x.l + y.l, x.f + y.f, x.d + y.d, x.ok && y.ok)
  {
  }

  function Items(n: nat): Cost { Cost(n, 0, 0, 0, true) }

  predicate Room(a: ES, v: Env, c: Cost) {
    |a.items| + c.n <= v.cap && |a.lab| + c.l <= MAX_LABELS && a.nfix + c.f <= MAX_FIXUPS
  }

  /** Nothing is over its limit yet. */
  predicate Within(a: ES, v: Env) {
    !a.fails ==> Room(a, v, NOTHING) && |a.brk| <= MAX_NEST && |a.cont| <= MAX_NEST
  }

  /** From `a` to `b` exactly the cost `c` is spent, and the step fails exactly when
      it cannot be done or there is no room for it. */
  predicate Uses(a: ES, b: ES, v: Env, c: Cost) {
    && (!b.fails ==> !a.fails && b.depth == a.depth + c.d && b.brk == a.brk && b.cont == a.cont)
    && (Within(a, v) ==>
          && (!b.fails <==> !a.fails && c.ok && Room(a, v, c))
          && (!b.fails ==> |b.items| == |a.items| + c.n && |b.lab| == |a.lab| + c.l && b.nfix == a.nfix + c.f))
  }

  lemma Then(a: ES, b: ES, c: ES, v: Env, x: Cost, y: Cost)
    requires Uses(a, b, v, x) && Uses(b, c, v, y)
    ensures Uses(a, c, v, Plus(x, y))
  {
  }

  // ---- primitives -----------------------------------------------------------------------

  lemma UsePut(st: ES, v: Env, i: Instr)
    ensures Uses(st, Put1(st, v, i), v, ITEM)
  {
  }

  lemma {:induction false} UsePuts(st: ES, v: Env, c: seq<Instr>)
    ensures Uses(st, Puts(st, v, c), v, Items(|c|))
    decreases |c|
  {
    hide Uses, Put1;
    if c == [] {
      UseNothing(st, v);
    } else {
      UsePut(st, v, c[0]);
      UsePuts(Put1(st, v, c[0]), v, c[1..]);
      Then(st, Put1(st, v, c[0]), Puts(st, v, c), v, ITEM, Items(|c| - 1));
    }
  }

  lemma UseNothing(st: ES, v: Env)
    ensures Uses(st, st, v, NOTHING)
  {
  }

  lemma UseNew(st: ES, v: Env)
    ensures Uses(st, NewLabel(st), v, LABEL)
  {
  }

  lemma UseHere(st: ES, v: Env, l: int)
    ensures Uses(st, Here(st, l), v, NOTHING)
  {
  }

  lemma UseRel(st: ES, v: Env, i: Instr, l: int)
    ensures Uses(st, RelTo(st, v, i, l), v, JUMP)
  {
  }

  lemma UseJump(st: ES, v: Env, cc: CC, l: int)
    ensures Uses(st, Jump(st, v, cc, l), v, JUMP)
  {
    hide Uses, RelTo;
    UseRel(st, v, J(cc, 0), l);
  }

  lemma UsePush(st: ES, v: Env)
    ensures Uses(st, Push(st, v), v, Cost(1, 0, 0, 1, true))
  {
  }

  lemma UsePop(st: ES, v: Env, x: Reg)
    ensures Uses(st, PopTo(st, v, x), v, Cost(1, 0, 0, -1, true))
  {
  }

  // Appending one more step to a stretch from `a` to `b`.

  lemma ThenPut(a: ES, b: ES, v: Env, x: Cost, i: Instr)
    requires Uses(a, b, v, x)
    ensures Uses(a, Put1(b, v, i), v, Plus(x, ITEM))
  {
    hide Uses, Put1;
    UsePut(b, v, i);
    Then(a, b, Put1(b, v, i), v, x, ITEM);
  }

  lemma ThenPuts(a: ES, b: ES, v: Env, x: Cost, c: seq<Instr>)
    requires Uses(a, b, v, x)
    ensures Uses(a, Puts(b, v, c), v, Plus(x, Items(|c|)))
  {
    hide Uses, Puts;
    UsePuts(b, v, c);
    Then(a, b, Puts(b, v, c), v, x, Items(|c|));
  }

  lemma ThenNew(a: ES, b: ES, v: Env, x: Cost)
    requires Uses(a, b, v, x)
    ensures Uses(a, NewLabel(b), v, Plus(x, LABEL))
  {
    hide Uses, NewLabel;
    UseNew(b, v);
    Then(a, b, NewLabel(b), v, x, LABEL);
  }

  lemma ThenHere(a: ES, b: ES, v: Env, x: Cost, l: int)
    requires Uses(a, b, v, x)
    ensures Uses(a, Here(b, l), v, x)
  {
    hide Uses, Here;
    UseHere(b, v, l);
    Then(a, b, Here(b, l), v, x, NOTHING);
    assert Plus(x, NOTHING) == x;
  }

  lemma ThenJump(a: ES, b: ES, v: Env, x: Cost, cc: CC, l: int)
    requires Uses(a, b, v, x)
    ensures Uses(a, Jump(b, v, cc, l), v, Plus(x, JUMP))
  {
    hide Uses, Jump;
    UseJump(b, v, cc, l);
    Then(a, b, Jump(b, v, cc, l), v, x, JUMP);
  }

  /** An instruction that sets the flags, and a jump. */
  lemma ThenTest(a: ES, b: ES, v: Env, x: Cost, i: Instr, cc: CC, l: int)
    requires Uses(a, b, v, x)
    ensures Uses(a, Jump(Put1(b, v, i), v, cc, l), v, Plus(x, Cost(2, 0, 1, 0, true)))
  {
    hide Uses, Jump, Put1;
    ThenPut(a, b, v, x, i);
    ThenJump(a, Put1(b, v, i), v, Plus(x, ITEM), cc, l);
    assert Plus(Plus(x, ITEM), JUMP) == Plus(x, Cost(2, 0, 1, 0, true));
  }

  lemma UseFuel(st: ES, v: Env)
    ensures Uses(st, FuelCheck(st, v), v, Cost(2, 0, 1, 0, true))
  {
    hide Uses, Jump, Put1;
    UseNothing(st, v);
    ThenTest(st, st, v, NOTHING, DecFuel, S, v.fuel);
  }

  // ---- calls -----------------------------------------------------------------------------

  lemma {:induction false} UsePopArgs(st: ES, v: Env, n: nat)
    ensures Uses(st, PopArgs(st, v, n), v, Cost(n, 0, 0, 0 - n, true))
    decreases n
  {
    hide Uses, PopTo;
    if n == 0 {
      UseNothing(st, v);
    } else {
      var s1 := PopTo(st, v, ArgReg(n - 1));
      UsePop(st, v, ArgReg(n - 1));
      UsePopArgs(s1, v, n - 1);
      Then(st, s1, PopArgs(st, v, n), v, Cost(1, 0, 0, -1, true), Cost(n - 1, 0, 0, 0 - (n - 1), true));
    }
  }

  function CallCost(callee: Callee, n: nat): Cost {
    if callee.Unit? then Cost(1, 0, 1, 0, callee.index < n) else Items(2)
  }

  lemma UseCallTo(st: ES, v: Env, callee: Callee, n: nat)
    ensures Uses(st, CallTo(st, v, callee, n), v, CallCost(callee, |v.fn|))
  {
    hide RelTo, Puts;
    match callee
    case Unit(i) =>
      if i < |v.fn| {
        UseRel(st, v, CallRel(0), v.fn[i]);
      }
    case Kernel(a) => UsePuts(st, v, [MovR11Imm(a), CallR11(n)]);
  }

  lemma {:induction false} LenPops(n: nat)
    ensures |Pops(n)| == n
  {
    if n > 0 {
      LenPops(n - 1);
    }
  }

  lemma SizeEnter(callee: Callee, ty: Ty, n: nat, d: nat, at: int, k: Links)
    ensures |Enter(callee, ty, n, d, at, k)|
            == n + (if d % 2 == 1 then 2 else 0) + 2 + (if callee.Unit? then 1 else 2) + |Norm(ty)|
  {
    hide Pops, Norm;
    LenPops(n);
  }

  function PadCost(pad: bool): Cost { if pad then ITEM else NOTHING }

  lemma ThenPad(a: ES, b: ES, v: Env, x: Cost, pad: bool, i: Instr)
    requires Uses(a, b, v, x)
    ensures Uses(a, if pad then Put1(b, v, i) else b, v, Plus(x, PadCost(pad)))
  {
    hide Uses, Put1;
    UseNothing(b, v);
    UsePut(b, v, i);
    Then(a, b, if pad then Put1(b, v, i) else b, v, x, PadCost(pad));
  }

  /** Arguments popped, stack padded, fuel checked. */
  lemma UseEnterHead(st: ES, v: Env, n: nat, pad: bool) returns (s2: ES)
    ensures var s1 := PopArgs(st, v, n); s2 == FuelCheck(if pad then Put1(s1, v, SubRsp(8)) else s1, v)
    ensures Uses(st, s2, v, Cost(n + PadCost(pad).n + 2, 0, 1, 0 - n, true))
  {
    hide Uses, PopArgs, Put1, FuelCheck;
    var s1 := PopArgs(st, v, n);
    UsePopArgs(st, v, n);
    var x1 := Cost(n, 0, 0, 0 - n, true);
    ThenPad(st, s1, v, x1, pad, SubRsp(8));
    var t1 := if pad then Put1(s1, v, SubRsp(8)) else s1;
    s2 := FuelCheck(t1, v);
    UseFuel(t1, v);
    Then(st, t1, s2, v, Plus(x1, PadCost(pad)), Cost(2, 0, 1, 0, true));
  }

  /** From `n` arguments on the stack over `d` words to the result. */
  lemma UseEnter(st: ES, v: Env, callee: Callee, ty: Ty, n: nat, d: nat, at: int, k: Links)
    requires !st.fails ==> st.depth == d + n
    ensures var c := CallCost(callee, |v.fn|);
            Uses(st, EmitEnter(st, v, callee, ty, n), v, Cost(|Enter(callee, ty, n, d, at, k)|, 0, 1 + c.f, 0 - n,
              c.ok))
  {
    hide Uses, PopArgs, Put1, FuelCheck, CallTo, Puts, Norm, Enter;
    var s1 := PopArgs(st, v, n);
    UsePopArgs(st, v, n);
    var pad := s1.depth % 2 == 1;
    var s2 := UseEnterHead(st, v, n, pad);
    var x2 := Cost(n + PadCost(pad).n + 2, 0, 1, 0 - n, true);
    UseCallTo(s2, v, callee, n);
    var s3 := CallTo(s2, v, callee, n);
    var c := CallCost(callee, |v.fn|);
    Then(st, s2, s3, v, x2, c);
    ThenPad(st, s3, v, Plus(x2, c), pad, AddRsp(8));
    var t3 := if pad then Put1(s3, v, AddRsp(8)) else s3;
    var x3 := Plus(Plus(x2, c), PadCost(pad));
    ThenPuts(st, t3, v, x3, Norm(ty));
    SizeEnter(callee, ty, n, d, at, k);
    EnterTotal(st, s1, v, n, d, Plus(x3, Items(|Norm(ty)|)), Puts(t3, v, Norm(ty)),
      Cost(|Enter(callee, ty, n, d, at, k)|, 0, 1 + c.f, 0 - n, c.ok));
  }

  /** The padding is there exactly when the size says so, unless the step failed
      before that was known. */
  lemma EnterTotal(st: ES, s1: ES, v: Env, n: nat, d: nat, x: Cost, r: ES, y: Cost)
    requires Uses(st, r, v, x) && Uses(st, s1, v, Cost(n, 0, 0, 0 - n, true)) && (!st.fails ==> st.depth == d + n)
    requires x == y || (s1.depth % 2 == 1) != (d % 2 == 1)
    requires s1.fails ==> r.fails
    requires n <= y.n
    ensures Uses(st, r, v, y)
  {
  }

  // ---- sizes, one level ---------------------------------------------------------------------

  const BASE := Links(0, 0, [])

  function SizeL(lv: LVal, d: nat): nat { |GenL(lv, d, 0, BASE)| }

  function SizeA(args: Args, d: nat): nat { |GenA(args, d, 0, BASE)| }

  function OperandSize(e: Expr, d: nat): nat
    requires e.Load? || e.Addr? || e.Cast? || e.Not? || e.BitNot?
  {
    if e.Load? || e.Addr? then SizeL(e.lv, d) else SizeE(e.e, d)
  }

  lemma SizeUnary(e: Expr, d: nat)
    requires e.Load? || e.Addr? || e.Cast? || e.Not? || e.BitNot?
    ensures SizeE(e, d) == OperandSize(e, d) + |Suffix(e)|
  {
    hide GenE, GenL, Suffix;
    var c1 := CodeUnary(e, d, 0, BASE);
  }

  /** The first operand's size, the second's, and what follows both. */
  function FirstSize(e: Expr, d: nat): nat
    requires e.Assign? || e.Bin? || e.Cmp?
  {
    if e.Assign? then SizeL(e.lv, d) else SizeE(e.r, d)
  }

  function SecondSize(e: Expr, d: nat): nat
    requires e.Assign? || e.Bin? || e.Cmp?
  {
    if e.Assign? then SizeE(e.rhs, d + 1) else SizeE(e.l, d + 1)
  }

  function AfterPair(e: Expr): seq<Instr>
    requires e.Assign? || e.Bin? || e.Cmp?
  {
    if e.Assign? then [StoreRdi(if e.ty.Int? then e.ty.w else B8)]
    else if e.Bin? then BinCode(e.op, e.ty) + Norm(e.ty)
    else CmpCode(e.cmp, ETy(e.l))
  }

  lemma SizePair(e: Expr, d: nat)
    requires e.Assign? || e.Bin? || e.Cmp?
    ensures SizeE(e, d) == FirstSize(e, d) + SecondSize(e, d) + 2 + |AfterPair(e)|
  {
    hide GenE, GenL, BinCode, CmpCode, Norm;
    if e.Assign? {
      SizeAssign(e, d);
    } else if e.Bin? {
      var c1, c2 := CodeBin(e, d, 0, BASE);
      SizeOfE(e.l, d + 1, |c1| + 1, BASE);
    } else {
      var c1, c2 := CodeCmp(e, d, 0, BASE);
      SizeOfE(e.l, d + 1, |c1| + 1, BASE);
    }
  }

  lemma SizeAssign(e: Expr, d: nat)
    requires e.Assign?
    ensures SizeE(e, d) == SizeL(e.lv, d) + SizeE(e.rhs, d + 1) + 3
  {
    hide GenL;
    var c1 := GenL(e.lv, d, 0, BASE);
    SizeOfE(e.rhs, d + 1, |c1| + 1, BASE);
  }

  lemma SizeBranch(e: Expr, d: nat)
    requires e.LogAnd? || e.LogOr? || e.Cond?
    ensures e.Cond? ==> SizeE(e, d) == SizeE(e.c, d) + SizeE(e.t, d) + SizeE(e.f, d) + 3
    ensures !e.Cond? ==> SizeE(e, d) == SizeE(e.l, d) + SizeE(e.r, d) + 7
  {
    hide GenE;
    if e.Cond? {
      var c1, c2, c3 := CodeCond(e, d, 0, BASE);
      SizeOfE(e.t, d, |c1| + 2, BASE);
      SizeOfE(e.f, d, |c1| + |c2| + 3, BASE);
    } else {
      var c1, c2 := CodeLog(e, d, 0, BASE);
      SizeOfE(e.r, d, |c1| + 2, BASE);
    }
  }

  lemma SizeOfL(lv: LVal, d: nat, at: int, k: Links)
    ensures |GenL(lv, d, at, k)| == SizeL(lv, d)
  {
    hide GenL;
    LenL(lv, d, at, k, 0, BASE);
  }

  lemma SizeOfA(args: Args, d: nat, at: int, k: Links)
    ensures |GenA(args, d, at, k)| == SizeA(args, d)
  {
    hide GenA;
    LenA(args, d, at, k, 0, BASE);
  }

  // ---- expressions -------------------------------------------------------------------------

  function CostE(e: Expr, d: nat, n: nat): Cost { Cost(SizeE(e, d), LabelsE(e), FixupsE(e), 0, CallsE(e, n)) }

  function CostL(lv: LVal, d: nat, n: nat): Cost { Cost(SizeL(lv, d), LabelsL(lv), FixupsL(lv), 0, CallsL(lv, n)) }

  function CostA(args: Args, d: nat, n: nat): Cost {
    Cost(SizeA(args, d), LabelsA(args), FixupsA(args), Count(args), CallsA(args, n))
  }

  /** A failed emitter is at no depth in particular. */
  predicate Standing(st: ES, d: nat) { !st.fails ==> st.depth == d }

  lemma {:induction false} UseE(st: ES, v: Env, e: Expr, d: nat)
    requires Standing(st, d)
    ensures Uses(st, EmitE(st, v, e), v, CostE(e, d, |v.fn|))
    decreases e, 2
  {
    hide Uses, EmitL, EmitA, Puts, Put1, SizeE, SizeL, SizeA, Suffix, Norm, LoadCode, EmitEnter, Enc, LabelsL, FixupsL,
      CallsL,
      Push, PopTo, Here, Jump, NewLabel, EmitLog;
    if st.fails {
      UseFailed(st, v, CostE(e, d, |v.fn|));
      return;
    }
    match e
    case Num(_, x) =>
      UsePut(st, v, MovRaxImm(Enc(x)));
      SizeNum(e, d);
    case Load(_, lv) =>
      UseL(st, v, lv, d);
      UseUnary(st, EmitL(st, v, lv), v, e, d);
    case Addr(lv) =>
      UseL(st, v, lv, d);
      UseUnary(st, EmitL(st, v, lv), v, e, d);
    case Cast(_, x) =>
      UseE(st, v, x, d);
      UseUnary(st, EmitE(st, v, x), v, e, d);
    case Not(x) =>
      UseE(st, v, x, d);
      UseUnary(st, EmitE(st, v, x), v, e, d);
    case BitNot(_, x) =>
      UseE(st, v, x, d);
      UseUnary(st, EmitE(st, v, x), v, e, d);
    case Assign(_, _, _) => UsePair(st, v, e, d);
    case Bin(_, _, _, _) => UsePair(st, v, e, d);
    case Cmp(_, _, _) => UsePair(st, v, e, d);
    case LogAnd(_, _) => UseLog(st, v, e, d);
    case LogOr(_, _) => UseLog(st, v, e, d);
    case Cond(_, _, _, _) => UseCond(st, v, e, d);
    case Comma(l, r) =>
      UseE(st, v, l, d);
      AtSame(st, EmitE(st, v, l), v, CostE(l, d, |v.fn|), d);
      UseE(EmitE(st, v, l), v, r, d);
      Then(st, EmitE(st, v, l), EmitE(st, v, e), v, CostE(l, d, |v.fn|), CostE(r, d, |v.fn|));
      SizeComma(e, d);
    case Call(_, _, _) => UseCall(st, v, e, d);
  }

  lemma UseFailed(st: ES, v: Env, c: Cost)
    requires st.fails
    ensures Uses(st, st, v, c)
  {
  }

  lemma SizeNum(e: Expr, d: nat)
    requires e.Num?
    ensures SizeE(e, d) == 1
  {
    hide Enc;
  }

  lemma SizeComma(e: Expr, d: nat)
    requires e.Comma?
    ensures SizeE(e, d) == SizeE(e.l, d) + SizeE(e.r, d)
  {
    hide GenE;
    var c1, c2 := CodeComma(e, d, 0, BASE);
    SizeOfE(e.r, d, |c1|, BASE);
  }

  /** The depth after a step. */
  lemma AtSame(a: ES, b: ES, v: Env, c: Cost, d: nat)
    requires Uses(a, b, v, c) && Standing(a, d) && d + c.d >= 0
    ensures Standing(b, d + c.d)
  {
  }

  function OperandCost(e: Expr, d: nat, n: nat): Cost
    requires e.Load? || e.Addr? || e.Cast? || e.Not? || e.BitNot?
  {
    if e.Load? || e.Addr? then CostL(e.lv, d, n) else CostE(e.e, d, n)
  }

  lemma CostUnary(e: Expr, d: nat, n: nat)
    requires e.Load? || e.Addr? || e.Cast? || e.Not? || e.BitNot?
    ensures CostE(e, d, n) == Plus(OperandCost(e, d, n), Items(|Suffix(e)|))
  {
    hide SizeE, SizeL, Suffix;
    SizeUnary(e, d);
  }

  lemma OpenUnary(st: ES, v: Env, e: Expr)
    requires !st.fails && (e.Load? || e.Addr? || e.Cast? || e.Not? || e.BitNot?)
    ensures EmitE(st, v, e) == Puts(if e.Load? || e.Addr? then EmitL(st, v, e.lv) else EmitE(st, v, e.e), v, Suffix(e))
  {
    hide EmitL, Norm, LoadCode;
  }

  lemma UseUnary(st: ES, s1: ES, v: Env, e: Expr, d: nat)
    requires !st.fails && (e.Load? || e.Addr? || e.Cast? || e.Not? || e.BitNot?)
    requires s1 == if e.Load? || e.Addr? then EmitL(st, v, e.lv) else EmitE(st, v, e.e)
    requires Uses(st, s1, v, OperandCost(e, d, |v.fn|))
    ensures Uses(st, EmitE(st, v, e), v, CostE(e, d, |v.fn|))
  {
    hide Uses, EmitL, EmitE, Puts, CostE, CostL, Suffix;
    OpenUnary(st, v, e);
    CostUnary(e, d, |v.fn|);
    ThenPuts(st, s1, v, OperandCost(e, d, |v.fn|), Suffix(e));
  }

  /** One operand pushed, the other computed, the first popped. */
  lemma UsePair(st: ES, v: Env, e: Expr, d: nat)
    requires !st.fails && Standing(st, d) && (e.Assign? || e.Bin? || e.Cmp?)
    ensures Uses(st, EmitE(st, v, e), v, CostE(e, d, |v.fn|))
    decreases e, 0
  {
    hide Uses, EmitL, EmitE, Puts, Put1, Push, PopTo, SizeE, SizeL, LabelsE, LabelsL, FixupsE, FixupsL, CallsE, CallsL;
    var n := |v.fn|;
    var second := if e.Assign? then e.rhs else e.l;
    var s1 := if e.Assign? then EmitL(st, v, e.lv) else EmitE(st, v, e.r);
    var x1 := if e.Assign? then CostL(e.lv, d, n) else CostE(e.r, d, n);
    if e.Assign? {
      UseL(st, v, e.lv, d);
    } else {
      UseE(st, v, e.r, d);
    }
    var one, less := Cost(1, 0, 0, 1, true), Cost(1, 0, 0, -1, true);
    var s2 := Push(s1, v);
    UsePush(s1, v);
    Then(st, s1, s2, v, x1, one);
    AtSame(st, s2, v, Plus(x1, one), d);
    UseE(s2, v, second, d + 1);
    var s3 := EmitE(s2, v, second);
    var x2 := Plus(Plus(x1, one), CostE(second, d + 1, n));
    Then(st, s2, s3, v, Plus(x1, one), CostE(second, d + 1, n));
    UsePop(s3, v, Rdi);
    var s4 := PopTo(s3, v, Rdi);
    Then(st, s3, s4, v, x2, less);
    PairEnd(st, s1, s4, v, e, d, Plus(x2, less));
  }

  lemma OpenPair(st: ES, v: Env, e: Expr)
    requires !st.fails && (e.Assign? || e.Bin? || e.Cmp?)
    ensures var s1 := if e.Assign? then EmitL(st, v, e.lv) else EmitE(st, v, e.r);
            var s4 := PopTo(EmitE(Push(s1, v), v, if e.Assign? then e.rhs else e.l), v, Rdi);
            EmitE(st, v, e) == Puts(s4, v, AfterPair(e))
  {
    hide EmitL, Push, PopTo, BinCode, CmpCode, Norm;
    if e.Assign? {
      var s4 := PopTo(EmitE(Push(EmitL(st, v, e.lv), v), v, e.rhs), v, Rdi);
      var i := StoreRdi(if e.ty.Int? then e.ty.w else B8);
      assert [i][1..] == [];
      assert Puts(s4, v, [i]) == Put1(s4, v, i);
    }
  }

  lemma CostPair(e: Expr, d: nat, n: nat)
    requires e.Assign? || e.Bin? || e.Cmp?
    ensures var x1 := if e.Assign? then CostL(e.lv, d, n) else CostE(e.r, d, n);
            var x2 := if e.Assign? then CostE(e.rhs, d + 1, n) else CostE(e.l, d + 1, n);
            CostE(e, d, n) == Plus(Plus(x1, x2), Items(2 + |AfterPair(e)|))
  {
    hide SizeE, SizeL, AfterPair;
    SizePair(e, d);
  }

  lemma PairEnd(st: ES, s1: ES, s4: ES, v: Env, e: Expr, d: nat, x: Cost)
    requires !st.fails && (e.Assign? || e.Bin? || e.Cmp?) && Uses(st, s4, v, x)
    requires s1 == if e.Assign? then EmitL(st, v, e.lv) else EmitE(st, v, e.r)
    requires s4 == PopTo(EmitE(Push(s1, v), v, if e.Assign? then e.rhs else e.l), v, Rdi)
    requires var n := |v.fn|;
             var x1 := if e.Assign? then CostL(e.lv, d, n) else CostE(e.r, d, n);
             var x2 := if e.Assign? then CostE(e.rhs, d + 1, n) else CostE(e.l, d + 1, n);
             x == Plus(Plus(x1, x2), Items(2))
    ensures Uses(st, EmitE(st, v, e), v, CostE(e, d, |v.fn|))
  {
    hide Uses, EmitL, EmitE, Push, PopTo, CostE, CostL, AfterPair;
    OpenPair(st, v, e);
    CostPair(e, d, |v.fn|);
    ThenPuts(st, s4, v, x, AfterPair(e));
  }

  lemma UseTwoNew(st: ES, v: Env)
    ensures Uses(st, NewLabel(NewLabel(st)), v, Cost(0, 2, 0, 0, true))
  {
    hide Uses, NewLabel;
    UseNew(st, v);
    ThenNew(st, NewLabel(st), v, LABEL);
  }

  lemma CostBranch(e: Expr, d: nat, n: nat)
    requires e.LogAnd? || e.LogOr? || e.Cond?
    ensures e.Cond? ==>
              CostE(e, d, n) == Plus(Plus(Plus(CostE(e.c, d, n), CostE(e.t, d, n)), CostE(e.f, d, n)),
                Cost(3, 2, 2, 0, true))
    ensures !e.Cond? ==> CostE(e, d, n) == Plus(Plus(CostE(e.l, d, n), CostE(e.r, d, n)), Cost(7, 2, 3, 0, true))
  {
    hide SizeE;
    SizeBranch(e, d);
  }

  lemma UseCond(st: ES, v: Env, e: Expr, d: nat)
    requires !st.fails && Standing(st, d) && e.Cond?
    ensures Uses(st, EmitE(st, v, e), v, CostE(e, d, |v.fn|))
    decreases e, 0
  {
    hide Uses, Put1, Jump, Here, NewLabel, SizeE, LabelsE, FixupsE, CallsE, Standing, EmitE;
    OpenCond(st, v, e);
    var n, lelse, lend, s0 := |v.fn|, |st.lab|, |st.lab| + 1, NewLabel(NewLabel(st));
    var x0, test := Cost(0, 2, 0, 0, true), Cost(2, 0, 1, 0, true);
    UseTwoNew(st, v);
    AtSame(st, s0, v, x0, d);
    var s1 := EmitE(s0, v, e.c);
    UseE(s0, v, e.c, d);
    var x1 := Plus(x0, CostE(e.c, d, n));
    Then(st, s0, s1, v, x0, CostE(e.c, d, n));
    ThenTest(st, s1, v, x1, TestRax, Z, lelse);
    var t1 := Jump(Put1(s1, v, TestRax), v, Z, lelse);
    var x2 := Plus(x1, test);
    AtSame(st, t1, v, x2, d);
    var s2 := EmitE(t1, v, e.t);
    UseE(t1, v, e.t, d);
    var x3 := Plus(x2, CostE(e.t, d, n));
    Then(st, t1, s2, v, x2, CostE(e.t, d, n));
    ThenJump(st, s2, v, x3, Always, lend);
    ThenHere(st, Jump(s2, v, Always, lend), v, Plus(x3, JUMP), lelse);
    var t2 := Here(Jump(s2, v, Always, lend), lelse);
    AtSame(st, t2, v, Plus(x3, JUMP), d);
    var s3 := EmitE(t2, v, e.f);
    UseE(t2, v, e.f, d);
    Then(st, t2, s3, v, Plus(x3, JUMP), CostE(e.f, d, n));
    ThenHere(st, s3, v, Plus(Plus(x3, JUMP), CostE(e.f, d, n)), lend);
    CostBranch(e, d, n);
    assert Plus(Plus(x3, JUMP), CostE(e.f, d, n)) == CostE(e, d, n);
  }

  lemma OpenCond(st: ES, v: Env, e: Expr)
    requires !st.fails && e.Cond?
    ensures var lelse, lend := |st.lab|, |st.lab| + 1;
            var s1 := EmitE(NewLabel(NewLabel(st)), v, e.c);
            var s2 := EmitE(Jump(Put1(s1, v, TestRax), v, Z, lelse), v, e.t);
            EmitE(st, v, e) == Here(EmitE(Here(Jump(s2, v, Always, lend), lelse), v, e.f), lend)
  {
    hide Put1, Jump, Here, NewLabel;
  }

  lemma UseLog(st: ES, v: Env, e: Expr, d: nat)
    requires !st.fails && Standing(st, d) && (e.LogAnd? || e.LogOr?)
    ensures Uses(st, EmitLog(st, v, e), v, CostE(e, d, |v.fn|))
    decreases e, 0
  {
    hide Uses, Put1, Jump, Here, NewLabel, SizeE, LabelsE, FixupsE, CallsE, EmitE, Standing;
    var n, or, decided, lend, s0 := |v.fn|, e.LogOr?, |st.lab|, |st.lab| + 1, NewLabel(NewLabel(st));
    var cc := if or then NZ else Z;
    var x0, test := Cost(0, 2, 0, 0, true), Cost(2, 0, 1, 0, true);
    UseTwoNew(st, v);
    AtSame(st, s0, v, x0, d);
    var s1 := EmitE(s0, v, e.l);
    UseE(s0, v, e.l, d);
    var x1 := Plus(x0, CostE(e.l, d, n));
    Then(st, s0, s1, v, x0, CostE(e.l, d, n));
    ThenTest(st, s1, v, x1, TestRax, cc, decided);
    var t1 := Jump(Put1(s1, v, TestRax), v, cc, decided);
    var x2 := Plus(x1, test);
    AtSame(st, t1, v, x2, d);
    var s2 := EmitE(t1, v, e.r);
    UseE(t1, v, e.r, d);
    var x3 := Plus(x2, CostE(e.r, d, n));
    Then(st, t1, s2, v, x2, CostE(e.r, d, n));
    LogEnd(st, s2, v, x3, or, cc, decided, lend);
    CostBranch(e, d, n);
    assert Plus(x3, Cost(5, 0, 2, 0, true)) == CostE(e, d, n);
  }

  lemma LogEnd(st: ES, s2: ES, v: Env, x: Cost, or: bool, cc: CC, decided: int, lend: int)
    requires Uses(st, s2, v, x)
    ensures var s3 := Jump(Put1(s2, v, TestRax), v, cc, decided);
            var s4 := Jump(Put1(s3, v, if or then XorEax else MovEaxImm(1)), v, Always, lend);
            Uses(st, Here(Put1(Here(s4, decided), v, if or then MovEaxImm(1) else XorEax), lend), v,
              Plus(x, Cost(5, 0, 2, 0, true)))
  {
    hide Uses, Put1, Jump, Here;
    var s3 := Jump(Put1(s2, v, TestRax), v, cc, decided);
    var x1 := Plus(x, Cost(2, 0, 1, 0, true));
    ThenTest(st, s2, v, x, TestRax, cc, decided);
    ThenTest(st, s3, v, x1, if or then XorEax else MovEaxImm(1), Always, lend);
    var s4 := Jump(Put1(s3, v, if or then XorEax else MovEaxImm(1)), v, Always, lend);
    var x2 := Plus(x1, Cost(2, 0, 1, 0, true));
    ThenHere(st, s4, v, x2, decided);
    ThenPut(st, Here(s4, decided), v, x2, if or then MovEaxImm(1) else XorEax);
    ThenHere(st, Put1(Here(s4, decided), v, if or then MovEaxImm(1) else XorEax), v, Plus(x2, ITEM), lend);
    assert Plus(x2, ITEM) == Plus(x, Cost(5, 0, 2, 0, true));
  }

  lemma UseCall(st: ES, v: Env, e: Expr, d: nat)
    requires !st.fails && Standing(st, d) && e.Call?
    ensures Uses(st, EmitE(st, v, e), v, CostE(e, d, |v.fn|))
    decreases e, 0
  {
    hide Uses, EmitA, EmitEnter, SizeE, SizeA, Enter, Standing;
    var n := Count(e.args);
    var taken: int := n;
    UseA(st, v, e.args, d);
    var s1 := EmitA(st, v, e.args);
    AtSame(st, s1, v, CostA(e.args, d, |v.fn|), d);
    var at := SizeA(e.args, d);
    AtDepth(s1, d + n);
    UseEnter(s1, v, e.callee, e.ty, n, d, at, BASE);
    var c := CallCost(e.callee, |v.fn|);
    Then(st, s1, EmitE(st, v, e), v, CostA(e.args, d, |v.fn|), Cost(|Enter(e.callee, e.ty, n, d, at, BASE)|, 0,
      1 + c.f, -taken, c.ok));
    SizeCall(e, d);
  }

  lemma AtDepth(st: ES, d: nat)
    requires Standing(st, d)
    ensures !st.fails ==> st.depth == d
  {
  }

  lemma SizeCall(e: Expr, d: nat)
    requires e.Call?
    ensures SizeE(e, d) == SizeA(e.args, d) + |Enter(e.callee, e.ty, Count(e.args), d, SizeA(e.args, d), BASE)|
  {
    hide GenE, GenA, Enter;
    var c1, c2 := CodeCall(e, d, 0, BASE);
  }

  lemma CostLVal(lv: LVal, d: nat, n: nat)
    ensures lv.Local? || lv.Global? ==> CostL(lv, d, n) == ITEM
    ensures lv.Deref? ==> CostL(lv, d, n) == CostE(lv.e, d, n)
    ensures lv.Member? ==> CostL(lv, d, n) == Plus(CostL(lv.lv, d, n), if lv.moff == 0 then NOTHING else ITEM)
    ensures lv.CommaL? ==> CostL(lv, d, n) == Plus(CostE(lv.e, d, n), CostL(lv.lv, d, n))
  {
    hide GenE, LabelsE, FixupsE, CallsE;
    if lv.CommaL? {
      SizeOfL(lv.lv, d, SizeE(lv.e, d), BASE);
    }
  }

  lemma {:induction false} UseL(st: ES, v: Env, lv: LVal, d: nat)
    requires Standing(st, d)
    ensures Uses(st, EmitL(st, v, lv), v, CostL(lv, d, |v.fn|))
    decreases lv, 2
  {
    hide Uses, EmitE, Put1, Enc, Standing, CostL, CostE;
    CostLVal(lv, d, |v.fn|);
    match lv
    case Local(off) => UsePut(st, v, LeaRaxRbp(off));
    case Global(a) => UsePut(st, v, MovRaxImm(Enc(a)));
    case Deref(e) => UseE(st, v, e, d);
    case Member(x, off) =>
      UseL(st, v, x, d);
      ThenPad(st, EmitL(st, v, x), v, CostL(x, d, |v.fn|), off != 0, AddRaxImm(off));
    case CommaL(e, x) =>
      var s1 := EmitE(st, v, e);
      UseE(st, v, e, d);
      LevelCost(e, d, |v.fn|);
      AtSame(st, s1, v, CostE(e, d, |v.fn|), d);
      UseL(s1, v, x, d);
      Then(st, s1, EmitL(s1, v, x), v, CostE(e, d, |v.fn|), CostL(x, d, |v.fn|));
  }

  lemma LevelCost(e: Expr, d: nat, n: nat)
    ensures CostE(e, d, n).d == 0
  {
  }

  lemma {:induction false} UseA(st: ES, v: Env, args: Args, d: nat)
    requires Standing(st, d)
    ensures Uses(st, EmitA(st, v, args), v, CostA(args, d, |v.fn|))
    decreases args, 2
  {
    hide Uses, EmitE, Push, GenE, Standing;
    match args
    case NoArgs => UseNothing(st, v);
    case Arg(e, rest) =>
      var x1, one := CostE(e, d, |v.fn|), Cost(1, 0, 0, 1, true);
      var s1 := EmitE(st, v, e);
      UseE(st, v, e, d);
      UsePush(s1, v);
      Then(st, s1, Push(s1, v), v, x1, one);
      AtSame(st, Push(s1, v), v, Plus(x1, one), d);
      UseA(Push(s1, v), v, rest, d + 1);
      Then(st, Push(s1, v), EmitA(st, v, args), v, Plus(x1, one), CostA(rest, d + 1, |v.fn|));
      SizeOfA(rest, d + 1, SizeE(e, d) + 1, BASE);
  }
}
