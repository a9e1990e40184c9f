// How many words lie on the stack at each point of a function's code: counted
// along the text, and the same along every jump.

module Depth {
  import opened Basics
  import opened Words
  import opened CTree
  import opened X64
  import opened Gen
  import opened SimBase
  import opened SimOpen
  import opened SimSizes
  import opened SimOpenS

  /** Words an instruction pushes, less those it pops. */
  function Pushes(i: Instr): int {
    match i
    case PushRax => 1
    case Pop(_) => -1
    case _ => 0
  }

  /** The same for the word that pads the stack around a call. */
  function Pads(i: Instr): int {
    match i
    case SubRsp(_) => 1
    case AddRsp(_) => -1
    case _ => 0
  }

  /** Words pushed by the first `j` instructions of `seg`, in the order they stand:
      what the emitter's depth counts. */
  function Pushed(seg: seq<Instr>, j: nat): int
    requires j <= |seg|
  {
    if j == 0 then 0 else Pushed(seg, j - 1) + Pushes(seg[j - 1])
  }

  function Padded(seg: seq<Instr>, j: nat): int
    requires j <= |seg|
  {
    if j == 0 then 0 else Padded(seg, j - 1) + Pads(seg[j - 1])
  }

  /** All the words on the stack above the frame. */
  function Stacked(seg: seq<Instr>, j: nat): int
    requires j <= |seg|
  {
    Pushed(seg, j) + Padded(seg, j)
  }

  lemma {:induction false} CountLeft(a: seq<Instr>, b: seq<Instr>, j: nat)
    requires j <= |a|
    ensures Pushed(a + b, j) == Pushed(a, j) && Padded(a + b, j) == Padded(a, j)
  {
    if j > 0 {
      CountLeft(a, b, j - 1);
    }
  }

  lemma {:induction false} CountRight(a: seq<Instr>, b: seq<Instr>, j: nat)
    requires j <= |b|
    ensures Pushed(a + b, |a| + j) == Pushed(a, |a|) + Pushed(b, j)
    ensures Padded(a + b, |a| + j) == Padded(a, |a|) + Padded(b, j)
  {
    if j == 0 {
      CountLeft(a, b, |a|);
    } else {
      CountRight(a, b, j - 1);
    }
  }

  /** Instructions of a body: none of those that set up or leave a frame. */
  predicate Plain(i: Instr) {
    match i
    case Ret | PushRbp | MovRbpRsp | MovRspRbp | PopRbp | SaveKrsp | LoadPrsp | LoadKrsp | SetAborted(_) | Halt => false
    case SubRsp(n) => n == 8
    case AddRsp(n) => n == 8
    case _ => true
  }

  /** Instruction `j` of `seg`, which starts at `at` with `d` words pushed: a jump
      finds at its target the depth it left, or aborts, or goes to one of `outs`
      with nothing of the segment's own pushed; a call goes to a function, with
      one word of padding exactly if the words pushed are odd. */
  ghost predicate LevelAt(seg: seq<Instr>, d: nat, at: int, outs: set<int>, k: Links, j: nat)
    requires j < |seg|
  {
    match seg[j]
    case J(_, rel) =>
      var t := j + 1 + rel;
      || at + t == k.fuel || at + t == k.stack
      || (at + t in outs && Pushed(seg, j) == 0 && Padded(seg, j) == 0)
      || (0 <= t <= |seg| && Pushed(seg, t) == Pushed(seg, j) && Padded(seg, t) == Padded(seg, j))
    case CallRel(rel) => at + j + 1 + rel in k.fn && Padded(seg, j) == (d + Pushed(seg, j)) % 2
    case CallR11(_) => Padded(seg, j) == (d + Pushed(seg, j)) % 2
    case i => Plain(i)
  }

  ghost predicate Level(seg: seq<Instr>, d: nat, at: int, outs: set<int>, k: Links) {
    && (forall j :: 0 <= j < |seg| ==> LevelAt(seg, d, at, outs, k, j))
    && (forall j :: 0 <= j <= |seg| ==> 0 <= d + Pushed(seg, j) && 0 <= Padded(seg, j) <= 1)
  }

  /** A segment that leaves `n` more words than it found, and no padding. */
  ghost predicate Adds(seg: seq<Instr>, n: int) { Pushed(seg, |seg|) == n && Padded(seg, |seg|) == 0 }

  // ---- composition ---------------------------------------------------------------

  lemma JoinLeft(a: seq<Instr>, b: seq<Instr>, d: nat, at: int, outs: set<int>, k: Links, j: nat)
    requires j < |a| && LevelAt(a, d, at, outs, k, j)
    ensures LevelAt(a + b, d, at, outs, k, j)
  {
    hide Pushed, Padded;
    CountLeft(a, b, j);
    if a[j].J? {
      var t := j + 1 + a[j].rel;
      if 0 <= t <= |a| {
        CountLeft(a, b, t);
      }
    }
  }

  lemma JoinRight(a: seq<Instr>, b: seq<Instr>, d: nat, n: int, at: int, outs: set<int>, k: Links, j: nat)
    requires 0 <= d + n && Adds(a, n) && (n == 0 || outs == {})
    requires j < |b| && LevelAt(b, d + n, at + |a|, outs, k, j)
    ensures LevelAt(a + b, d, at, outs, k, |a| + j)
  {
    hide Pushed, Padded;
    assert (a + b)[|a| + j] == b[j];
    CountRight(a, b, j);
    if b[j].J? {
      var t := j + 1 + b[j].rel;
      if 0 <= t <= |b| {
        CountRight(a, b, t);
      }
    }
  }

  /** Two segments, the second starting at the depth where the first ends. */
  lemma Join(a: seq<Instr>, b: seq<Instr>, d: nat, n: int, m: int, at: int, outs: set<int>, k: Links)
    requires 0 <= d + n && Level(a, d, at, outs, k) && Adds(a, n) && (n == 0 || outs == {})
    requires Level(b, d + n, at + |a|, outs, k) && Adds(b, m)
    ensures Level(a + b, d, at, outs, k) && Adds(a + b, n + m)
  {
    hide Pushed, Padded, LevelAt;
    forall j | 0 <= j < |a + b|
      ensures LevelAt(a + b, d, at, outs, k, j)
    {
      if j < |a| {
        JoinLeft(a, b, d, at, outs, k, j);
      } else {
        JoinRight(a, b, d, n, at, outs, k, j - |a|);
      }
    }
    forall j | 0 <= j <= |a + b|
      ensures 0 <= d + Pushed(a + b, j) && 0 <= Padded(a + b, j) <= 1
    {
      if j <= |a| {
        CountLeft(a, b, j);
      } else {
        CountRight(a, b, j - |a|);
      }
    }
    CountRight(a, b, |b|);
  }

  /** More ways out. */
  lemma Widen(seg: seq<Instr>, d: nat, at: int, outs: set<int>, outs2: set<int>, k: Links)
    requires Level(seg, d, at, outs, k) && outs <= outs2
    ensures Level(seg, d, at, outs2, k)
  {
    hide Pushed, Padded;
    forall j | 0 <= j < |seg|
      ensures LevelAt(seg, d, at, outs2, k, j)
    {
      assert LevelAt(seg, d, at, outs, k, j);
    }
  }

  /** `x` is a place inside `seg` where nothing is pushed. */
  predicate Ground(seg: seq<Instr>, at: int, x: int) {
    0 <= x - at <= |seg| && Pushed(seg, x - at) == 0 && Padded(seg, x - at) == 0
  }

  /** A way out that lies inside, where nothing is pushed, is no way out. */
  lemma CloseOuts(seg: seq<Instr>, d: nat, at: int, outs: set<int>, own: set<int>, k: Links)
    requires Level(seg, d, at, outs + own, k) && forall x :: x in own ==> Ground(seg, at, x)
    ensures Level(seg, d, at, outs, k)
  {
    hide Pushed, Padded;
    forall j | 0 <= j < |seg|
      ensures LevelAt(seg, d, at, outs, k, j)
    {
      assert LevelAt(seg, d, at, outs + own, k, j);
      if seg[j].J? && at + j + 1 + seg[j].rel in own {
        assert Ground(seg, at, at + j + 1 + seg[j].rel);
      }
    }
  }

  lemma GroundLeft(a: seq<Instr>, b: seq<Instr>, at: int, x: int)
    requires Ground(a, at, x)
    ensures Ground(a + b, at, x)
  {
    hide Pushed, Padded;
    CountLeft(a, b, x - at);
  }

  lemma GroundRight(a: seq<Instr>, b: seq<Instr>, at: int, x: int)
    requires Adds(a, 0) && Ground(b, at + |a|, x)
    ensures Ground(a + b, at, x)
  {
    hide Pushed, Padded;
    CountRight(a, b, x - at - |a|);
  }

  lemma GroundEnds(seg: seq<Instr>, at: int)
    ensures Ground(seg, at, at) && (Adds(seg, 0) ==> Ground(seg, at, at + |seg|))
  {
  }

  // ---- segments that only compute -----------------------------------------------------

  /** No jump, no call, and the stack stays where it is. */
  predicate Still(i: Instr) {
    Plain(i) && !i.J? && !i.CallRel? && !i.CallR11? && Pushes(i) == 0 && Pads(i) == 0
  }

  predicate AllStill(seg: seq<Instr>) { forall j :: 0 <= j < |seg| ==> Still(seg[j]) }

  lemma {:induction false} StillCount(seg: seq<Instr>, j: nat)
    requires AllStill(seg) && j <= |seg|
    ensures Pushed(seg, j) == 0 && Padded(seg, j) == 0
  {
    if j > 0 {
      StillCount(seg, j - 1);
      assert Still(seg[j - 1]);
    }
  }

  lemma StillLevel(seg: seq<Instr>, d: nat, at: int, outs: set<int>, k: Links)
    requires AllStill(seg)
    ensures Level(seg, d, at, outs, k) && Adds(seg, 0)
  {
    hide Pushed, Padded;
    forall j | 0 <= j <= |seg|
      ensures Pushed(seg, j) == 0 && Padded(seg, j) == 0
    {
      StillCount(seg, j);
    }
    forall j | 0 <= j < |seg|
      ensures LevelAt(seg, d, at, outs, k, j)
    {
      assert Still(seg[j]);
    }
  }

  /** One jump, to a way out. */
  lemma JumpLevel(cc: CC, to: int, d: nat, at: int, outs: set<int>, k: Links)
    requires to in outs || to == k.fuel || to == k.stack
    ensures Level([Far(cc, to, at)], d, at, outs, k) && Adds([Far(cc, to, at)], 0)
  {
    var seg := [Far(cc, to, at)];
    assert Pushed(seg, 0) == 0 && Padded(seg, 0) == 0;
    assert LevelAt(seg, d, at, outs, k, 0);
  }

  /** A test and a jump. */
  lemma TestLevel(i: Instr, cc: CC, to: int, d: nat, at: int, outs: set<int>, k: Links)
    requires Still(i) && (to in outs || to == k.fuel || to == k.stack)
    ensures Level([i, Far(cc, to, at + 1)], d, at, outs, k) && Adds([i, Far(cc, to, at + 1)], 0)
  {
    hide Level, Adds, Far;
    StillLevel([i], d, at, outs, k);
    JumpLevel(cc, to, d, at + 1, outs, k);
    Join([i], [Far(cc, to, at + 1)], d, 0, 0, at, outs, k);
    assert [i] + [Far(cc, to, at + 1)] == [i, Far(cc, to, at + 1)];
  }

  /** One word pushed. */
  lemma PushLevel(d: nat, at: int, k: Links)
    ensures Level([PushRax], d, at, {}, k) && Adds([PushRax], 1)
  {
    var seg := [PushRax];
    assert Pushed(seg, 0) == 0 && Padded(seg, 0) == 0;
    assert LevelAt(seg, d, at, {}, k, 0);
  }


  /** One word popped. */
  lemma PopLevel(x: Reg, d: nat, at: int, k: Links)
    requires d > 0
    ensures Level([Pop(x)], d, at, {}, k) && Adds([Pop(x)], -1)
  {
    var seg := [Pop(x)];
    assert Pushed(seg, 0) == 0 && Padded(seg, 0) == 0;
    assert LevelAt(seg, d, at, {}, k, 0);
  }

  lemma {:induction false} PopsLevel(n: nat, d: nat, at: int, k: Links)
    requires n <= d
    ensures Level(Pops(n), d, at, {}, k) && Adds(Pops(n), 0 - n)
    decreases n
  {
    hide Level, Adds;
    if n == 0 {
      StillLevel([], d, at, {}, k);
    } else {
      PopLevel(ArgReg(n - 1), d, at, k);
      PopsLevel(n - 1, d - 1, at + 1, k);
      Join([Pop(ArgReg(n - 1))], Pops(n - 1), d, -1, -(n - 1), at, {}, k);
    }
  }

  // ---- calls --------------------------------------------------------------------------------

  /** From the fuel check to the call, under the padding an odd depth needs. */
  function CallSeg(callee: Callee, n: nat, d: nat, at: int, k: Links): seq<Instr> {
    var c1 := Pad(d, SubRsp(8)) + [DecFuel];
    var c2 := c1 + [Far(S, k.fuel, at + |c1|)];
    c2 + CallCode(callee, n, at + |c2|, k) + Pad(d, AddRsp(8))
  }

  lemma CallLevel(w: World, callee: Callee, n: nat, d: nat, at: int, k: Links)
    requires |k.fn| == |w.funcs| && (callee.Unit? ==> callee.index < |w.funcs|)
    ensures Level(CallSeg(callee, n, d, at, k), d, at, {}, k) && Adds(CallSeg(callee, n, d, at, k), 0)
  {
    var seg := CallSeg(callee, n, d, at, k);
    if d % 2 == 1 {
      CallOdd(seg, callee, n, d, at, k);
    } else {
      CallEven(seg, callee, n, d, at, k);
    }
  }

  /** Padding around instructions that leave the stack alone. */
  lemma OddCount(mid: seq<Instr>)
    requires forall j :: 0 <= j < |mid| ==> Pushes(mid[j]) == 0 && Pads(mid[j]) == 0
    ensures var seg := [SubRsp(8)] + mid + [AddRsp(8)];
            forall j :: 0 <= j <= |seg| ==> Pushed(seg, j) == 0 && Padded(seg, j) == if 1 <= j <= |mid|
              + 1 then 1 else 0
  {
    var a, b := [SubRsp(8)], [AddRsp(8)];
    NoneCount(mid);
    assert Pushed(a, 1) == 0 && Padded(a, 1) == 1 && Pushed(b, 1) == 0 && Padded(b, 1) == -1;
    forall j | 0 <= j <= |mid| + 2
      ensures Pushed(a + mid + b, j) == 0 && Padded(a + mid + b, j) == if 1 <= j <= |mid| + 1 then 1 else 0
    {
      CountRight(a, mid, |mid|);
      if j == |mid| + 2 {
        CountRight(a + mid, b, 1);
      } else {
        CountLeft(a + mid, b, j);
        if j > 0 {
          CountRight(a, mid, j - 1);
        }
      }
    }
  }

  lemma CallOdd(seg: seq<Instr>, callee: Callee, n: nat, d: nat, at: int, k: Links)
    requires d % 2 == 1 && (callee.Unit? ==> callee.index < |k.fn|) && seg == CallSeg(callee, n, d, at, k)
    ensures Level(seg, d, at, {}, k) && Adds(seg, 0)
  {
    hide Pushed, Padded;
    var jump := Far(S, k.fuel, at + 2);
    if callee.Unit? {
      var mid := [DecFuel, jump, CallRel(k.fn[callee.index] - (at + 4))];
      assert seg == [SubRsp(8)] + mid + [AddRsp(8)];
      OddCount(mid);
    } else {
      var mid := [DecFuel, jump, MovR11Imm(callee.addr), CallR11(n)];
      assert seg == [SubRsp(8)] + mid + [AddRsp(8)];
      OddCount(mid);
    }
  }

  lemma CallEven(seg: seq<Instr>, callee: Callee, n: nat, d: nat, at: int, k: Links)
    requires d % 2 == 0 && (callee.Unit? ==> callee.index < |k.fn|) && seg == CallSeg(callee, n, d, at, k)
    ensures Level(seg, d, at, {}, k) && Adds(seg, 0)
  {
    hide Pushed, Padded;
    var jump := Far(S, k.fuel, at + 1);
    if callee.Unit? {
      var call := CallRel(k.fn[callee.index] - (at + 3));
      assert seg == [DecFuel, jump, call];
    } else {
      assert seg == [DecFuel, jump, MovR11Imm(callee.addr), CallR11(n)];
    }
    NoneCount(seg);
  }

  lemma NoneCount(seg: seq<Instr>)
    requires forall j :: 0 <= j < |seg| ==> Pushes(seg[j]) == 0 && Pads(seg[j]) == 0
    ensures forall j :: 0 <= j <= |seg| ==> Pushed(seg, j) == 0 && Padded(seg, j) == 0
  {
    forall j | 0 <= j <= |seg|
      ensures Pushed(seg, j) == 0 && Padded(seg, j) == 0
    {
      NoneCountTo(seg, j);
    }
  }

  lemma {:induction false} NoneCountTo(seg: seq<Instr>, j: nat)
    requires forall j :: 0 <= j < |seg| ==> Pushes(seg[j]) == 0 && Pads(seg[j]) == 0
    requires j <= |seg|
    ensures Pushed(seg, j) == 0 && Padded(seg, j) == 0
  {
    if j > 0 {
      NoneCountTo(seg, j - 1);
    }
  }

  // ---- expressions ------------------------------------------------------------------------------

  lemma NormStill(ty: Ty)
    ensures AllStill(Norm(ty)) && AllStill(LoadCode(ty))
  {
  }

  lemma SuffixStill(e: Expr)
    requires e.Load? || e.Cast? || e.Not? || e.BitNot? || e.Addr?
    ensures AllStill(Suffix(e))
  {
  }

  /** A segment, then instructions that only compute. */
  lemma ThenStill(a: seq<Instr>, b: seq<Instr>, d: nat, at: int, k: Links)
    requires Level(a, d, at, {}, k) && Adds(a, 0) && AllStill(b)
    ensures Level(a + b, d, at, {}, k) && Adds(a + b, 0)
  {
    hide Level, Adds;
    StillLevel(b, d, at + |a|, {}, k);
    Join(a, b, d, 0, 0, at, {}, k);
  }

  /** One operand waits on the stack while the other is computed. */
  lemma PairLevel(c1: seq<Instr>, c2: seq<Instr>, c3: seq<Instr>, d: nat, at: int, k: Links)
    requires Level(c1, d, at, {}, k) && Adds(c1, 0) && AllStill(c3)
    requires Level(c2, d + 1, at + |c1| + 1, {}, k) && Adds(c2, 0)
    ensures var c := c1 + [PushRax] + c2 + [Pop(Rdi)] + c3; Level(c, d, at, {}, k) && Adds(c, 0)
  {
    hide Level, Adds;
    var p1, p2 := [PushRax], [Pop(Rdi)];
    PushLevel(d, at + |c1|, k);
    Join(c1, p1, d, 0, 1, at, {}, k);
    Join(c1 + p1, c2, d, 1, 0, at, {}, k);
    PopLevel(Rdi, d + 1, at + |c1 + p1 + c2|, k);
    Join(c1 + p1 + c2, p2, d, 1, -1, at, {}, k);
    ThenStill(c1 + p1 + c2 + p2, c3, d, at, k);
  }

  lemma {:induction false} LevelE(w: World, e: Expr, d: nat, at: int, k: Links)
    requires WellTyped(w, e) && |k.fn| == |w.funcs|
    ensures Level(GenE(e, d, at, k), d, at, {}, k) && Adds(GenE(e, d, at, k), 0)
    decreases e, 1
  {
    hide GenE, GenL, GenA, Level, Adds, AllStill, Norm, BinCode, CmpCode, LoadCode, Suffix, Enter, Fits;
    if e.Num? {
      LevelNum(e, d, at, k);
    } else if e.Load? || e.Addr? || e.Cast? || e.Not? || e.BitNot? {
      var c1 := CodeUnary(e, d, at, k);
      if e.Load? || e.Addr? {
        LevelL(w, e.lv, d, at, k);
      } else {
        LevelE(w, e.e, d, at, k);
      }
      SuffixStill(e);
      ThenStill(c1, Suffix(e), d, at, k);
    } else if e.Assign? {
      var c1, c2 := CodeAssign(e, d, at, k);
      LevelL(w, e.lv, d, at, k);
      LevelE(w, e.rhs, d + 1, at + |c1| + 1, k);
      StoreStill(e.ty.w);
      PairLevel(c1, c2, [StoreRdi(e.ty.w)], d, at, k);
    } else if e.Bin? {
      var c1, c2 := CodeBin(e, d, at, k);
      LevelE(w, e.r, d, at, k);
      LevelE(w, e.l, d + 1, at + |c1| + 1, k);
      BinStill(e.op, e.ty);
      PairLevel(c1, c2, BinCode(e.op, e.ty) + Norm(e.ty), d, at, k);
    } else if e.Cmp? {
      var c1, c2 := CodeCmp(e, d, at, k);
      LevelE(w, e.r, d, at, k);
      LevelE(w, e.l, d + 1, at + |c1| + 1, k);
      CmpStill(e.cmp, ETy(e.l));
      PairLevel(c1, c2, CmpCode(e.cmp, ETy(e.l)), d, at, k);
    } else if e.Comma? {
      var c1, c2 := CodeComma(e, d, at, k);
      LevelE(w, e.l, d, at, k);
      LevelE(w, e.r, d, at + |c1|, k);
      Join(c1, c2, d, 0, 0, at, {}, k);
    } else if e.Call? {
      LevelCall(w, e, d, at, k);
    } else {
      LevelBranch(w, e, d, at, k);
    }
  }

  lemma LevelNum(e: Expr, d: nat, at: int, k: Links)
    requires e.Num?
    ensures Level(GenE(e, d, at, k), d, at, {}, k) && Adds(GenE(e, d, at, k), 0)
  {
    hide Level, Adds, Enc;
    StillLevel(GenE(e, d, at, k), d, at, {}, k);
  }

  lemma StoreStill(w: Width)
    ensures AllStill([StoreRdi(w)])
  {
  }

  lemma BinStill(op: BinOp, ty: Ty)
    ensures AllStill(BinCode(op, ty) + Norm(ty))
  {
  }

  lemma CmpStill(cmp: CmpOp, ty: Ty)
    ensures AllStill(CmpCode(cmp, ty))
  {
  }

  /** && || and ?: with the place both ways meet at. */
  lemma LevelBranch(w: World, e: Expr, d: nat, at: int, k: Links)
    requires (e.LogAnd? || e.LogOr? || e.Cond?) && WellTyped(w, e) && |k.fn| == |w.funcs|
    ensures Level(GenE(e, d, at, k), d, at, {}, k) && Adds(GenE(e, d, at, k), 0)
    decreases e, 0
  {
    hide GenE, Level, Adds, BoolCode, Fits;
    if e.Cond? {
      var c1, c2, c3 := CodeCond(e, d, at, k);
      LevelE(w, e.c, d, at, k);
      LevelE(w, e.t, d, at + |c1| + 2, k);
      LevelE(w, e.f, d, at + |c1| + |c2| + 3, k);
      ForkLevel(c1, c2, c3, Z, d, at, {}, k);
    } else {
      var c1, c2 := CodeLog(e, d, at, k);
      LevelE(w, e.l, d, at, k);
      LevelE(w, e.r, d, at + |c1| + 2, k);
      LogLevel(c1, c2, e.LogOr?, d, at, k);
    }
  }

  /** A test that skips `c2` for `c3`. */
  lemma ForkLevel(c1: seq<Instr>, c2: seq<Instr>, c3: seq<Instr>, cc: CC, d: nat, at: int, outs: set<int>, k: Links)
    requires Level(c1, d, at, outs, k) && Adds(c1, 0)
    requires Level(c2, d, at + |c1| + 2, outs, k) && Adds(c2, 0)
    requires Level(c3, d, at + |c1| + |c2| + 3, outs, k) && Adds(c3, 0)
    ensures var c := c1 + [TestRax, J(cc, |c2| + 1)] + c2 + [J(Always, |c3|)] + c3;
            Level(c, d, at, outs, k) && Adds(c, 0)
  {
    hide Level, Adds, Ground;
    var lelse := at + |c1| + |c2| + 3;
    var lend := lelse + |c3|;
    var all := outs + {lelse, lend};
    var t1, t2 := [TestRax, J(cc, |c2| + 1)], [J(Always, |c3|)];
    Widen(c1, d, at, outs, all, k);
    Widen(c2, d, at + |c1| + 2, outs, all, k);
    Widen(c3, d, lelse, outs, all, k);
    TestLevel(TestRax, cc, lelse, d, at + |c1|, all, k);
    assert Far(cc, lelse, at + |c1| + 1) == t1[1];
    Join(c1, t1, d, 0, 0, at, all, k);
    Join(c1 + t1, c2, d, 0, 0, at, all, k);
    JumpLevel(Always, lend, d, lelse - 1, all, k);
    assert Far(Always, lend, lelse - 1) == t2[0];
    Join(c1 + t1 + c2, t2, d, 0, 0, at, all, k);
    var a := c1 + t1 + c2 + t2;
    GroundEnds(a, at);
    GroundLeft(a, c3, at, lelse);
    Join(a, c3, d, 0, 0, at, all, k);
    GroundEnds(a + c3, at);
    CloseOuts(a + c3, d, at, outs, {lelse, lend}, k);
  }

  lemma LogLevel(c1: seq<Instr>, c2: seq<Instr>, or: bool, d: nat, at: int, k: Links)
    requires Level(c1, d, at, {}, k) && Adds(c1, 0)
    requires Level(c2, d, at + |c1| + 2, {}, k) && Adds(c2, 0)
    ensures var c := c1 + [TestRax, J(if or then NZ else Z, |c2| + 4)] + c2 + BoolCode(or);
            Level(c, d, at, {}, k) && Adds(c, 0)
  {
    hide Level, Adds, Ground;
    var cc := if or then NZ else Z;
    var b := at + |c1| + |c2| + 2;
    var x := b + 4;
    var t1 := [TestRax, J(cc, |c2| + 4)];
    Widen(c1, d, at, {}, {x}, k);
    Widen(c2, d, at + |c1| + 2, {}, {x}, k);
    TestLevel(TestRax, cc, x, d, at + |c1|, {x}, k);
    assert Far(cc, x, at + |c1| + 1) == t1[1];
    Join(c1, t1, d, 0, 0, at, {x}, k);
    Join(c1 + t1, c2, d, 0, 0, at, {x}, k);
    BoolLevel(or, d, b, {x}, k);
    var a := c1 + t1 + c2;
    Join(a, BoolCode(or), d, 0, 0, at, {x}, k);
    GroundRight(a, BoolCode(or), at, x);
    var none: set<int> := {};
    assert none + {x} == {x};
    CloseOuts(a + BoolCode(or), d, at, none, {x}, k);
  }

  lemma BoolLevel(or: bool, d: nat, at: int, outs: set<int>, k: Links)
    ensures Level(BoolCode(or), d, at, outs, k) && Adds(BoolCode(or), 0) && Ground(BoolCode(or), at, at + 4)
  {
    hide Pushed, Padded;
    NoneCount(BoolCode(or));
  }

  lemma EnterParts(callee: Callee, ty: Ty, n: nat, d: nat, at: int, k: Links)
    ensures Enter(callee, ty, n, d, at, k) == Pops(n) + CallSeg(callee, n, d, at + |Pops(n)|, k) + Norm(ty)
  {
    hide Pops, Norm;
  }

  lemma LevelCall(w: World, e: Expr, d: nat, at: int, k: Links)
    requires e.Call? && WellTyped(w, e) && |k.fn| == |w.funcs|
    ensures Level(GenE(e, d, at, k), d, at, {}, k) && Adds(GenE(e, d, at, k), 0)
    decreases e, 0
  {
    hide GenE, GenA, Level, Adds, Pops, Norm, Enter, CallSeg, AllStill;
    var c1, c2 := CodeCall(e, d, at, k);
    var n := Count(e.args);
    var taken: int := n;
    LevelA(w, e.args, d, at, k);
    EnterParts(e.callee, e.ty, n, d, at + |c1|, k);
    var a1 := at + |c1| + |Pops(n)|;
    var mid := CallSeg(e.callee, n, d, a1, k);
    PopsLevel(n, d + n, at + |c1|, k);
    Join(c1, Pops(n), d, n, -taken, at, {}, k);
    CallLevel(w, e.callee, n, d, a1, k);
    Join(c1 + Pops(n), mid, d, 0, 0, at, {}, k);
    NormStill(e.ty);
    ThenStill(c1 + Pops(n) + mid, Norm(e.ty), d, at, k);
    assert c1 + c2 == c1 + Pops(n) + mid + Norm(e.ty);
  }

  lemma {:induction false} LevelL(w: World, lv: LVal, d: nat, at: int, k: Links)
    requires WellTypedL(w, lv) && |k.fn| == |w.funcs|
    ensures Level(GenL(lv, d, at, k), d, at, {}, k) && Adds(GenL(lv, d, at, k), 0)
    decreases lv, 1
  {
    hide GenE, Level, Adds, Enc;
    match lv
    case Local(_) => StillLevel(GenL(lv, d, at, k), d, at, {}, k);
    case Global(_) => StillLevel(GenL(lv, d, at, k), d, at, {}, k);
    case Deref(e) => LevelE(w, e, d, at, k);
    case Member(x, off) =>
      LevelL(w, x, d, at, k);
      ThenStill(GenL(x, d, at, k), if off == 0 then [] else [AddRaxImm(off)], d, at, k);
    case CommaL(e, x) =>
      LevelE(w, e, d, at, k);
      var c1 := GenE(e, d, at, k);
      LevelL(w, x, d, at + |c1|, k);
      Join(c1, GenL(x, d, at + |c1|, k), d, 0, 0, at, {}, k);
  }

  lemma {:induction false} LevelA(w: World, args: Args, d: nat, at: int, k: Links)
    requires WellTypedA(w, args) && |k.fn| == |w.funcs|
    ensures Level(GenA(args, d, at, k), d, at, {}, k) && Adds(GenA(args, d, at, k), Count(args))
    decreases args, 1
  {
    hide GenE, Level, Adds;
    match args
    case NoArgs => StillLevel([], d, at, {}, k);
    case Arg(e, rest) =>
      LevelE(w, e, d, at, k);
      var c1 := GenE(e, d, at, k);
      PushLevel(d, at + |c1|, k);
      Join(c1, [PushRax], d, 0, 1, at, {}, k);
      var c2 := GenA(rest, d + 1, at + |c1| + 1, k);
      LevelA(w, rest, d + 1, at + |c1| + 1, k);
      Join(c1 + [PushRax], c2, d, 1, Count(rest), at, {}, k);
  }

  // ---- statements ------------------------------------------------------------------------------

  /** Where a statement may jump to outside itself. */
  function Ways(x: Exits, brk: bool, cont: bool): set<int> {
    {x.epi} + (if brk then {x.brk} else {}) + (if cont then {x.cont} else {})
  }

  /** A statement's code is level, leaves nothing on the stack, and has nothing on
      it at any of its case labels. */
  ghost predicate LevelStmt(s: Stmt, at: int, k: Links, x: Exits, outs: set<int>) {
    var c := GenS(s, at, k, x);
    Level(c, 0, at, outs, k) && Adds(c, 0) && forall key :: key in Cases(s) ==> Ground(c, at, at + CaseOff(s, key))
  }

  lemma Grow(e: Expr, w: World, at: int, k: Links, outs: set<int>)
    requires WellTyped(w, e) && |k.fn| == |w.funcs|
    ensures Level(GenE(e, 0, at, k), 0, at, outs, k) && Adds(GenE(e, 0, at, k), 0)
  {
    hide Level, Adds, GenE, WellTyped;
    LevelE(w, e, 0, at, k);
    Widen(GenE(e, 0, at, k), 0, at, {}, outs, k);
  }

  lemma LevelO(w: World, c: Option<Expr>, at: int, k: Links, outs: set<int>)
    requires (c.Some? ==> WellTyped(w, c.value)) && |k.fn| == |w.funcs|
    ensures Level(GenO(c, at, k), 0, at, outs, k) && Adds(GenO(c, at, k), 0)
  {
    hide Level, Adds, GenE, WellTyped;
    if c.Some? {
      Grow(c.value, w, at, k, outs);
    } else {
      StillLevel([], 0, at, outs, k);
    }
  }

  lemma LevelTest(w: World, c: Option<Expr>, when: bool, lend: int, at: int, k: Links, outs: set<int>)
    requires (c.Some? ==> WellTyped(w, c.value)) && |k.fn| == |w.funcs| && lend in outs
    ensures Level(GenTest(c, when, lend, at, k), 0, at, outs, k) && Adds(GenTest(c, when, lend, at, k), 0)
  {
    hide Level, Adds, GenE, WellTyped, Far;
    if when && c.Some? {
      var c1 := GenE(c.value, 0, at, k);
      Grow(c.value, w, at, k, outs);
      TestLevel(TestRax, Z, lend, 0, at + |c1|, outs, k);
      Join(c1, [TestRax, Far(Z, lend, at + |c1| + 1)], 0, 0, 0, at, outs, k);
    } else {
      StillLevel([], 0, at, outs, k);
    }
  }

  lemma {:induction false} ChunksStill(n: nat, size: nat)
    ensures AllStill(ZeroChunks(n, size))
    decreases size - n
  {
    if n < size {
      ChunksStill(n + Chunk(size - n), size);
    }
  }

  lemma LevelZero(size: nat, d: nat, at: int, outs: set<int>, k: Links)
    ensures Level(ZeroCode(size), d, at, outs, k) && Adds(ZeroCode(size), 0)
  {
    hide Pushed, Padded, Enc, ZeroChunks;
    if size <= 64 {
      ChunksStill(0, size);
      StillLevel(ZeroCode(size), d, at, outs, k);
    } else {
      NoneCount(ZeroCode(size));
    }
  }

  /** The labels the compare chain and the default jump go to. */
  function Aims(keys: seq<int>, b: Stmt, body: int): set<int> {
    set i | 0 <= i < |keys| :: body + CaseOff(b, CaseOf(keys[i]))
  }

  lemma {:induction false} LevelChain(keys: seq<int>, b: Stmt, body: int, at: int, outs: set<int>, k: Links)
    requires Aims(keys, b, body) <= outs
    ensures Level(Chain(keys, b, body, at), 0, at, outs, k) && Adds(Chain(keys, b, body, at), 0)
    decreases |keys|
  {
    hide Level, Adds, CaseOff, Enc, Far;
    if keys == [] {
      StillLevel([], 0, at, outs, k);
    } else {
      var to := body + CaseOff(b, CaseOf(keys[0]));
      assert to in Aims(keys, b, body);
      forall x | x in Aims(keys[1..], b, body)
        ensures x in outs
      {
        var i :| 0 <= i < |keys[1..]| && x == body + CaseOff(b, CaseOf(keys[1..][i]));
        assert x == body + CaseOff(b, CaseOf(keys[i + 1]));
        assert x in Aims(keys, b, body);
      }
      LevelChain(keys[1..], b, body, at + 3, outs, k);
      var a, t := [MovR11Imm(Enc(keys[0]))], [CmpRaxR11, Far(Z, to, at + 2)];
      StillLevel(a, 0, at, outs, k);
      TestLevel(CmpRaxR11, Z, to, 0, at + 1, outs, k);
      Join(a, t, 0, 0, 0, at, outs, k);
      Join(a + t, Chain(keys[1..], b, body, at + 3), 0, 0, 0, at, outs, k);
      assert a + t == [MovR11Imm(Enc(keys[0])), CmpRaxR11, Far(Z, to, at + 2)];
    }
  }

  lemma {:induction false} LevelS(w: World, s: Stmt, at: int, k: Links, x: Exits, ret: Ty, brk: bool, cont: bool)
    requires WellFormed(w, s, ret, brk, cont) && |k.fn| == |w.funcs|
    ensures LevelStmt(s, at, k, x, Ways(x, brk, cont))
    decreases s, 1
  {
    hide Level, Adds, GenE, WellTyped, Ground, ZeroCode, Far, CaseOff, Cases;
    var outs := Ways(x, brk, cont);
    match s
    case Nop => LevelPlain(s, at, k, x, outs);
    case Seq(_, _) => LevelSeq(w, s, at, k, x, ret, brk, cont);
    case Eval(e) =>
      Grow(e, w, at, k, outs);
      NoCases(s, at, k, x);
    case MemZero(off, n) =>
      StillLevel([LeaRaxRbp(off)], 0, at, outs, k);
      LevelZero(n, 0, at + 1, outs, k);
      Join([LeaRaxRbp(off)], ZeroCode(n), 0, 0, 0, at, outs, k);
      NoCases(s, at, k, x);
    case Return(r) =>
      var c1 := CodeReturn(s, at, k, x);
      LevelO(w, r, at, k, outs);
      JumpLevel(Always, x.epi, 0, at + |c1|, outs, k);
      Join(c1, [Far(Always, x.epi, at + |c1|)], 0, 0, 0, at, outs, k);
      NoCases(s, at, k, x);
    case If(_, _, _) => LevelIf(w, s, at, k, x, ret, brk, cont);
    case Loop(_, _, _, _) => LevelLoop(w, s, at, k, x, ret, brk, cont);
    case Break => LevelPlain(s, at, k, x, outs);
    case Continue => LevelPlain(s, at, k, x, outs);
    case Case(key, b) =>
      LevelS(w, b, at, k, x, ret, brk, cont);
      CaseGround(s, at, k, x, outs);
    case Switch(_, _, _, _) => LevelSwitch(w, s, at, k, x, ret, brk, cont);
  }

  lemma NoCases(s: Stmt, at: int, k: Links, x: Exits)
    requires s.Eval? || s.MemZero? || s.Return?
    ensures Cases(s) == {}
  {
  }

  lemma LevelPlain(s: Stmt, at: int, k: Links, x: Exits, outs: set<int>)
    requires s.Nop? || (s.Break? && x.brk in outs) || (s.Continue? && x.cont in outs)
    ensures LevelStmt(s, at, k, x, outs)
  {
    hide Level, Adds, Ground, Far;
    match s
    case Nop => StillLevel([], 0, at, outs, k);
    case Break => JumpLevel(Always, x.brk, 0, at, outs, k);
    case Continue => JumpLevel(Always, x.cont, 0, at, outs, k);
  }

  lemma CaseGround(s: Stmt, at: int, k: Links, x: Exits, outs: set<int>)
    requires s.Case? && LevelStmt(s.body, at, k, x, outs)
    ensures LevelStmt(s, at, k, x, outs)
  {
    hide Level, Adds, Ground;
    var c := GenS(s.body, at, k, x);
    assert GenS(s, at, k, x) == c;
    GroundEnds(c, at);
    forall key | key in Cases(s)
      ensures Ground(c, at, at + CaseOff(s, key))
    {
      if key != s.key {
        assert key in Cases(s.body) && CaseOff(s, key) == CaseOff(s.body, key);
      }
    }
  }

  lemma LevelSeq(w: World, s: Stmt, at: int, k: Links, x: Exits, ret: Ty, brk: bool, cont: bool)
    requires s.Seq? && WellFormed(w, s, ret, brk, cont) && |k.fn| == |w.funcs|
    ensures LevelStmt(s, at, k, x, Ways(x, brk, cont))
    decreases s, 0
  {
    hide Level, Adds, Ground, GenS, SizeS;
    var c1, c2 := CodeSeq(s, at, k, x);
    var outs := Ways(x, brk, cont);
    LevelS(w, s.s1, at, k, x, ret, brk, cont);
    LevelS(w, s.s2, at + |c1|, k, x, ret, brk, cont);
    Join(c1, c2, 0, 0, 0, at, outs, k);
    forall key | key in Cases(s)
      ensures Ground(c1 + c2, at, at + CaseOff(s, key))
    {
      if key in Cases(s.s1) {
        GroundLeft(c1, c2, at, at + CaseOff(s.s1, key));
      } else {
        GroundRight(c1, c2, at, at + |c1| + CaseOff(s.s2, key));
      }
    }
  }

  lemma LevelIf(w: World, s: Stmt, at: int, k: Links, x: Exits, ret: Ty, brk: bool, cont: bool)
    requires s.If? && WellFormed(w, s, ret, brk, cont) && |k.fn| == |w.funcs|
    ensures LevelStmt(s, at, k, x, Ways(x, brk, cont))
    decreases s, 0
  {
    hide Level, Adds, Ground, GenS, SizeS, GenE, SizeE, WellTyped, CaseOff, Cases, LevelStmt;
    var outs := Ways(x, brk, cont);
    Grow(s.c, w, at, k, outs);
    var n := |GenE(s.c, 0, at, k)|;
    LevelS(w, s.t, at + n + 2, k, x, ret, brk, cont);
    if s.f.Some? {
      var c1, c2, c3 := CodeIf(s, at, k, x);
      LevelS(w, s.f.value, at + n + 2 + |c2| + 1, k, x, ret, brk, cont);
      IfBoth(s, at, k, x, outs, c1, c2, c3);
    } else {
      var c1, c2 := CodeWhen(s, at, k, x);
      IfOnly(s, at, k, x, outs, c1, c2);
    }
  }

  lemma IfBoth(s: Stmt, at: int, k: Links, x: Exits, outs: set<int>, c1: seq<Instr>, c2: seq<Instr>, c3: seq<Instr>)
    requires s.If? && s.f.Some? && |c1| == SizeE(s.c, 0) && |c2| == SizeS(s.t)
    requires Level(c1, 0, at, outs, k) && Adds(c1, 0)
    requires c2 == GenS(s.t, at + |c1| + 2, k, x) && LevelStmt(s.t, at + |c1| + 2, k, x, outs)
    requires c3 == GenS(s.f.value, at + |c1| + 2 + |c2| + 1, k, x)
    requires LevelStmt(s.f.value, at + |c1| + 2 + |c2| + 1, k, x, outs)
    requires GenS(s, at, k, x) == c1 + [TestRax, J(Z, |c2| + 1)] + c2 + [J(Always, |c3|)] + c3
    ensures LevelStmt(s, at, k, x, outs)
  {
    hide Level, Ground, GenS, SizeS, SizeE;
    ForkLevel(c1, c2, c3, Z, 0, at, outs, k);
    var t1, t2 := [TestRax, J(Z, |c2| + 1)], [J(Always, |c3|)];
    var a := c1 + t1;
    AddsTwo(c1, t1);
    AddsTwo(a, c2);
    AddsTwo(a + c2, t2);
    forall key | key in Cases(s)
      ensures Ground(a + c2 + t2 + c3, at, at + CaseOff(s, key))
    {
      if key in Cases(s.t) {
        GroundRight(a, c2, at, at + |a| + CaseOff(s.t, key));
        GroundLeft(a + c2, t2, at, at + |a| + CaseOff(s.t, key));
        GroundLeft(a + c2 + t2, c3, at, at + |a| + CaseOff(s.t, key));
      } else {
        GroundRight(a + c2 + t2, c3, at, at + |a + c2 + t2| + CaseOff(s.f.value, key));
      }
    }
  }

  lemma AddsTwo(a: seq<Instr>, b: seq<Instr>)
    requires Adds(a, 0) && (Adds(b, 0) || forall j :: 0 <= j < |b| ==> Pushes(b[j]) == 0 && Pads(b[j]) == 0)
    ensures Adds(a + b, 0)
  {
    hide Pushed, Padded;
    if !Adds(b, 0) {
      NoneCount(b);
    }
    CountRight(a, b, |b|);
  }

  lemma IfOnly(s: Stmt, at: int, k: Links, x: Exits, outs: set<int>, c1: seq<Instr>, c2: seq<Instr>)
    requires s.If? && s.f.None? && |c1| == SizeE(s.c, 0)
    requires Level(c1, 0, at, outs, k) && Adds(c1, 0)
    requires c2 == GenS(s.t, at + |c1| + 2, k, x) && LevelStmt(s.t, at + |c1| + 2, k, x, outs)
    requires GenS(s, at, k, x) == c1 + [TestRax, J(Z, |c2|)] + c2
    ensures LevelStmt(s, at, k, x, outs)
  {
    hide Level, Ground, Adds, GenS, SizeE;
    var t1 := [TestRax, J(Z, |c2|)];
    var lend := at + |c1| + 2 + |c2|;
    Widen(c1, 0, at, outs, outs + {lend}, k);
    Widen(c2, 0, at + |c1| + 2, outs, outs + {lend}, k);
    TestLevel(TestRax, Z, lend, 0, at + |c1|, outs + {lend}, k);
    assert Far(Z, lend, at + |c1| + 1) == t1[1];
    Join(c1, t1, 0, 0, 0, at, outs + {lend}, k);
    Join(c1 + t1, c2, 0, 0, 0, at, outs + {lend}, k);
    GroundEnds(c1 + t1 + c2, at);
    CloseOuts(c1 + t1 + c2, 0, at, outs, {lend}, k);
    forall key | key in Cases(s)
      ensures Ground(c1 + t1 + c2, at, at + CaseOff(s, key))
    {
      GroundRight(c1 + t1, c2, at, at + |c1 + t1| + CaseOff(s.t, key));
    }
  }

  lemma LevelLoop(w: World, s: Stmt, at: int, k: Links, x: Exits, ret: Ty, brk: bool, cont: bool)
    requires s.Loop? && WellFormed(w, s, ret, brk, cont) && |k.fn| == |w.funcs|
    ensures LevelStmt(s, at, k, x, Ways(x, brk, cont))
    decreases s, 0
  {
    hide Level, Adds, Ground, GenS, SizeS, GenE, SizeE, WellTyped, CaseOff, Cases, GenTest, GenO, SizeTest, SizeO,
      LevelStmt;
    var m := LoopMarks(s, at);
    var c1, c2, c3, c4, c5 := CodeLoop(s, at, k, x);
    var y := Exits(m.end, m.cont, x.epi);
    var own := {at, m.cont, m.end};
    var all := Ways(x, brk, cont) + own;
    LevelS(w, s.body, m.body, k, y, ret, true, true);
    LevelTest(w, s.cond, s.testFirst, m.end, at, k, all);
    LevelO(w, s.post, m.cont, k, all);
    LevelTest(w, s.cond, !s.testFirst, m.end, m.test, k, all);
    BackLevel(at, m.back, k, all);
    BodyWider(s.body, m.body, k, y, Ways(y, true, true), all);
    LoopJoin(s, at, k, x, Ways(x, brk, cont), all, c1, c2, c3, c4, c5);
  }

  lemma BodyWider(b: Stmt, at: int, k: Links, y: Exits, outs: set<int>, all: set<int>)
    requires LevelStmt(b, at, k, y, outs) && outs <= all
    ensures LevelStmt(b, at, k, y, all)
  {
    hide Level, Adds, Ground, GenS, CaseOff, Cases;
    Widen(GenS(b, at, k, y), 0, at, outs, all, k);
  }

  lemma BackLevel(top: int, at: int, k: Links, outs: set<int>)
    requires top in outs
    ensures var c := [DecFuel, Far(S, k.fuel, at + 1), Far(Always, top, at + 2)]; Level(c, 0, at, outs, k) && Adds(c, 0)
  {
    hide Level, Adds, Far;
    TestLevel(DecFuel, S, k.fuel, 0, at, outs, k);
    JumpLevel(Always, top, 0, at + 2, outs, k);
    Join([DecFuel, Far(S, k.fuel, at + 1)], [Far(Always, top, at + 2)], 0, 0, 0, at, outs, k);
    assert [DecFuel, Far(S, k.fuel, at + 1)] + [Far(Always, top, at + 2)]
        == [DecFuel, Far(S, k.fuel, at + 1), Far(Always, top, at + 2)];
  }

  lemma LoopJoin(s: Stmt, at: int, k: Links, x: Exits, outs: set<int>, all: set<int>,
                 c1: seq<Instr>, c2: seq<Instr>, c3: seq<Instr>, c4: seq<Instr>, c5: seq<Instr>)
    requires s.Loop? && at + |c1| == LoopMarks(s, at).body && LoopMarks(s, at).body + |c2| == LoopMarks(s, at).cont
    requires LoopMarks(s, at).end == at + |c1 + c2 + c3 + c4 + c5|
    requires all == outs + {at, LoopMarks(s, at).cont, LoopMarks(s, at).end}
    requires var y := Exits(LoopMarks(s, at).end, LoopMarks(s, at).cont, x.epi);
             c2 == GenS(s.body, at + |c1|, k, y) && LevelStmt(s.body, at + |c1|, k, y, all)
    requires Level(c1, 0, at, all, k) && Adds(c1, 0)
    requires Level(c3, 0, at + |c1 + c2|, all, k) && Adds(c3, 0)
    requires Level(c4, 0, at + |c1 + c2 + c3|, all, k) && Adds(c4, 0)
    requires Level(c5, 0, at + |c1 + c2 + c3 + c4|, all, k) && Adds(c5, 0)
    requires GenS(s, at, k, x) == c1 + c2 + c3 + c4 + c5
    ensures LevelStmt(s, at, k, x, outs)
  {
    hide Level, Adds, Ground, GenS, SizeS, CaseOff, Cases, SizeTest, SizeO;
    var m := LoopMarks(s, at);
    Join(c1, c2, 0, 0, 0, at, all, k);
    Join(c1 + c2, c3, 0, 0, 0, at, all, k);
    Join(c1 + c2 + c3, c4, 0, 0, 0, at, all, k);
    Join(c1 + c2 + c3 + c4, c5, 0, 0, 0, at, all, k);
    var c := c1 + c2 + c3 + c4 + c5;
    GroundEnds(c, at);
    GroundEnds(c1 + c2, at);
    ThreeOn(c1 + c2, c3, c4, c5, at, m.cont);
    CloseOuts(c, 0, at, outs, {at, m.cont, m.end}, k);
    forall key | key in Cases(s)
      ensures Ground(c, at, at + CaseOff(s, key))
    {
      LoopCases(s, key);
      GroundRight(c1, c2, at, at + |c1| + CaseOff(s.body, key));
      ThreeOn(c1 + c2, c3, c4, c5, at, at + CaseOff(s, key));
    }
  }

  lemma LoopCases(s: Stmt, key: Key)
    requires s.Loop? && key in Cases(s)
    ensures key in Cases(s.body) && CaseOff(s, key) == SizeTest(s.cond, s.testFirst) + CaseOff(s.body, key)
  {
    hide SizeTest;
  }

  lemma ThreeOn(a: seq<Instr>, b: seq<Instr>, c: seq<Instr>, d: seq<Instr>, at: int, x: int)
    requires Ground(a, at, x)
    ensures Ground(a + b + c + d, at, x)
  {
    hide Ground;
    GroundLeft(a, b, at, x);
    GroundLeft(a + b, c, at, x);
    GroundLeft(a + b + c, d, at, x);
  }

  lemma LevelSwitch(w: World, s: Stmt, at: int, k: Links, x: Exits, ret: Ty, brk: bool, cont: bool)
    requires s.Switch? && WellFormed(w, s, ret, brk, cont) && |k.fn| == |w.funcs|
    ensures LevelStmt(s, at, k, x, Ways(x, brk, cont))
    decreases s, 0
  {
    hide Level, Adds, Ground, GenS, SizeS, GenE, SizeE, WellTyped, CaseOff, Chain, LevelStmt, Far, Aims, DistinctCases,
      Fits, ETy;
    var c1, c2, c4 := CodeSwitch(s, at, k, x);
    var a2 := at + |c1| + |c2|;
    var lend := a2 + 1 + |c4|;
    var y := Exits(lend, x.cont, x.epi);
    var to := if s.dflt then a2 + 1 + CaseOff(s.body, Default) else lend;
    var own := Aims(s.keys, s.body, a2 + 1) + {to, lend};
    var all := Ways(x, brk, cont) + own;
    Grow(s.c, w, at, k, all);
    LevelChain(s.keys, s.body, a2 + 1, at + |c1|, all, k);
    JumpLevel(Always, to, 0, a2, all, k);
    LevelS(w, s.body, a2 + 1, k, y, ret, true, cont);
    BodyWider(s.body, a2 + 1, k, y, Ways(y, true, cont), all);
    SwitchJoin(s, at, k, x, Ways(x, brk, cont), y, c1, c2, c4);
  }

  lemma SwitchJoin(s: Stmt, at: int, k: Links, x: Exits, outs: set<int>, y: Exits, c1: seq<Instr>, c2: seq<Instr>,
                   c4: seq<Instr>)
    requires s.Switch? && (forall v :: v in s.keys ==> HasCase(s.body, CaseOf(v)))
    requires (s.dflt ==> HasCase(s.body, Default))
    requires var a2 := at + |c1| + |c2|;
             var lend := a2 + 1 + |c4|;
             var to := if s.dflt then a2 + 1 + CaseOff(s.body, Default) else lend;
             var all := outs + (Aims(s.keys, s.body, a2 + 1) + {to, lend});
             && Level(c1, 0, at, all, k) && Adds(c1, 0)
             && Level(c2, 0, at + |c1|, all, k) && Adds(c2, 0)
             && Level([Far(Always, to, a2)], 0, a2, all, k) && Adds([Far(Always, to, a2)], 0)
             && c4 == GenS(s.body, a2 + 1, k, y) && LevelStmt(s.body, a2 + 1, k, y, all)
             && GenS(s, at, k, x) == c1 + c2 + [Far(Always, to, a2)] + c4
    ensures LevelStmt(s, at, k, x, outs)
  {
    hide Level, Adds, Ground, GenS, CaseOff, Far;
    var a2 := at + |c1| + |c2|;
    var lend := a2 + 1 + |c4|;
    var to := if s.dflt then a2 + 1 + CaseOff(s.body, Default) else lend;
    var own := Aims(s.keys, s.body, a2 + 1) + {to, lend};
    var j := [Far(Always, to, a2)];
    Join(c1, c2, 0, 0, 0, at, outs + own, k);
    Join(c1 + c2, j, 0, 0, 0, at, outs + own, k);
    Join(c1 + c2 + j, c4, 0, 0, 0, at, outs + own, k);
    var c := c1 + c2 + j + c4;
    GroundEnds(c, at);
    forall z | z in own
      ensures Ground(c, at, z)
    {
      if z != lend {
        GroundRight(c1 + c2 + j, c4, at, z);
      }
    }
    CloseOuts(c, 0, at, outs, own, k);
  }

  // ---- functions ---------------------------------------------------------------------------------

  /** The instructions that set up a frame. */
  function Head(f: Func): seq<Instr> {
    [PushRbp, MovRbpRsp] + (if f.frame > 0 then [SubRsp(f.frame)] else [])
  }

  /** Everything between setting up the frame and leaving it: checks, parameters,
      the body proper, and the 0 of a function that falls off its end. */
  function Zone(f: Func, at: int, k: Links): seq<Instr> {
    var h := at + |Head(f)|;
    var c1 := [DecFuel, Far(S, k.fuel, h + 1), CmpRspLimit, Far(B, k.stack, h + 3)] + ParamCode(f.params, 0);
    c1 + GenS(f.body, h + |c1|, k, Exits(0, 0, h + |c1| + SizeS(f.body) + 1)) + [XorEax]
  }

  lemma FuncParts(f: Func, at: int, k: Links)
    ensures GenF(f, at, k) == Head(f) + Zone(f, at, k) + [MovRspRbp, PopRbp, Ret]
  {
    hide GenS, SizeS, ParamCode;
    var h, p := at + |Head(f)|, ParamCode(f.params, 0);
    var c1 := [DecFuel, Far(S, k.fuel, h + 1), CmpRspLimit, Far(B, k.stack, h + 3)] + p;
    assert Prologue(f, at, k) == Head(f) + c1;
    var body := GenS(f.body, h + |c1|, k, Exits(0, 0, h + |c1| + SizeS(f.body) + 1));
    assert [XorEax, MovRspRbp, PopRbp, Ret] == [XorEax] + [MovRspRbp, PopRbp, Ret];
    assert GenF(f, at, k) == Head(f) + c1 + body + [XorEax, MovRspRbp, PopRbp, Ret];
  }

  lemma {:induction false} ParamsStill(ps: seq<Param>, i: nat)
    ensures AllStill(ParamCode(ps, i))
    decreases |ps|
  {
    if ps != [] {
      ParamsStill(ps[1..], i + 1);
    }
  }

  /** In a function every jump lands at the depth it left from, or aborts. */
  lemma LevelZone(w: World, f: Func, at: int, k: Links)
    requires WellFormedFunc(w, f) && |k.fn| == |w.funcs|
    ensures Level(Zone(f, at, k), 0, at + |Head(f)|, {}, k) && Adds(Zone(f, at, k), 0)
  {
    hide Level, Adds, GenS, SizeS, ParamCode, Far, WellFormed, LevelStmt, AllStill, Ground;
    var h, p := at + |Head(f)|, ParamCode(f.params, 0);
    var t1, t2 := [DecFuel, Far(S, k.fuel, h + 1)], [CmpRspLimit, Far(B, k.stack, h + 3)];
    var c1 := [DecFuel, Far(S, k.fuel, h + 1), CmpRspLimit, Far(B, k.stack, h + 3)] + p;
    var epi := h + |c1| + SizeS(f.body) + 1;
    var x := Exits(0, 0, epi);
    TestLevel(DecFuel, S, k.fuel, 0, h, {epi}, k);
    TestLevel(CmpRspLimit, B, k.stack, 0, h + 2, {epi}, k);
    Join(t1, t2, 0, 0, 0, h, {epi}, k);
    ParamsStill(f.params, 0);
    StillLevel(p, 0, h + 4, {epi}, k);
    Join(t1 + t2, p, 0, 0, 0, h, {epi}, k);
    assert t1 + t2 + p == c1;
    LevelS(w, f.body, h + |c1|, k, x, f.ret, false, false);
    BodyLevel(f.body, h + |c1|, k, x, {epi});
    var body := GenS(f.body, h + |c1|, k, x);
    SizeOfS(f.body, h + |c1|, k, x);
    Join(c1, body, 0, 0, 0, h, {epi}, k);
    ZeroStill();
    StillLevel([XorEax], 0, h + |c1 + body|, {epi}, k);
    Join(c1 + body, [XorEax], 0, 0, 0, h, {epi}, k);
    GroundEnds(Zone(f, at, k), h);
    var none: set<int> := {};
    assert none + {epi} == {epi};
    CloseOuts(Zone(f, at, k), 0, h, none, {epi}, k);
  }

  lemma ZeroStill()
    ensures AllStill([XorEax])
  {
  }

  lemma BodyLevel(b: Stmt, at: int, k: Links, x: Exits, outs: set<int>)
    requires LevelStmt(b, at, k, x, outs)
    ensures Level(GenS(b, at, k, x), 0, at, outs, k) && Adds(GenS(b, at, k, x), 0)
  {
  }
}
