// What it means for the emitted code to do what the tree means.

module SimBase {
  import opened Basics
  import opened Words
  import opened CTree
  import opened X64
  import opened Gen

  predicate CodeAt(code: seq<Instr>, pc: int, seg: seq<Instr>) {
    0 <= pc && pc + |seg| <= |code| && code[pc..pc + |seg|] == seg
  }

  lemma CodeSplit(code: seq<Instr>, pc: int, a: seq<Instr>, b: seq<Instr>)
    requires CodeAt(code, pc, a + b)
    ensures CodeAt(code, pc, a) && CodeAt(code, pc + |a|, b)
  {
    assert code[pc..pc + |a|] == (a + b)[..|a|];
    assert code[pc + |a|..pc + |a| + |b|] == (a + b)[|a|..];
  }

  lemma Fetch(code: seq<Instr>, pc: int, seg: seq<Instr>, i: nat)
    requires CodeAt(code, pc, seg) && i < |seg|
    ensures pc + i < |code| && code[pc + i] == seg[i]
  {
    assert code[pc..pc + |seg|][i] == seg[i];
  }

  predicate InLine(seg: seq<Instr>) {
    forall i :: 0 <= i < |seg| ==> !seg[i].J? && !seg[i].CallRel? && !seg[i].Ret?
  }

  /** A run of instructions without jumps, as one function of the state. */
  function All(w: World, seg: seq<Instr>, s: State): State
    decreases |seg|
  {
    if seg == [] || s.status != Running then s
    else All(w, seg[1..], Data(w, seg[0], s.(pc := s.pc + 1)))
  }

  lemma AllCons(w: World, i: Instr, seg: seq<Instr>, s: State)
    requires s.status == Running
    ensures All(w, [i] + seg, s) == All(w, seg, Data(w, i, s.(pc := s.pc + 1)))
  {
    hide Data;
    assert ([i] + seg)[1..] == seg;
  }

  lemma All1(w: World, a: Instr, s: State)
    requires s.status == Running
    ensures All(w, [a], s) == Data(w, a, s.(pc := s.pc + 1))
  {
    hide Data;
    assert [a][1..] == [];
  }

  lemma All2(w: World, a: Instr, b: Instr, s: State)
    requires s.status == Running
    ensures All(w, [a, b], s) == All(w, [b], Data(w, a, s.(pc := s.pc + 1)))
  {
    hide Data;
    assert [a, b][1..] == [b];
  }

  lemma All3(w: World, a: Instr, b: Instr, c: Instr, s: State)
    requires s.status == Running
    ensures All(w, [a, b, c], s) == All(w, [b, c], Data(w, a, s.(pc := s.pc + 1)))
  {
    hide Data;
    assert [a, b, c][1..] == [b, c];
  }

  lemma {:induction false} AllAdd(w: World, a: seq<Instr>, b: seq<Instr>, s: State)
    ensures All(w, a + b, s) == All(w, b, All(w, a, s))
    decreases |a|
  {
    hide Data;
    if a == [] {
      assert a + b == b;
    } else if s.status == Running {
      assert (a + b)[1..] == a[1..] + b;
      AllAdd(w, a[1..], b, Data(w, a[0], s.(pc := s.pc + 1)));
    }
  }

  lemma DataAlu(w: World, i: Instr, s: State)
    requires IsAlu(i)
    ensures Data(w, i, s) == s.(rax := Alu(i, s.rax, s.r))
  {
    hide Alu;
  }

  lemma DataMemory(w: World, i: Instr, s: State)
    requires IsMemory(i)
    ensures Data(w, i, s) == Memory(i, s)
  {
    hide Memory;
  }

  lemma DataStack(w: World, i: Instr, s: State)
    requires IsStack(i)
    ensures Data(w, i, s) == Stack(i, s)
  {
    hide Stack;
  }

  lemma DataFlag(w: World, i: Instr, s: State)
    requires IsFlag(i)
    ensures Data(w, i, s) == Flag(i, s)
  {
    hide Flag;
  }

  lemma DataOther(w: World, i: Instr, s: State)
    requires !IsAlu(i) && !IsMemory(i) && !IsStack(i) && !IsFlag(i)
    ensures Data(w, i, s) == Other(w, i, s)
  {
    hide Other;
  }

  lemma StepData(w: World, code: seq<Instr>, s: State)
    requires s.status == Running && 0 <= s.pc < |code| && InLine([code[s.pc]])
    ensures Step(w, code, s) == Data(w, code[s.pc], s.(pc := s.pc + 1))
  {
    hide Data;
    assert !([code[s.pc]][0]).J?;
  }

  /** Straight-line code does what its instructions do, in order. */
  lemma {:induction false} RunAll(w: World, code: seq<Instr>, s: State, seg: seq<Instr>)
    requires s.status == Running && CodeAt(code, s.pc, seg) && InLine(seg)
    ensures Run(w, code, s, |seg|) == All(w, seg, s)
    decreases |seg|
  {
    hide Data, Step;
    if seg != [] {
      Fetch(code, s.pc, seg, 0);
      assert [code[s.pc]][0] == seg[0];
      StepData(w, code, s);
      var t := Data(w, seg[0], s.(pc := s.pc + 1));
      assert seg == [seg[0]] + seg[1..];
      CodeSplit(code, s.pc, [seg[0]], seg[1..]);
      if t.status == Running {
        RunAll(w, code, t, seg[1..]);
      } else {
        RunStopped(w, code, t, |seg| - 1);
      }
    }
  }

  lemma {:induction false} RunSnoc(w: World, code: seq<Instr>, s: State, n: nat)
    ensures Run(w, code, s, n + 1) == Step(w, code, Run(w, code, s, n))
  {
    hide Step;
    RunAdd(w, code, s, n, 1);
    assert Run(w, code, Step(w, code, Run(w, code, s, n)), 0) == Step(w, code, Run(w, code, s, n));
  }

  // ---- the cost of a run ---------------------------------------------------

  /** Instructions one pass through a statement may execute. Only the counted
      zeroing loop executes more instructions than it has. */
  function Weight(s: Stmt): nat {
    match s
    case Seq(a, b) => Weight(a) + Weight(b)
    case MemZero(_, n) => if n <= 64 then SizeS(s) else 2 + 4 * n
    case If(c, t, f) => SizeE(c, 0) + 2 + Weight(t) + (if f.Some? then 1 + Weight(f.value) else 0)
    case Loop(c, first, p, b) =>
      SizeTest(c, first) + Weight(b) + SizeO(p) + SizeTest(c, !first) + 3
    case Case(_, b) => Weight(b)
    case Switch(c, keys, _, b) => SizeE(c, 0) + 3 * |keys| + 1 + Weight(b)
    case _ => SizeS(s)
  }

  function WeightF(f: Func): nat {
    |Prologue(f, 0, Links(0, 0, []))| + Weight(f.body) + 4
  }

  /** The image is in place: every function lies where `k` says, and `per`
      covers any one function's weight. */
  ghost predicate Ready(w: World, code: seq<Instr>, k: Links, per: nat) {
    && WellFormedUnit(w)
    && |k.fn| == |w.funcs|
    && (forall i :: 0 <= i < |w.funcs| ==> CodeAt(code, k.fn[i], GenF(w.funcs[i], k.fn[i], k)))
    && (forall i :: 0 <= i < |w.funcs| ==> WeightF(w.funcs[i]) <= per)
  }

  /** In a frame whose words pushed are odd or even as `d` is, which is all that code
      needs to find rsp where a call wants it. DepthRun.dfy says where rsp is exactly. */
  predicate InFrame(w: World, s: State, d: nat) {
    s.status == Running && 0 <= s.fuel && s.rt.limit == w.limit && (s.rsp + 8 * d) % 16 == 0
  }

  /** Nothing at or above `lo` moved on the push stack. */
  ghost predicate StkKept(lo: int, a: map<int, int>, b: map<int, int>) {
    forall x :: x >= lo ==> At(a, x) == At(b, x)
  }

  ghost predicate Kept(s: State, t: State) {
    && t.status == Running && t.rsp == s.rsp && t.rbp == s.rbp
    && t.rt == s.rt && StkKept(s.rsp, s.stk, t.stk)
  }

  /** The run of `n` steps from `s` to `t` left through a trap or an abort, and
      took at most `wt` steps plus `per` for each unit of fuel. */
  ghost predicate Left<T>(k: Links, per: nat, wt: nat, s: State, n: nat, t: State, r: Out<T>)
    requires !r.Ok?
  {
    match r
    case Trap => t.status == Trapped && n <= wt + per * s.fuel
    case NoFuel(m) =>
      && t.status == Running && t.pc == k.fuel && t.mem == m && t.fuel == -1
      && t.rt == s.rt && n <= wt + per * s.fuel
    case NoStack(m, f) =>
      && t.status == Running && t.pc == k.stack && t.mem == m && t.fuel == f
      && t.rt == s.rt && n <= wt + per * s.fuel
    case Wild => true
  }

  /** A block of `size` instructions was run through to its end with memory and
      fuel as `r` says; each unit of fuel spent paid for at most `per` steps. */
  ghost predicate Through<T>(per: nat, wt: nat, size: int, s: State, n: nat, t: State, r: Out<T>)
    requires r.Ok?
  {
    && t.pc == s.pc + size && Kept(s, t) && t.mem == r.mem && t.fuel == r.fuel
    && n + per * r.fuel <= wt + per * s.fuel
  }

  /** The code of an expression of type `ty` computes the outcome `r`. */
  ghost predicate Computes(w: World, code: seq<Instr>, k: Links, per: nat, size: nat,
                           s: State, n: nat, ty: Ty, r: Out<int>)
  {
    var t := Run(w, code, s, n);
    if r.Ok? then Through(per, size, size, s, n, t, r) && (ty.Int? ==> t.rax == Enc(r.v))
    else Left(k, per, size, s, n, t, r)
  }
}
