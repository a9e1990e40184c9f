// The whole image: trampoline, functions, abort stubs.

module SimUnit {
  import opened Words
  import opened CTree
  import opened X64
  import opened Gen
  import opened SimBase
  import opened SimSizes
  import opened SimMoves
  import opened SimCalls
  import opened SimBlocks
  import opened Sim
  import opened NeverWild

  // ---- layout ----------------------------------------------------------------

  lemma {:induction false} PlacesAt(code: seq<Instr>, fs: seq<Func>, at: int, k: Links, i: nat)
    requires i < |fs| && CodeAt(code, at, GenFs(fs, at, k))
    ensures CodeAt(code, Places(fs, at)[i], GenF(fs[i], Places(fs, at)[i], k))
    decreases |fs|
  {
    hide CodeAt, GenF, SizeF;
    SizeOfF(fs[0], at, k);
    CodeSplit(code, at, GenF(fs[0], at, k), GenFs(fs[1..], at + SizeF(fs[0]), k));
    if i > 0 {
      PlacesAt(code, fs[1..], at + SizeF(fs[0]), k, i - 1);
    }
  }

  /** The heaviest function's weight. */
  function MaxWeight(fs: seq<Func>): nat
    decreases |fs|
  {
    if fs == [] then 0
    else if WeightF(fs[0]) > MaxWeight(fs[1..]) then WeightF(fs[0]) else MaxWeight(fs[1..])
  }

  lemma {:induction false} MaxWeightIs(fs: seq<Func>, i: nat)
    requires i < |fs|
    ensures WeightF(fs[i]) <= MaxWeight(fs)
    decreases |fs|
  {
    hide WeightF;
    if i > 0 {
      MaxWeightIs(fs[1..], i - 1);
    }
  }

  function Entry0(fs: seq<Func>, entry: nat): seq<Instr> {
    [SaveKrsp, LoadPrsp, CallRel((if entry < |fs| then Layout(fs).fn[entry] else 0) - LDONE)]
  }

  function Abort(cause: int, at: int): seq<Instr> {
    [SetAborted(cause), XorEax, Far(Always, LDONE, at + 2)]
  }

  lemma UnitParts(fs: seq<Func>, entry: nat)
    ensures var code, k := GenUnit(fs, entry), Layout(fs);
            && CodeAt(code, 0, Entry0(fs, entry)) && CodeAt(code, LDONE, [LoadKrsp, Halt])
            && CodeAt(code, 5, GenFs(fs, 5, k))
            && CodeAt(code, k.fuel, Abort(1, k.fuel)) && CodeAt(code, k.stack, Abort(2, k.stack))
  {
    hide CodeAt, GenFs, SizeFs, Places;
    var code, k := GenUnit(fs, entry), Layout(fs);
    var a, b, c := Entry0(fs, entry), [LoadKrsp, Halt], GenFs(fs, 5, k);
    var d, e := Abort(1, k.fuel), Abort(2, k.stack);
    SizeOfFs(fs, 5, k);
    assert code == a + b + c + d + e by {
      assert [SaveKrsp, LoadPrsp, CallRel((if entry < |fs| then k.fn[entry] else 0) - LDONE), LoadKrsp, Halt] == a + b;
    }
    WholeCode(code);
    Parts(code, 0, a, b, c, d, e);
  }

  lemma WholeCode(code: seq<Instr>)
    ensures CodeAt(code, 0, code)
  {
  }

  /** The image is ready to run, with the heaviest function as the price of one
      unit of fuel. */
  lemma ImageReady(w: World, entry: nat)
    requires WellFormedUnit(w)
    ensures Ready(w, GenUnit(w.funcs, entry), Layout(w.funcs), MaxWeight(w.funcs))
  {
    hide CodeAt, GenF, GenFs, WeightF, GenUnit, WellFormedUnit;
    var code, k := GenUnit(w.funcs, entry), Layout(w.funcs);
    UnitParts(w.funcs, entry);
    forall i | 0 <= i < |w.funcs|
      ensures CodeAt(code, k.fn[i], GenF(w.funcs[i], k.fn[i], k))
      ensures WeightF(w.funcs[i]) <= MaxWeight(w.funcs)
    {
      PlacesAt(code, w.funcs, 5, k, i);
      MaxWeightIs(w.funcs, i);
    }
  }

  // ---- the trampoline ----------------------------------------------------------

  // The instructions that touch the runtime block.

  lemma DoSaveKrsp(w: World, s: State)
    ensures Data(w, SaveKrsp, s) == s.(rt := s.rt.(krsp := s.rsp))
  {
    hide Data;
    DataOther(w, SaveKrsp, s);
  }

  lemma DoLoadPrsp(w: World, s: State)
    ensures Data(w, LoadPrsp, s) == s.(rsp := s.rt.prsp)
  {
    hide Data;
    DataOther(w, LoadPrsp, s);
  }

  lemma DoLoadKrsp(w: World, s: State)
    ensures Data(w, LoadKrsp, s) == s.(rsp := s.rt.krsp)
  {
    hide Data;
    DataOther(w, LoadKrsp, s);
  }

  lemma DoHalt(w: World, s: State)
    ensures Data(w, Halt, s) == s.(status := Halted)
  {
    hide Data;
    DataOther(w, Halt, s);
  }

  lemma DoSetAborted(w: World, s: State, cause: int)
    ensures Data(w, SetAborted(cause), s) == s.(rt := s.rt.(aborted := cause))
  {
    hide Data;
    DataOther(w, SetAborted(cause), s);
  }

  lemma StartRun(w: World, code: seq<Instr>, s: State, fs: seq<Func>, entry: nat)
    requires s.status == Running && s.pc == 0 && s.rt.prsp % 16 == 0 && entry < |fs|
    requires CodeAt(code, 0, Entry0(fs, entry))
    ensures Run(w, code, s, 3)
            == s.(pc := Layout(fs).fn[entry], rsp := s.rt.prsp - 8, stk := s.stk[s.rt.prsp - 8 := LDONE],
                  rt := s.rt.(krsp := s.rsp))
  {
    hide Run, All, Data, Places, SizeFs;
    var i, j := SaveKrsp, LoadPrsp;
    var call := CallRel(Layout(fs).fn[entry] - LDONE);
    assert Entry0(fs, entry) == [i, j] + [call];
    CodeSplit(code, 0, [i, j], [call]);
    assert InLine([i, j]);
    RunAll(w, code, s, [i, j]);
    All2(w, i, j, s);
    DoSaveKrsp(w, s.(pc := s.pc + 1));
    var s1 := s.(pc := s.pc + 1, rt := s.rt.(krsp := s.rsp));
    All1(w, j, s1);
    DoLoadPrsp(w, s1.(pc := s1.pc + 1));
    CallStep(w, code, Run(w, code, s, 2), call.rel);
    RunAdd(w, code, s, 2, 1);
  }

  /** mov rsp, krsp; ret. */
  lemma DoneRun(w: World, code: seq<Instr>, s: State)
    requires s.status == Running && s.pc == LDONE && CodeAt(code, LDONE, [LoadKrsp, Halt])
    ensures Run(w, code, s, 2) == s.(pc := 5, rsp := s.rt.krsp, status := Halted)
  {
    hide Run, All, Data;
    var i, j := LoadKrsp, Halt;
    assert InLine([i, j]);
    RunAll(w, code, s, [i, j]);
    All2(w, i, j, s);
    DoLoadKrsp(w, s.(pc := s.pc + 1));
    var s1 := s.(pc := s.pc + 1, rsp := s.rt.krsp);
    All1(w, j, s1);
    DoHalt(w, s1.(pc := s1.pc + 1));
  }

  /** An abort stub: the cause recorded, 0 returned, and out by the common door. */
  lemma AbortRun(w: World, code: seq<Instr>, s: State, cause: int)
    requires s.status == Running && CodeAt(code, s.pc, Abort(cause, s.pc)) && CodeAt(code, LDONE, [LoadKrsp, Halt])
    ensures Run(w, code, s, 5)
            == s.(pc := 5, rax := 0, rsp := s.rt.krsp, rt := s.rt.(aborted := cause), status := Halted)
  {
    hide Run, All, Data;
    var i, j := SetAborted(cause), XorEax;
    var back := Far(Always, LDONE, s.pc + 2);
    assert Abort(cause, s.pc) == [i, j] + [back];
    CodeSplit(code, s.pc, [i, j], [back]);
    assert InLine([i, j]);
    RunAll(w, code, s, [i, j]);
    All2(w, i, j, s);
    DoSetAborted(w, s.(pc := s.pc + 1), cause);
    var s1 := s.(pc := s.pc + 1, rt := s.rt.(aborted := cause));
    All1(w, j, s1);
    DataAlu(w, j, s1.(pc := s1.pc + 1));
    JumpStep(w, code, Run(w, code, s, 2), Always, back.rel);
    RunAdd(w, code, s, 2, 1);
    DoneRun(w, code, Run(w, code, s, 3));
    RunAdd(w, code, s, 3, 2);
  }

  // ---- the main theorem ----------------------------------------------------------

  /** The entry function's arguments are whatever the registers hold. */
  function Incoming(w: World, entry: nat, s: State): (vs: seq<int>)
    requires entry < |w.funcs|
    ensures |vs| == |w.funcs[entry].params|
  {
    ArgWords(s.r, |w.funcs[entry].params|)
  }

  lemma IncomingRegs(w: World, entry: nat, s: State)
    requires entry < |w.funcs|
    ensures InRegs(s.r, Incoming(w, entry, s))
  {
  }

  /** How a run of an image may end, given what the program means. */
  ghost predicate Finished(w: World, entry: nat, s: State, t: State, r: Out<int>)
    requires entry < |w.funcs|
  {
    match r
    case Ok(v, m, f) =>
      && t.status == Halted && t.rsp == s.rsp && t.mem == m && t.fuel == f
      && t.rt.aborted == s.rt.aborted && (w.funcs[entry].ret.Int? ==> t.rax == Enc(v))
    case NoFuel(m) =>
      t.status == Halted && t.rsp == s.rsp && t.mem == m && t.fuel == -1 && t.rt.aborted == 1 && t.rax == 0
    case NoStack(m, f) =>
      t.status == Halted && t.rsp == s.rsp && t.mem == m && t.fuel == f && t.rt.aborted == 2 && t.rax == 0
    case Trap => t.status == Trapped
    case Wild => true
  }

  /** Running the image from its first instruction does what the program means:
      same result, same memory, same fuel left, the kernel's stack pointer back;
      or the abort that its budget calls for, recorded. It takes at most a fixed
      number of steps for each unit of fuel. */
  lemma ImageRuns(w: World, entry: nat, s: State) returns (n: nat)
    requires WellFormedUnit(w) && entry < |w.funcs|
    requires s.status == Running && s.pc == 0 && 0 <= s.fuel
    requires s.rt.limit == w.limit && s.rt.prsp % 16 == 0
    ensures var r := RunFunc(w, w.funcs[entry], Incoming(w, entry, s), s.rt.prsp, s.mem, s.fuel);
            && Finished(w, entry, s, Run(w, GenUnit(w.funcs, entry), s, n), r)
            && (r.Wild? || n <= 8 + MaxWeight(w.funcs) * (s.fuel + 1))
  {
    hide Run, CodeAt, GenUnit, GenFs, Places, RunFunc, InRegs, Incoming, StkKept, Ready, WellFormedUnit, MaxWeight,
      Layout, Entry0, Abort, Enc;
    var code, k, per := GenUnit(w.funcs, entry), Layout(w.funcs), MaxWeight(w.funcs);
    var vs := Incoming(w, entry, s);
    UnitParts(w.funcs, entry);
    ImageReady(w, entry);
    IncomingRegs(w, entry, s);
    LayoutSize(w.funcs);
    StartRun(w, code, s, w.funcs, entry);
    var s1 := Run(w, code, s, 3);
    var m := SimF(w, code, k, per, entry, vs, s1);
    RunAdd(w, code, s, 3, m);
    var t := Run(w, code, s1, m);
    var r := RunFunc(w, w.funcs[entry], vs, s.rt.prsp, s.mem, s.fuel);
    n := 3 + m;
    Price(per, s.fuel);
    if r.Ok? {
      NonNeg(per, r.fuel);
      DoneRun(w, code, t);
      RunAdd(w, code, s, 3 + m, 2);
      n := n + 2;
    } else if r.NoFuel? || r.NoStack? {
      AbortRun(w, code, t, if r.NoFuel? then 1 else 2);
      RunAdd(w, code, s, 3 + m, 5);
      n := n + 5;
    }
  }

  lemma LayoutSize(fs: seq<Func>)
    ensures |Layout(fs).fn| == |fs|
  {
  }

  lemma Price(per: nat, fuel: int)
    ensures per * (fuel + 1) == per * fuel + per
  {
  }

  lemma StaysStopped(w: World, code: seq<Instr>, s: State, n: nat, m: nat)
    requires Run(w, code, s, n).status == Halted || Run(w, code, s, n).status == Trapped
    ensures Run(w, code, s, m).status != Misaligned && Run(w, code, s, m).status != Lost
  {
    hide Run;
    if m <= n {
      RunAdd(w, code, s, m, n - m);
      if Run(w, code, s, m).status != Running {
        RunStopped(w, code, Run(w, code, s, m), n - m);
      }
    } else {
      RunAdd(w, code, s, n, m - n);
      RunStopped(w, code, Run(w, code, s, n), m - n);
    }
  }

  /** Every image stops, whatever its program does: back in the kernel with the
      kernel's stack pointer, or at a processor trap, within a bound linear in
      its fuel. On the way every call, into the unit or the kernel, is made with
      rsp a multiple of 16, and control never leaves the image. */
  lemma ImageStops(w: World, entry: nat, s: State) returns (n: nat)
    requires Open(w) && entry < |w.funcs|
    requires s.status == Running && s.pc == 0 && 0 <= s.fuel && s.rt.aborted == 0
    requires s.rt.limit == w.limit && s.rt.prsp % 16 == 0
    ensures n <= 8 + MaxWeight(w.funcs) * (s.fuel + 1)
    ensures var t := Run(w, GenUnit(w.funcs, entry), s, n);
            t.status == Trapped || (t.status == Halted && t.rsp == s.rsp && 0 <= t.rt.aborted <= 2)
    ensures forall m: nat :: Run(w, GenUnit(w.funcs, entry), s, m).status != Misaligned
                             && Run(w, GenUnit(w.funcs, entry), s, m).status != Lost
  {
    hide Run, GenUnit, RunFunc, Incoming, WellFormedUnit, MaxWeight, Enc;
    n := ImageRuns(w, entry, s);
    TameF(w, entry, Incoming(w, entry, s), s.rt.prsp, s.mem, s.fuel);
    forall m: nat
      ensures Run(w, GenUnit(w.funcs, entry), s, m).status != Misaligned
      ensures Run(w, GenUnit(w.funcs, entry), s, m).status != Lost
    {
      StaysStopped(w, GenUnit(w.funcs, entry), s, n, m);
    }
  }
}
