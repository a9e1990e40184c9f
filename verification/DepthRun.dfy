// The stack pointer at every point of every run: whatever the program does, inside
// a function it lies below the frame by exactly the words counted at that point
// of the code.

module DepthRun {
  import opened Words
  import opened CTree
  import opened X64
  import opened Gen
  import opened SimBase
  import opened SimSizes
  import opened SimUnit
  import opened Depth

  /** A point of a function: instruction `j` of its zone. */
  datatype Act = Act(i: nat, j: nat)

  function ZoneOf(w: World, i: nat): seq<Instr>
    requires i < |w.funcs|
  {
    Zone(w.funcs[i], Layout(w.funcs).fn[i], Layout(w.funcs))
  }

  /** Where the zone of function `i` starts. */
  function BodyAt(w: World, i: nat): int
    requires i < |w.funcs|
  {
    Layout(w.funcs).fn[i] + |Head(w.funcs[i])|
  }

  ghost predicate IsAct(w: World, a: Act) {
    a.i < |w.funcs| && a.j <= |ZoneOf(w, a.i)| && 0 <= Stacked(ZoneOf(w, a.i), a.j)
  }

  /** The stack pointer at `a` in the frame at `fp`. */
  ghost function SpAt(w: World, a: Act, fp: int): int
    requires IsAct(w, a)
  {
    fp - w.funcs[a.i].frame - 8 * Stacked(ZoneOf(w, a.i), a.j)
  }

  /** A return at `sp` with the caller's frame at `fp` goes back to `acts[0]`, with
      the stack pointer as it was there, and so on up to the trampoline. */
  ghost predicate Returns(w: World, stk: map<int, int>, sp: int, fp: int, acts: seq<Act>)
    decreases |acts|, 0
  {
    && sp % 16 == 8
    && if acts == [] then At(stk, sp) == LDONE
       else
         && IsAct(w, acts[0])
         && At(stk, sp) == BodyAt(w, acts[0].i) + acts[0].j
         && sp + 8 == SpAt(w, acts[0], fp)
         && InFrameAt(w, stk, fp, acts[1..])
  }

  /** The frame at `fp` was made by a call, and can be left. */
  ghost predicate InFrameAt(w: World, stk: map<int, int>, fp: int, acts: seq<Act>)
    decreases |acts|, 1
  {
    fp % 16 == 0 && Returns(w, stk, fp + 8, At(stk, fp), acts)
  }

  lemma {:induction false} ReturnsKept(w: World, stk: map<int, int>, stk2: map<int, int>, sp: int, fp: int,
                                       acts: seq<Act>)
    requires Returns(w, stk, sp, fp, acts) && StkKept(sp, stk, stk2)
    ensures Returns(w, stk2, sp, fp, acts)
    decreases |acts|
  {
    hide ZoneOf, BodyAt, Stacked;
    if acts != [] {
      assert fp > sp;
      ReturnsKept(w, stk, stk2, fp + 8, At(stk, fp), acts[1..]);
    }
  }

  lemma FrameKept(w: World, stk: map<int, int>, stk2: map<int, int>, fp: int, acts: seq<Act>)
    requires InFrameAt(w, stk, fp, acts) && StkKept(fp, stk, stk2)
    ensures InFrameAt(w, stk2, fp, acts)
  {
    hide Returns;
    ReturnsKept(w, stk, stk2, fp + 8, At(stk, fp), acts);
  }

  /** Where control is. */
  datatype Loc =
    | Start
    | Done
    | Aborting(at: int, n: nat)
    | Called(i: nat)
    | Saved(i: nat)
    | Framing(i: nat)
    | In(a: Act)
    | Leaving(i: nat)
    | Going(i: nat)

  ghost predicate Spot(w: World, s: State, loc: Loc, acts: seq<Act>) {
    var k := Layout(w.funcs);
    match loc
    case Start => 0 <= s.pc <= 2 && if s.pc == 2 then s.rsp % 16 == 0 else s.rt.prsp % 16 == 0
    case Done => LDONE <= s.pc <= LDONE + 1
    case Aborting(at, n) => (at == k.fuel || at == k.stack) && n < 3 && s.pc == at + n
    case Called(i) => i < |w.funcs| && s.pc == k.fn[i] && Returns(w, s.stk, s.rsp, s.rbp, acts)
    case Saved(i) => i < |w.funcs| && s.pc == k.fn[i] + 1 && InFrameAt(w, s.stk, s.rsp, acts)
    case Framing(i) =>
      && i < |w.funcs| && w.funcs[i].frame > 0 && s.pc == k.fn[i] + 2
      && s.rbp == s.rsp && InFrameAt(w, s.stk, s.rbp, acts)
    case In(a) => IsAct(w, a) && s.pc == BodyAt(w, a.i) + a.j && s.rsp == SpAt(w, a, s.rbp)
      && InFrameAt(w, s.stk, s.rbp, acts)
    case Leaving(i) =>
      && i < |w.funcs| && s.pc == BodyAt(w, i) + |ZoneOf(w, i)| + 1
      && s.rsp == s.rbp && InFrameAt(w, s.stk, s.rbp, acts)
    case Going(i) =>
      i < |w.funcs| && s.pc == BodyAt(w, i) + |ZoneOf(w, i)| + 2 && Returns(w, s.stk, s.rsp, s.rbp, acts)
  }

  /** Neither lost nor misaligned; and if still running, at a known spot. */
  ghost predicate Onward(w: World, t: State, loc: Loc, acts: seq<Act>) {
    t.status != Lost && t.status != Misaligned && (t.status == Running ==> Spot(w, t, loc, acts))
  }

  // ---- the code at each spot ---------------------------------------------------------

  lemma FuncCode(w: World, entry: nat, i: nat)
    requires i < |w.funcs|
    ensures var code, at := GenUnit(w.funcs, entry), Layout(w.funcs).fn[i];
            && CodeAt(code, at, Head(w.funcs[i])) && CodeAt(code, BodyAt(w, i), ZoneOf(w, i))
            && CodeAt(code, BodyAt(w, i) + |ZoneOf(w, i)|, [MovRspRbp, PopRbp, Ret])
            && 0 <= at <= BodyAt(w, i)
  {
    hide CodeAt, GenF, GenFs, GenUnit, Head, Zone, Places, SizeFs;
    var code, k := GenUnit(w.funcs, entry), Layout(w.funcs);
    UnitParts(w.funcs, entry);
    PlacesAt(code, w.funcs, 5, k, i);
    FuncParts(w.funcs[i], k.fn[i], k);
    CodeSplit(code, k.fn[i], Head(w.funcs[i]) + ZoneOf(w, i), [MovRspRbp, PopRbp, Ret]);
    CodeSplit(code, k.fn[i], Head(w.funcs[i]), ZoneOf(w, i));
    CodeStarts(code, k.fn[i], Head(w.funcs[i]));
  }

  lemma CodeStarts(code: seq<Instr>, pc: int, seg: seq<Instr>)
    requires CodeAt(code, pc, seg)
    ensures 0 <= pc
  {
  }

  lemma ZoneLevel(w: World, i: nat)
    requires WellFormedUnit(w) && i < |w.funcs|
    ensures Level(ZoneOf(w, i), 0, BodyAt(w, i), {}, Layout(w.funcs)) && Adds(ZoneOf(w, i), 0)
    ensures w.funcs[i].frame % 16 == 0
  {
    hide Level, Adds, Zone, Head, WellFormed;
    LayoutSize(w.funcs);
    assert WellFormedFunc(w, w.funcs[i]);
    LevelZone(w, w.funcs[i], Layout(w.funcs).fn[i], Layout(w.funcs));
  }

  lemma ZoneActs(w: World, i: nat, j: nat)
    requires WellFormedUnit(w) && i < |w.funcs| && j <= |ZoneOf(w, i)|
    ensures IsAct(w, Act(i, j))
    ensures 0 <= Pushed(ZoneOf(w, i), j) && 0 <= Padded(ZoneOf(w, i), j) <= 1
  {
    hide Pushed, Padded, ZoneOf, WellFormedUnit, LevelAt, BodyAt;
    ZoneLevel(w, i);
  }

  // ---- one machine step, by kind of instruction ---------------------------------------

  lemma AtJump(w: World, code: seq<Instr>, s: State)
    requires s.status == Running && 0 <= s.pc < |code| && code[s.pc].J?
    ensures Step(w, code, s) == s.(pc := s.pc + 1 + (if Holds(s.fl, code[s.pc].cc) then code[s.pc].rel else 0))
  {
    hide Holds, Data;
  }

  lemma AtCall(w: World, code: seq<Instr>, s: State)
    requires s.status == Running && 0 <= s.pc < |code| && code[s.pc].CallRel? && s.rsp % 16 == 0
    ensures Step(w, code, s)
            == s.(rsp := s.rsp - 8, stk := s.stk[s.rsp - 8 := s.pc + 1], pc := s.pc + 1 + code[s.pc].rel)
  {
    hide Data;
  }

  lemma AtRet(w: World, code: seq<Instr>, s: State)
    requires s.status == Running && 0 <= s.pc < |code| && code[s.pc].Ret?
    ensures Step(w, code, s) == s.(pc := X64.At(s.stk, s.rsp), rsp := s.rsp + 8)
  {
    hide Data;
  }

  lemma AtData(w: World, code: seq<Instr>, s: State)
    requires s.status == Running && 0 <= s.pc < |code|
    requires !code[s.pc].J? && !code[s.pc].CallRel? && !code[s.pc].Ret?
    ensures Step(w, code, s) == Data(w, code[s.pc], s.(pc := s.pc + 1))
  {
    hide Data;
  }

  // ---- one instruction of a zone -----------------------------------------------------

  lemma PlainData(w: World, i: Instr, s: State)
    requires s.status == Running && Plain(i) && !i.J? && !i.CallRel? && (i.CallR11? ==> s.rsp % 16 == 0)
    ensures var t := Data(w, i, s);
            && t.pc == s.pc && t.rbp == s.rbp && t.rsp == s.rsp - 8 * (Pushes(i) + Pads(i))
            && (t.status == Running || t.status == Trapped) && StkKept(s.rsp, s.stk, t.stk)
  {
    hide Alu, Memory, Flag, Other, Stack;
    if IsMemory(i) {
      PlainMemory(i, s);
    } else if IsStack(i) {
      PlainStack(i, s);
    } else if IsFlag(i) {
      PlainFlag(i, s);
    } else if !IsAlu(i) {
      PlainOther(w, i, s);
    }
  }

  lemma PlainMemory(i: Instr, s: State)
    requires s.status == Running && IsMemory(i)
    ensures var t := Memory(i, s);
            t.rbp == s.rbp && t.rsp == s.rsp && t.stk == s.stk && (t.status == Running || t.status == Trapped)
  {
  }

  lemma PlainStack(i: Instr, s: State)
    requires s.status == Running && IsStack(i) && Plain(i)
    ensures var t := Stack(i, s);
            && t.rbp == s.rbp && t.rsp == s.rsp - 8 * (Pushes(i) + Pads(i))
            && t.status == Running && StkKept(s.rsp, s.stk, t.stk)
  {
  }

  lemma PlainFlag(i: Instr, s: State)
    requires s.status == Running && IsFlag(i)
    ensures var t := Flag(i, s); t.rbp == s.rbp && t.rsp == s.rsp && t.stk == s.stk && t.status == Running
  {
    hide Compare, Enc, OpMod;
  }

  lemma PlainOther(w: World, i: Instr, s: State)
    requires s.status == Running && Plain(i) && !IsAlu(i) && !IsMemory(i) && !IsStack(i) && !IsFlag(i)
    requires i.CallR11? ==> s.rsp % 16 == 0
    ensures var t := Other(w, i, s);
            t.rbp == s.rbp && t.rsp == s.rsp && t.stk == s.stk && (t.status == Running || t.status == Trapped)
  {
    hide Enc, OpMod, TDiv, TMod, Signed, ArgWords;
  }

  /** Straight on inside a zone. */
  lemma StepOn(w: World, entry: nat, s: State, a: Act, acts: seq<Act>)
    requires WellFormedUnit(w) && s.status == Running && Spot(w, s, In(a), acts) && a.j < |ZoneOf(w, a.i)|
    requires var i := ZoneOf(w, a.i)[a.j]; !i.J? && !i.CallRel?
    ensures Onward(w, Step(w, GenUnit(w.funcs, entry), s), In(Act(a.i, a.j + 1)), acts)
  {
    hide GenUnit, ZoneOf, BodyAt, Data, WellFormedUnit, Returns, Plain, Step, CodeAt, Head;
    var i := ZoneOf(w, a.i)[a.j];
    FuncCode(w, entry, a.i);
    Fetch(GenUnit(w.funcs, entry), BodyAt(w, a.i), ZoneOf(w, a.i), a.j);
    ZoneInstr(w, a);
    ZoneActs(w, a.i, a.j + 1);
    PlainData(w, i, s.(pc := s.pc + 1));
    assert !i.Ret? by {
      PlainRet(i);
    }
    AtData(w, GenUnit(w.funcs, entry), s);
    var t := Data(w, i, s.(pc := s.pc + 1));
    FrameKept(w, s.stk, t.stk, s.rbp, acts);
  }

  lemma PlainRet(i: Instr)
    requires Plain(i)
    ensures !i.Ret?
  {
  }

  /** What the static count says of the instruction at a point. */
  lemma ZoneInstr(w: World, a: Act)
    requires WellFormedUnit(w) && IsAct(w, a) && a.j < |ZoneOf(w, a.i)|
    ensures var z, k := ZoneOf(w, a.i), Layout(w.funcs);
            var i := z[a.j];
            && Plain(i)
            && Stacked(z, a.j + 1) == Stacked(z, a.j) + Pushes(i) + Pads(i)
            && (i.CallRel? || i.CallR11? ==> Stacked(z, a.j) % 2 == 0)
            && (i.CallRel? ==> BodyAt(w, a.i) + a.j + 1 + i.rel in k.fn)
            && (i.J? ==>
                  var t := a.j + 1 + i.rel;
                  || BodyAt(w, a.i) + t == k.fuel || BodyAt(w, a.i) + t == k.stack
                  || (0 <= t <= |z| && Stacked(z, t) == Stacked(z, a.j)))
    ensures w.funcs[a.i].frame % 16 == 0
  {
    hide ZoneOf, BodyAt, WellFormedUnit;
    ZoneLevel(w, a.i);
    var z, k := ZoneOf(w, a.i), Layout(w.funcs);
    assert LevelAt(z, 0, BodyAt(w, a.i), {}, k, a.j);
  }

  lemma StepJump(w: World, entry: nat, s: State, a: Act, acts: seq<Act>) returns (loc: Loc)
    requires WellFormedUnit(w) && s.status == Running && Spot(w, s, In(a), acts)
    requires a.j < |ZoneOf(w, a.i)| && ZoneOf(w, a.i)[a.j].J?
    ensures Onward(w, Step(w, GenUnit(w.funcs, entry), s), loc, acts)
  {
    hide GenUnit, ZoneOf, BodyAt, WellFormedUnit, Returns, Plain, Holds, Step, CodeAt, Head;
    var i := ZoneOf(w, a.i)[a.j];
    FuncCode(w, entry, a.i);
    Fetch(GenUnit(w.funcs, entry), BodyAt(w, a.i), ZoneOf(w, a.i), a.j);
    ZoneInstr(w, a);
    AtJump(w, GenUnit(w.funcs, entry), s);
    if !Holds(s.fl, i.cc) {
      ZoneActs(w, a.i, a.j + 1);
      return In(Act(a.i, a.j + 1));
    }
    var t, k := a.j + 1 + i.rel, Layout(w.funcs);
    if BodyAt(w, a.i) + t == k.fuel || BodyAt(w, a.i) + t == k.stack {
      return Aborting(BodyAt(w, a.i) + t, 0);
    }
    ZoneActs(w, a.i, t);
    return In(Act(a.i, t));
  }

  /** A call: back to the next instruction, with the stack pointer of that point. */
  lemma StepCall(w: World, entry: nat, s: State, a: Act, acts: seq<Act>) returns (i: nat)
    requires WellFormedUnit(w) && s.status == Running && Spot(w, s, In(a), acts)
    requires a.j < |ZoneOf(w, a.i)| && ZoneOf(w, a.i)[a.j].CallRel?
    ensures Onward(w, Step(w, GenUnit(w.funcs, entry), s), Called(i), [Act(a.i, a.j + 1)] + acts)
  {
    hide GenUnit, ZoneOf, BodyAt, WellFormedUnit, Plain, Stacked, Places, SizeFs, Step, CodeAt, Head;
    var call := ZoneOf(w, a.i)[a.j];
    FuncCode(w, entry, a.i);
    Fetch(GenUnit(w.funcs, entry), BodyAt(w, a.i), ZoneOf(w, a.i), a.j);
    ZoneInstr(w, a);
    ZoneActs(w, a.i, a.j + 1);
    LayoutSize(w.funcs);
    var k := Layout(w.funcs);
    i :| 0 <= i < |k.fn| && k.fn[i] == BodyAt(w, a.i) + a.j + 1 + call.rel;
    AtCall(w, GenUnit(w.funcs, entry), s);
    var t := Step(w, GenUnit(w.funcs, entry), s);
    FrameKept(w, s.stk, t.stk, s.rbp, acts);
    var more := [Act(a.i, a.j + 1)] + acts;
    assert more[1..] == acts;
    CallPads(call);
  }

  lemma CallPads(i: Instr)
    ensures i.CallRel? ==> Pushes(i) == 0 && Pads(i) == 0
  {
  }

  // ---- the frame's own instructions -----------------------------------------------------

  lemma StepHead(w: World, entry: nat, s: State, loc: Loc, acts: seq<Act>) returns (loc2: Loc)
    requires WellFormedUnit(w) && s.status == Running && Spot(w, s, loc, acts)
    requires loc.Called? || loc.Saved? || loc.Framing?
    ensures Onward(w, Step(w, GenUnit(w.funcs, entry), s), loc2, acts)
  {
    hide GenUnit, ZoneOf, BodyAt, Data, WellFormedUnit, Returns, Stacked, Places, SizeFs, Step, CodeAt, Zone;
    var f, code, at := w.funcs[loc.i], GenUnit(w.funcs, entry), Layout(w.funcs).fn[loc.i];
    FuncCode(w, entry, loc.i);
    Fetch(code, at, Head(f), s.pc - at);
    var s1 := s.(pc := s.pc + 1);
    AtData(w, code, s);
    DataStack(w, code[s.pc], s1);
    if loc.Called? {
      HeadSaves(w, s1, acts);
      return Saved(loc.i);
    } else if loc.Saved? && f.frame > 0 {
      return Framing(loc.i);
    } else {
      ZoneStart(w, loc.i);
      return In(Act(loc.i, 0));
    }
  }

  lemma ZoneStart(w: World, i: nat)
    requires WellFormedUnit(w) && i < |w.funcs|
    ensures IsAct(w, Act(i, 0)) && Stacked(ZoneOf(w, i), 0) == 0
    ensures BodyAt(w, i) == Layout(w.funcs).fn[i] + (if w.funcs[i].frame > 0 then 3 else 2)
  {
    hide ZoneOf;
  }

  lemma HeadSaves(w: World, s: State, acts: seq<Act>)
    requires Returns(w, s.stk, s.rsp, s.rbp, acts)
    ensures var t := Stack(PushRbp, s); InFrameAt(w, t.stk, t.rsp, acts)
  {
    hide IsAct, SpAt, BodyAt;
    var t := Stack(PushRbp, s);
    assert s.rsp % 16 == 8;
    ReturnsKept(w, s.stk, t.stk, s.rsp, s.rbp, acts);
  }

  lemma StepLeave(w: World, entry: nat, s: State, i: nat, acts: seq<Act>)
    requires WellFormedUnit(w) && s.status == Running && i < |w.funcs|
    requires Spot(w, s, In(Act(i, |ZoneOf(w, i)|)), acts)
    ensures Onward(w, Step(w, GenUnit(w.funcs, entry), s), Leaving(i), acts)
  {
    hide GenUnit, ZoneOf, BodyAt, Data, WellFormedUnit, Returns, Stacked, Step, CodeAt, Head;
    var code := GenUnit(w.funcs, entry);
    FuncCode(w, entry, i);
    Fetch(code, BodyAt(w, i) + |ZoneOf(w, i)|, [MovRspRbp, PopRbp, Ret], 0);
    AtData(w, code, s);
    DataStack(w, MovRspRbp, s.(pc := s.pc + 1));
  }

  lemma StepUnframe(w: World, entry: nat, s: State, i: nat, acts: seq<Act>)
    requires WellFormedUnit(w) && s.status == Running && Spot(w, s, Leaving(i), acts)
    ensures Onward(w, Step(w, GenUnit(w.funcs, entry), s), Going(i), acts)
  {
    hide GenUnit, ZoneOf, BodyAt, Data, WellFormedUnit, Returns, Stacked, Step, CodeAt, Head;
    var code := GenUnit(w.funcs, entry);
    FuncCode(w, entry, i);
    Fetch(code, BodyAt(w, i) + |ZoneOf(w, i)|, [MovRspRbp, PopRbp, Ret], 1);
    AtData(w, code, s);
    DataStack(w, PopRbp, s.(pc := s.pc + 1));
  }

  lemma StepReturn(w: World, entry: nat, s: State, i: nat, acts: seq<Act>) returns (loc: Loc, rest: seq<Act>)
    requires WellFormedUnit(w) && s.status == Running && Spot(w, s, Going(i), acts)
    ensures Onward(w, Step(w, GenUnit(w.funcs, entry), s), loc, rest)
  {
    hide GenUnit, ZoneOf, BodyAt, WellFormedUnit, Stacked, Step, CodeAt, Head;
    FuncCode(w, entry, i);
    Fetch(GenUnit(w.funcs, entry), BodyAt(w, i) + |ZoneOf(w, i)|, [MovRspRbp, PopRbp, Ret], 2);
    AtRet(w, GenUnit(w.funcs, entry), s);
    if acts == [] {
      return Done, [];
    } else {
      return In(acts[0]), acts[1..];
    }
  }

  // ---- trampoline and stubs ---------------------------------------------------------------

  lemma StepOutside(w: World, entry: nat, s: State, loc: Loc) returns (loc2: Loc)
    requires entry < |w.funcs| && s.status == Running && Spot(w, s, loc, [])
    requires (loc.Start? || loc.Done? || loc.Aborting?)
    ensures Onward(w, Step(w, GenUnit(w.funcs, entry), s), loc2, [])
  {
    hide GenUnit, Step, Spot;
    match loc
    case Start => loc2 := StepStart(w, entry, s);
    case Done =>
      StepDone(w, entry, s);
      loc2 := Done;
    case Aborting(at, n) => loc2 := StepAbort(w, entry, s, at, n);
  }

  lemma StepStart(w: World, entry: nat, s: State) returns (loc: Loc)
    requires entry < |w.funcs| && s.status == Running && Spot(w, s, Start, [])
    ensures Onward(w, Step(w, GenUnit(w.funcs, entry), s), loc, [])
  {
    hide GenUnit, GenFs, Places, SizeFs, CodeAt, Step, Data;
    var code := GenUnit(w.funcs, entry);
    UnitParts(w.funcs, entry);
    LayoutSize(w.funcs);
    Fetch(code, 0, Entry0(w.funcs, entry), s.pc);
    if s.pc == 2 {
      AtCall(w, code, s);
      return Called(entry);
    }
    AtData(w, code, s);
    DataOther(w, code[s.pc], s.(pc := s.pc + 1));
    return Start;
  }

  lemma StepDone(w: World, entry: nat, s: State)
    requires entry < |w.funcs| && s.status == Running && Spot(w, s, Done, [])
    ensures Onward(w, Step(w, GenUnit(w.funcs, entry), s), Done, [])
  {
    hide GenUnit, GenFs, Places, SizeFs, CodeAt, Step, Data;
    var code := GenUnit(w.funcs, entry);
    UnitParts(w.funcs, entry);
    Fetch(code, LDONE, [LoadKrsp, Halt], s.pc - LDONE);
    AtData(w, code, s);
    DataOther(w, code[s.pc], s.(pc := s.pc + 1));
  }

  lemma StepAbort(w: World, entry: nat, s: State, at: int, n: nat) returns (loc: Loc)
    requires entry < |w.funcs| && s.status == Running && Spot(w, s, Aborting(at, n), [])
    ensures Onward(w, Step(w, GenUnit(w.funcs, entry), s), loc, [])
  {
    hide GenUnit, GenFs, Places, SizeFs, CodeAt, Step, Data;
    var code, s1 := GenUnit(w.funcs, entry), s.(pc := s.pc + 1);
    UnitParts(w.funcs, entry);
    Fetch(code, at, Abort(if at == Layout(w.funcs).fuel then 1 else 2, at), n);
    if n == 2 {
      AtJump(w, code, s);
      return Done;
    }
    AtData(w, code, s);
    if n == 0 {
      DataOther(w, code[s.pc], s1);
    } else {
      DataAlu(w, code[s.pc], s1);
    }
    return Aborting(at, n + 1);
  }

  lemma Outside(w: World, s: State, loc: Loc, acts: seq<Act>)
    requires Spot(w, s, loc, acts) && (loc.Start? || loc.Done? || loc.Aborting?)
    ensures Spot(w, s, loc, [])
  {
  }

  lemma StepSpot(w: World, entry: nat, s: State, loc: Loc, acts: seq<Act>) returns (loc2: Loc, acts2: seq<Act>)
    requires WellFormedUnit(w) && entry < |w.funcs| && s.status == Running && Spot(w, s, loc, acts)
    ensures Onward(w, Step(w, GenUnit(w.funcs, entry), s), loc2, acts2)
  {
    hide WellFormedUnit, Onward, Step, GenUnit, BodyAt, ZoneOf, Returns, Stacked;
    match loc
    case Start | Done | Aborting(_, _) =>
      Outside(w, s, loc, acts);
      loc2 := StepOutside(w, entry, s, loc);
      acts2 := [];
    case Called(_) | Saved(_) | Framing(_) =>
      loc2 := StepHead(w, entry, s, loc, acts);
      acts2 := acts;
    case In(a) =>
      acts2 := acts;
      if a.j == |ZoneOf(w, a.i)| {
        StepLeave(w, entry, s, a.i, acts);
        loc2 := Leaving(a.i);
      } else if ZoneOf(w, a.i)[a.j].J? {
        loc2 := StepJump(w, entry, s, a, acts);
      } else if ZoneOf(w, a.i)[a.j].CallRel? {
        var i := StepCall(w, entry, s, a, acts);
        loc2, acts2 := Called(i), [Act(a.i, a.j + 1)] + acts;
      } else {
        StepOn(w, entry, s, a, acts);
        loc2 := In(Act(a.i, a.j + 1));
      }
    case Leaving(i) =>
      StepUnframe(w, entry, s, i, acts);
      loc2, acts2 := Going(i), acts;
    case Going(i) =>
      loc2, acts2 := StepReturn(w, entry, s, i, acts);
  }

  lemma {:induction false} RunSpot(w: World, entry: nat, s: State, n: nat, loc: Loc, acts: seq<Act>)
    returns (loc2: Loc, acts2: seq<Act>)
    requires WellFormedUnit(w) && entry < |w.funcs| && Onward(w, s, loc, acts)
    ensures Onward(w, Run(w, GenUnit(w.funcs, entry), s, n), loc2, acts2)
    decreases n
  {
    hide WellFormedUnit, Spot, Step, GenUnit;
    if n == 0 {
      return loc, acts;
    }
    if s.status != Running {
      RunStopped(w, GenUnit(w.funcs, entry), s, n);
      return loc, acts;
    }
    var loc1, acts1 := StepSpot(w, entry, s, loc, acts);
    loc2, acts2 := RunSpot(w, entry, Step(w, GenUnit(w.funcs, entry), s), n - 1, loc1, acts1);
  }

  // ---- whose code a place belongs to -------------------------------------------------------

  lemma {:induction false} PlacesApart(fs: seq<Func>, at: int, i: nat, j: nat)
    requires i < |fs| && j < |fs|
    ensures at <= Places(fs, at)[i] && Places(fs, at)[i] + SizeF(fs[i]) <= at + SizeFs(fs)
    ensures i < j ==> Places(fs, at)[i] + SizeF(fs[i]) <= Places(fs, at)[j]
    decreases |fs|
  {
    hide SizeF;
    if i > 0 {
      PlacesApart(fs[1..], at + SizeF(fs[0]), i - 1, if j == 0 then i - 1 else j - 1);
    } else if j > 0 {
      PlacesApart(fs[1..], at + SizeF(fs[0]), j - 1, j - 1);
    }
  }

  lemma ZoneInside(w: World, i: nat)
    requires i < |w.funcs|
    ensures BodyAt(w, i) + |ZoneOf(w, i)| + 3 == Layout(w.funcs).fn[i] + SizeF(w.funcs[i])
    ensures BodyAt(w, i) == Layout(w.funcs).fn[i] + (if w.funcs[i].frame > 0 then 3 else 2)
  {
    hide Zone, SizeF, GenF, Places, SizeFs;
    var k := Layout(w.funcs);
    FuncParts(w.funcs[i], k.fn[i], k);
    SizeOfF(w.funcs[i], k.fn[i], k);
  }

  /** A place in a zone belongs to that point alone. */
  lemma OnlySpot(w: World, s: State, loc: Loc, acts: seq<Act>, a: Act)
    requires Spot(w, s, loc, acts) && IsAct(w, a) && s.pc == BodyAt(w, a.i) + a.j
    ensures loc == In(a)
  {
    hide ZoneOf, BodyAt, Returns, Stacked, Places, SizeFs, SizeF;
    var k := Layout(w.funcs);
    ZoneInside(w, a.i);
    PlacesApart(w.funcs, 5, a.i, a.i);
    if loc.Called? || loc.Saved? || loc.Framing? || loc.Leaving? || loc.Going? || loc.In? {
      var i := if loc.In? then loc.a.i else loc.i;
      ZoneInside(w, i);
      PlacesApart(w.funcs, 5, i, a.i);
      PlacesApart(w.funcs, 5, a.i, i);
    }
  }

  /** At every state of every run, whatever the program does: the machine has not
      been lost or misaligned, and at point `j` of function `i` the stack pointer
      lies below the frame by the words the code up to there pushed and did not
      pop, and by the padding of a call being made there. */
  lemma StackAtEveryPoint(w: World, entry: nat, s: State, n: nat, i: nat, j: nat)
    requires WellFormedUnit(w) && entry < |w.funcs|
    requires s.status == Running && s.pc == 0 && s.rt.prsp % 16 == 0
    requires i < |w.funcs| && j <= |ZoneOf(w, i)|
    ensures var t, z := Run(w, GenUnit(w.funcs, entry), s, n), ZoneOf(w, i);
            && t.status != Misaligned && t.status != Lost
            && (t.status == Running && t.pc == BodyAt(w, i) + j ==>
                  && t.rsp == t.rbp - w.funcs[i].frame - 8 * (Pushed(z, j) + Padded(z, j))
                  && t.rbp % 16 == 0 && 0 <= Pushed(z, j) && 0 <= Padded(z, j) <= 1)
  {
    hide WellFormedUnit, Run, GenUnit, ZoneOf, BodyAt, Returns, Pushed, Padded;
    var loc, acts := RunSpot(w, entry, s, n, Start, []);
    var t := Run(w, GenUnit(w.funcs, entry), s, n);
    ZoneActs(w, i, j);
    if t.status == Running && t.pc == BodyAt(w, i) + j {
      OnlySpot(w, t, loc, acts, Act(i, j));
    }
  }

  // ---- variables and the words between them ----------------------------------------------

  /** Byte `x` is a variable's: it lies in the frame of an active function, the one
      at `a` or one that waits in `acts`. */
  ghost predicate Var(w: World, stk: map<int, int>, a: Act, fp: int, acts: seq<Act>, x: int)
    requires IsAct(w, a) && InFrameAt(w, stk, fp, acts)
    decreases |acts|
  {
    || fp - w.funcs[a.i].frame <= x < fp
    || (acts != [] &&
        assert Returns(w, stk, fp + 8, At(stk, fp), acts);
        Var(w, stk, acts[0], At(stk, fp), acts[1..], x))
  }

  /** Byte `x` is the stack's own: of a word some active function has pushed, or of
      a saved frame pointer or return address. */
  ghost predicate Word(w: World, stk: map<int, int>, a: Act, fp: int, acts: seq<Act>, x: int)
    requires IsAct(w, a) && InFrameAt(w, stk, fp, acts)
    decreases |acts|
  {
    || SpAt(w, a, fp) <= x < fp - w.funcs[a.i].frame
    || fp <= x < fp + 16
    || (acts != [] &&
        assert Returns(w, stk, fp + 8, At(stk, fp), acts);
        Word(w, stk, acts[0], At(stk, fp), acts[1..], x))
  }

  /** Frames and words lie side by side all the way up: no byte is both. */
  lemma {:induction false} SideBySide(w: World, stk: map<int, int>, a: Act, fp: int, acts: seq<Act>, x: int)
    requires IsAct(w, a) && InFrameAt(w, stk, fp, acts)
    ensures !(Var(w, stk, a, fp, acts, x) && Word(w, stk, a, fp, acts, x))
    ensures Var(w, stk, a, fp, acts, x) || Word(w, stk, a, fp, acts, x) ==> SpAt(w, a, fp) <= x
    decreases |acts|
  {
    hide ZoneOf, BodyAt, Stacked;
    if acts != [] {
      assert Returns(w, stk, fp + 8, At(stk, fp), acts);
      SideBySide(w, stk, acts[0], At(stk, fp), acts[1..], x);
    }
  }

  /** At every state of every run, inside a function: no byte of a variable, its own
      or that of any function waiting for it, is a byte of a word the stack is
      using, and none of them lies below the stack pointer. */
  lemma FramesClear(w: World, entry: nat, s: State, n: nat, i: nat, j: nat) returns (acts: seq<Act>)
    requires WellFormedUnit(w) && entry < |w.funcs|
    requires s.status == Running && s.pc == 0 && s.rt.prsp % 16 == 0
    requires i < |w.funcs| && j <= |ZoneOf(w, i)|
    ensures var t, a := Run(w, GenUnit(w.funcs, entry), s, n), Act(i, j);
            t.status == Running && t.pc == BodyAt(w, i) + j ==>
              && IsAct(w, a) && InFrameAt(w, t.stk, t.rbp, acts)
              && forall x ::
                   && !(Var(w, t.stk, a, t.rbp, acts, x) && Word(w, t.stk, a, t.rbp, acts, x))
                   && (Var(w, t.stk, a, t.rbp, acts, x) || Word(w, t.stk, a, t.rbp, acts, x) ==> t.rsp <= x)
  {
    hide WellFormedUnit, Run, GenUnit, ZoneOf, BodyAt, Returns, Pushed, Padded, Var, Word;
    var loc, chain := RunSpot(w, entry, s, n, Start, []);
    acts := chain;
    var t := Run(w, GenUnit(w.funcs, entry), s, n);
    ZoneActs(w, i, j);
    if t.status == Running && t.pc == BodyAt(w, i) + j {
      OnlySpot(w, t, loc, acts, Act(i, j));
      forall x
        ensures !(Var(w, t.stk, Act(i, j), t.rbp, acts, x) && Word(w, t.stk, Act(i, j), t.rbp, acts, x))
        ensures Var(w, t.stk, Act(i, j), t.rbp, acts, x) || Word(w, t.stk, Act(i, j), t.rbp, acts, x) ==> t.rsp <= x
      {
        SideBySide(w, t.stk, Act(i, j), t.rbp, acts, x);
      }
    }
  }

  /** In every function a jump and the place it goes to have the same words on the
      stack, unless it goes to an abort; and a call is padded exactly if an odd
      number of words is pushed. */
  lemma JumpsAgree(w: World, i: nat, j: nat)
    requires WellFormedUnit(w) && i < |w.funcs| && j < |ZoneOf(w, i)|
    ensures var z, k := ZoneOf(w, i), Layout(w.funcs);
            && (z[j].J? ==>
                  var t := j + 1 + z[j].rel;
                  || BodyAt(w, i) + t == k.fuel || BodyAt(w, i) + t == k.stack
                  || (0 <= t <= |z| && Pushed(z, t) == Pushed(z, j) && Padded(z, t) == Padded(z, j)))
            && (z[j].CallRel? || z[j].CallR11? ==> Padded(z, j) == Pushed(z, j) % 2)
  {
    hide ZoneOf, BodyAt, WellFormedUnit, Pushed, Padded;
    ZoneLevel(w, i);
    assert LevelAt(ZoneOf(w, i), 0, BodyAt(w, i), {}, Layout(w.funcs), j);
  }
}
