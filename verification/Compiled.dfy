// What the code generator leaves in the buffer, as a whole: it does what the
// program means, and the depth it kept while emitting is the stack at run time.

module Compiled {
  import opened Words
  import opened CTree
  import opened X64
  import opened Gen
  import opened Emit
  import opened EmitKeeps
  import opened SimBase
  import opened SimUnit
  import opened EmitFitsS
  import opened Depth
  import opened DepthRun
  import opened EmitDepth
  import EmitImage

  /** The buffer after every jump was filled in. */
  function Buffer(fs: seq<Func>, entry: nat, cap: nat): seq<Instr>
    requires entry < |fs|
  {
    var r := EmitUnit(fs, entry, cap);
    Lay(r.items, r.lab)
  }

  lemma BufferIs(w: World, entry: nat, cap: nat)
    requires WellFormedUnit(w) && entry < |w.funcs| && !EmitUnit(w.funcs, entry, cap).fails
    ensures Buffer(w.funcs, entry, cap) == GenUnit(w.funcs, entry) && Pending(EmitUnit(w.funcs, entry, cap)) == {}
  {
    hide EmitUnit, GenUnit, Lay, Pending, EmitImage.Plain;
    forall j | 0 <= j < |w.funcs|
      ensures EmitImage.Plain(w.funcs[j])
    {
      assert WellFormedFunc(w, w.funcs[j]);
      EmitImage.WellFormedPlain(w, w.funcs[j]);
    }
    EmitImage.ImageIs(w.funcs, entry, cap);
  }

  /** Whatever unit the generator accepts, running the buffer it filled does what
      the program means, within a bound linear in fuel: same result, same memory,
      same fuel left, or the abort its budget calls for. */
  lemma CompiledRuns(w: World, entry: nat, cap: nat, s: State) returns (n: nat)
    requires WellFormedUnit(w) && entry < |w.funcs| && UnitFits(w.funcs, entry, cap)
    requires s.status == Running && s.pc == 0 && 0 <= s.fuel
    requires s.rt.limit == w.limit && s.rt.prsp % 16 == 0
    ensures var r := RunFunc(w, w.funcs[entry], Incoming(w, entry, s), s.rt.prsp, s.mem, s.fuel);
            && Finished(w, entry, s, Run(w, Buffer(w.funcs, entry, cap), s, n), r)
            && (r.Wild? || n <= 8 + MaxWeight(w.funcs) * (s.fuel + 1))
  {
    hide WellFormedUnit, UnitFits, EmitUnit, Run, RunFunc, Finished, Incoming, MaxWeight;
    EmitsIff(w.funcs, entry, cap);
    BufferIs(w, entry, cap);
    n := ImageRuns(w, entry, s);
  }

  /** The depth the emitter had when it put down point `j` of function `i` is the
      count of words pushed there. */
  lemma RecordedDepth(w: World, entry: nat, cap: nat, i: nat, j: nat)
    requires WellFormedUnit(w) && entry < |w.funcs| && UnitFits(w.funcs, entry, cap)
    requires i < |w.funcs| && j <= |ZoneOf(w, i)|
    ensures var items := EmitUnit(w.funcs, entry, cap).items;
            0 <= BodyAt(w, i) + j < |items| && items[BodyAt(w, i) + j].depth == Pushed(ZoneOf(w, i), j)
  {
    hide WellFormedUnit, UnitFits, EmitUnit, GenUnit, Lay, ZoneOf, Layout, SizeF, CodeAt, Net, Pushed, Head, Pending;
    EmitsIff(w.funcs, entry, cap);
    BufferIs(w, entry, cap);
    LayoutSize(w.funcs);
    TrackUnit(w.funcs, entry, cap, i);
    ZoneInside(w, i);
    FuncCode(w, entry, i);
    var r, from := EmitUnit(w.funcs, entry, cap), Layout(w.funcs).fn[i];
    var x := BodyAt(w, i) + j;
    assert r.items[x].depth == Net(r.items, from, x);
    Segment(Buffer(w.funcs, entry, cap), from, Head(w.funcs[i]));
    Segment(Buffer(w.funcs, entry, cap), BodyAt(w, i), ZoneOf(w, i));
    NetIsPushed(r.items, r.lab, from, Head(w.funcs[i]), |Head(w.funcs[i])|);
    NetIsPushed(r.items, r.lab, BodyAt(w, i), ZoneOf(w, i), j);
    NetAdds(r.items, from, BodyAt(w, i), x);
    HeadPushesNone(w.funcs[i]);
  }

  lemma Segment(code: seq<Instr>, at: int, seg: seq<Instr>)
    requires CodeAt(code, at, seg)
    ensures 0 <= at && at + |seg| <= |code| && code[at..at + |seg|] == seg
  {
  }

  lemma {:induction false} NetAdds(items: seq<Item>, a: nat, b: nat, c: nat)
    requires a <= b <= c <= |items|
    ensures Net(items, a, c) == Net(items, a, b) + Net(items, b, c)
    decreases c
  {
    if c > b {
      NetAdds(items, a, b, c - 1);
    }
  }

  lemma HeadPushesNone(f: Func)
    ensures Pushed(Head(f), |Head(f)|) == 0
  {
    var h := Head(f);
    assert Pushed(h, 0) == 0 && Pushed(h, 1) == 0 && Pushed(h, 2) == 0;
  }

  /** The emitter's depth is the number of words really on the stack: at every state
      of every run of the buffer, inside a function, the stack pointer lies below
      the frame by the depth recorded with the instruction there, and by one word
      of padding around a call that needs it. */
  lemma DepthIsReal(w: World, entry: nat, cap: nat, s: State, n: nat, i: nat, j: nat)
    requires WellFormedUnit(w) && entry < |w.funcs| && UnitFits(w.funcs, entry, cap)
    requires s.status == Running && s.pc == 0 && s.rt.prsp % 16 == 0
    requires i < |w.funcs| && j <= |ZoneOf(w, i)|
    ensures var t, items := Run(w, Buffer(w.funcs, entry, cap), s, n), EmitUnit(w.funcs, entry, cap).items;
            && t.status != Misaligned && t.status != Lost
            && (t.status == Running && t.pc == BodyAt(w, i) + j ==>
                  && 0 <= t.pc < |items|
                  && t.rsp == t.rbp - w.funcs[i].frame - 8 * (items[t.pc].depth + Padded(ZoneOf(w, i), j))
                  && t.rbp % 16 == 0 && 0 <= items[t.pc].depth && 0 <= Padded(ZoneOf(w, i), j) <= 1)
  {
    hide WellFormedUnit, UnitFits, EmitUnit, GenUnit, Run, ZoneOf, BodyAt, Pushed, Padded;
    EmitsIff(w.funcs, entry, cap);
    BufferIs(w, entry, cap);
    StackAtEveryPoint(w, entry, s, n, i, j);
    RecordedDepth(w, entry, cap, i, j);
  }

  /** A jump and the instruction it goes to were put down at the same depth, unless
      it goes to an abort. */
  lemma LabelsAgree(w: World, entry: nat, cap: nat, i: nat, j: nat)
    requires WellFormedUnit(w) && entry < |w.funcs| && UnitFits(w.funcs, entry, cap)
    requires i < |w.funcs| && j < |ZoneOf(w, i)| && ZoneOf(w, i)[j].J?
    ensures var at, items, k := BodyAt(w, i) + j, EmitUnit(w.funcs, entry, cap).items, Layout(w.funcs);
            var to := at + 1 + ZoneOf(w, i)[j].rel;
            || to == k.fuel || to == k.stack
            || (0 <= at < |items| && 0 <= to < |items| && items[at].depth == items[to].depth)
  {
    hide WellFormedUnit, UnitFits, EmitUnit, ZoneOf, BodyAt, Pushed, Padded;
    JumpsAgree(w, i, j);
    RecordedDepth(w, entry, cap, i, j);
    var t := j + 1 + ZoneOf(w, i)[j].rel;
    if 0 <= t <= |ZoneOf(w, i)| {
      RecordedDepth(w, entry, cap, i, t);
    }
  }
}
