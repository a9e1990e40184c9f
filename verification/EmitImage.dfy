// Whole functions and the whole unit: the emitter, when it does not refuse,
// produces the image of Gen.dfy, and no jump in it is left without a target.

module EmitImage {
  import opened Basics
  import opened Words
  import opened CTree
  import opened X64
  import opened Gen
  import opened SimBase
  import opened SimSizes
  import opened Emit
  import opened EmitKeeps
  import opened EmitKeepsS
  import opened EmitLays
  import opened EmitLaysS

  /** Like Neat, between functions: depth and exits are nobody's business. */
  ghost predicate Tidy(ch: set<int>, a: ES, b: ES, v: Env) {
    !b.fails ==>
      && !a.fails && |a.items| <= |b.items| && |a.lab| <= |b.lab|
      && (forall l :: 0 <= l < |a.lab| && l !in ch ==> b.lab[l] == a.lab[l])
      && Pending(b) <= Pending(a) + Shared(v) + ch
  }

  lemma TidyThen(ch: set<int>, ch2: set<int>, a: ES, b: ES, c: ES, v: Env)
    requires Tidy(ch, a, b, v) && Tidy(ch2, b, c, v) && ch2 <= ch
    ensures Tidy(ch, a, c, v)
  {
    hide Pending, Shared;
  }

  lemma TidyFewer(ch: set<int>, ch2: set<int>, a: ES, b: ES, v: Env)
    requires Tidy(ch, a, b, v) && ch <= ch2
    ensures Tidy(ch2, a, b, v)
  {
    hide Pending, Shared;
  }

  lemma TidyHere(st: ES, l: int, v: Env)
    ensures var t := Here(st, l);
            && Tidy({l}, st, t, v) && |t.lab| == |st.lab| && t.items == st.items && t.fails == st.fails
            && (!t.fails && 0 <= l < |t.lab| ==> t.lab[l] == |st.items|)
  {
    NeatHere(st, l, v);
    var t := Here(st, l);
    if !t.fails {
      forall x | x in Pending(t)
        ensures x in Pending(st)
      {
        var i :| 0 <= i < |t.items| && t.items[i].Rel? && !IsPlaced(t, t.items[i].to) && t.items[i].to == x;
        assert !IsPlaced(st, st.items[i].to);
      }
    }
  }

  // ---- one function ------------------------------------------------------------------

  lemma {:induction false} NeatParams(st: ES, v: Env, ps: seq<Param>, i: nat)
    ensures Neat({}, st, EmitParams(st, v, ps, i), v, 0)
    decreases |ps|
  {
    hide Neat, Puts, ArgReg;
    if ps == [] {
      NeatNone(st, v);
    } else {
      var c := [MovRaxArg(ArgReg(i)), LeaRdiRbp(ps[0].off), StoreRdi(ps[0].w)];
      NeatPuts(st, v, c);
      NeatParams(Puts(st, v, c), v, ps[1..], i + 1);
      NeatJoin(st, Puts(st, v, c), EmitParams(Puts(st, v, c), v, ps[1..], i + 1), v, 0, 0);
    }
  }

  lemma {:induction false} WritesParams(st: ES, v: Env, ps: seq<Param>, i: nat, off: seq<int>)
    ensures Writes(st, EmitParams(st, v, ps, i), off, ParamCode(ps, i))
    decreases |ps|
  {
    hide Writes, Puts, ArgReg;
    if ps == [] {
      WritesNone(st, st, off);
    } else {
      var c := [MovRaxArg(ArgReg(i)), LeaRdiRbp(ps[0].off), StoreRdi(ps[0].w)];
      WritesPuts(st, v, c, off);
      WritesParams(Puts(st, v, c), v, ps[1..], i + 1, off);
      WritesThen(st, Puts(st, v, c), EmitParams(Puts(st, v, c), v, ps[1..], i + 1), off, c, ParamCode(ps[1..], i + 1));
    }
  }

  lemma OpenPrologue(st: ES, v: Env, f: Func) returns (s1: ES, s2: ES, s3: ES, p3: ES, s4: ES)
    ensures s1 == Puts(st, v, [PushRbp, MovRbpRsp])
    ensures s2 == if f.frame > 0 then Put1(s1, v, SubRsp(f.frame)) else s1
    ensures s3 == FuelCheck(s2, v) && p3 == Put1(s3, v, CmpRspLimit) && s4 == Jump(p3, v, B, v.stack)
    ensures EmitPrologue(st, v, f) == EmitParams(s4, v, f.params, 0)
  {
    s1 := Puts(st, v, [PushRbp, MovRbpRsp]);
    s2 := if f.frame > 0 then Put1(s1, v, SubRsp(f.frame)) else s1;
    s3 := FuelCheck(s2, v);
    p3 := Put1(s3, v, CmpRspLimit);
    s4 := Jump(p3, v, B, v.stack);
  }

  lemma NeatPrologue(st: ES, v: Env, f: Func)
    ensures Neat({}, st, EmitPrologue(st, v, f), v, 0)
  {
    hide Neat, Puts, Put1, FuelCheck, Jump, EmitParams, EmitPrologue;
    var s1, s2, s3, p3, s4 := OpenPrologue(st, v, f);
    NeatPuts(st, v, [PushRbp, MovRbpRsp]);
    NeatPut(s1, v, SubRsp(f.frame));
    NeatNone(s1, v);
    NeatFuel(s2, v);
    NeatPut(s3, v, CmpRspLimit);
    NeatJump({}, p3, v, B, v.stack);
    NeatParams(s4, v, f.params, 0);
    NeatJoin(st, s1, s2, v, 0, 0);
    NeatJoin(st, s2, s3, v, 0, 0);
    NeatJoin(st, s3, p3, v, 0, 0);
    NeatJoin(st, p3, s4, v, 0, 0);
    NeatJoin(st, s4, EmitPrologue(st, v, f), v, 0, 0);
  }

  lemma PrologueShape(f: Func, at: int, k: Links, c0: seq<Instr>)
    requires c0 == if f.frame > 0 then [SubRsp(f.frame)] else []
    ensures var q := at + 2 + |c0|;
            Prologue(f, at, k)
            == [PushRbp, MovRbpRsp] + c0 + [DecFuel, Far(S, k.fuel, q + 1)] + [CmpRspLimit]
               + [Far(B, k.stack, q + 3)] + ParamCode(f.params, 0)
  {
    hide ParamCode;
    var q := at + 2 + |c0|;
    var a := [PushRbp, MovRbpRsp] + c0;
    assert a + [DecFuel] + [Far(S, k.fuel, q + 1), CmpRspLimit]
        == a + [DecFuel, Far(S, k.fuel, q + 1)] + [CmpRspLimit];
  }

  lemma WritesPrologue(st: ES, v: Env, f: Func, off: seq<int>)
    requires !EmitPrologue(st, v, f).fails
    ensures Writes(st, EmitPrologue(st, v, f), off, Prologue(f, |st.items|, LinksOf(v, off)))
  {
    hide Lay, Puts, Put1, FuelCheck, Jump, EmitParams, EmitPrologue, Prologue, ParamCode, LinksOf, OffOf, Far;
    var s1, s2, s3, p3, s4 := OpenPrologue(st, v, f);
    var c0 := if f.frame > 0 then [SubRsp(f.frame)] else [];
    var k := LinksOf(v, off);
    LinksFuel(v, off);
    WritesPuts(st, v, [PushRbp, MovRbpRsp], off);
    WritesPut(s1, v, SubRsp(f.frame), off);
    WritesNone(s1, s1, off);
    WritesFuel(s2, v, off);
    WritesPut(s3, v, CmpRspLimit, off);
    WritesJump(p3, v, B, v.stack, off);
    WritesParams(s4, v, f.params, 0, off);
    PrologueShape(f, |st.items|, k, c0);
    var q := |st.items| + 2 + |c0|;
    var c1 := [PushRbp, MovRbpRsp] + c0;
    var c2 := c1 + [DecFuel, Far(S, k.fuel, q + 1)];
    WritesThen(st, s1, s2, off, [PushRbp, MovRbpRsp], c0);
    WritesThen(st, s2, s3, off, c1, [DecFuel, Far(S, k.fuel, q + 1)]);
    WritesThen(st, s3, p3, off, c2, [CmpRspLimit]);
    WritesThen(st, p3, s4, off, c2 + [CmpRspLimit], [Far(B, k.stack, q + 3)]);
    WritesThen(st, s4, EmitPrologue(st, v, f), off, c2 + [CmpRspLimit] + [Far(B, k.stack, q + 3)],
      ParamCode(f.params, 0));
  }

  /** What a function's body must be for its labels to resolve. */
  predicate Plain(f: Func) { Cased(f.body) && DistinctCases(f.body) && Cases(f.body) == {} }

  lemma WellFormedPlain(w: World, f: Func)
    requires WellFormedFunc(w, f)
    ensures Plain(f)
  {
    hide WellFormed, Cased, Cases;
    WellFormedCased(w, f.body, f.ret, false, false);
    NoneDistinct(f.body);
  }

  lemma {:induction false} NoneDistinct(s: Stmt)
    requires Cases(s) == {}
    ensures DistinctCases(s)
    decreases s
  {
    match s
    case Seq(a, b) =>
      assert Cases(a) == {} && Cases(b) == {};
      NoneDistinct(a);
      NoneDistinct(b);
    case If(_, t, f) =>
      assert Cases(t) == {};
      NoneDistinct(t);
      if f.Some? {
        assert Cases(f.value) == {};
        NoneDistinct(f.value);
      }
    case Loop(_, _, _, b) => NoneDistinct(b);
    case Case(_, _) =>
    case _ =>
  }

  /** The states of one function's emission. */
  ghost predicate FuncStates(st: ES, v: Env, f: Func, entry: int, w: Env, h: ES, s0: ES, s1: ES, s2: ES, p: ES, h2: ES,
                             r: ES) {
    && w == v.(epi := |st.lab|) && h == Here(st, entry) && s0 == NewLabel(Fresh(h)) && s1 == EmitPrologue(s0, w, f)
    && s2 == EmitS(s1, w, f.body, map[]) && p == Put1(s2, w, XorEax) && h2 == Here(p, w.epi)
    && r == Puts(h2, w, [MovRspRbp, PopRbp, Ret])
  }

  lemma OpenFunc(st: ES, v: Env, f: Func, entry: int) returns (w: Env, h: ES, s0: ES, s1: ES, s2: ES, p: ES, h2: ES,
                 r: ES)
    ensures FuncStates(st, v, f, entry, w, h, s0, s1, s2, p, h2, r) && r == EmitF(st, v, f, entry)
  {
    hide Here, NewLabel, Fresh, EmitPrologue, EmitS, Put1, Puts;
    w := v.(epi := |st.lab|);
    h := Here(st, entry);
    s0 := NewLabel(Fresh(h));
    s1 := EmitPrologue(s0, w, f);
    s2 := EmitS(s1, w, f.body, map[]);
    p := Put1(s2, w, XorEax);
    h2 := Here(p, w.epi);
    r := Puts(h2, w, [MovRspRbp, PopRbp, Ret]);
  }

  lemma FreshLabel(h: ES)
    ensures var s0 := NewLabel(Fresh(h));
            !s0.fails ==> !h.fails && s0.items == h.items && s0.depth == 0 && s0.brk == [] && s0.cont == []
                          && |s0.lab| == |h.lab| + 1 && (forall l :: 0 <= l < |h.lab| ==> s0.lab[l] == h.lab[l])
                          && Pending(s0) <= Pending(h)
  {
    var s0 := NewLabel(Fresh(h));
    if !s0.fails {
      forall x | x in Pending(s0)
        ensures x in Pending(h)
      {
        var i :| 0 <= i < |s0.items| && s0.items[i].Rel? && !IsPlaced(s0, s0.items[i].to) && s0.items[i].to == x;
        assert h.items[i].to == x && !IsPlaced(h, x);
      }
    }
  }

  lemma FuncNeat(st: ES, v: Env, f: Func, entry: int, w: Env, h: ES, s0: ES, s1: ES, s2: ES, p: ES, h2: ES, r: ES)
    requires FuncStates(st, v, f, entry, w, h, s0, s1, s2, p, h2, r) && Plain(f) && !r.fails
    ensures Neat({}, s0, s1, w, 0) && Neat({}, s1, s2, w, 0) && Neat({w.epi}, s2, r, w, 0) && Neat({w.epi}, s0, r, w, 0)
    ensures !h.fails && !s0.fails && !s1.fails && !s2.fails && !p.fails && !h2.fails && h2.items == p.items
    ensures w.epi < |r.lab| && IsPlaced(r, w.epi) && r.lab[w.epi] == |p.items|
    ensures |s0.lab| == |h.lab| + 1 == |st.lab| + 1
  {
    hide Here, NewLabel, Fresh, EmitPrologue, EmitS, Put1, Puts, Neat, IsPlaced, CasesPlaced;
    var fin := [MovRspRbp, PopRbp, Ret];
    FreshLabel(h);
    TidyHere(st, entry, v);
    NeatPrologue(s0, w, f);
    NeatStmt(s1, w, f.body, map[]);
    NoneMoved(f.body, s1, s2, w);
    NeatPut(s2, w, XorEax);
    NeatHere(p, w.epi, w);
    NeatPuts(h2, w, fin);
    SameLabels2(h2, r, w.epi);
    var ch := {w.epi};
    NeatFewer({}, ch, h2, r, w, 0);
    NeatBack(ch, ch, p, h2, r, w);
    NeatBack(ch, {}, s2, p, r, w);
    NeatBack(ch, {}, s1, s2, r, w);
    NeatBack(ch, {}, s0, s1, r, w);
  }

  lemma NoneMoved(b: Stmt, s1: ES, s2: ES, v: Env)
    requires NeatS(s1, s2, v, b, map[])
    ensures Neat({}, s1, s2, v, 0)
  {
    hide Neat;
    assert CaseSet(map[], b) == {};
  }

  lemma SameLabels2(a: ES, b: ES, l: int)
    requires b.lab == a.lab && IsPlaced(a, l)
    ensures IsPlaced(b, l) && b.lab[l] == a.lab[l]
  {
  }

  lemma TidyFunc(st: ES, v: Env, f: Func, entry: int)
    requires Plain(f)
    ensures Tidy({entry}, st, EmitF(st, v, f, entry), v)
    ensures var r := EmitF(st, v, f, entry);
            !r.fails && 0 <= entry < |st.lab| ==> |r.lab| > |st.lab| && r.lab[entry] == |st.items|
  {
    hide Here, NewLabel, Fresh, EmitPrologue, EmitS, Put1, Puts, Plain, EmitF;
    var w, h, s0, s1, s2, p, h2, r := OpenFunc(st, v, f, entry);
    if !r.fails {
      FuncNeat(st, v, f, entry, w, h, s0, s1, s2, p, h2, r);
      FreshLabel(h);
      TidyHere(st, entry, v);
      NotPending(r, w.epi);
    }
  }

  lemma LaysFunc(st: ES, v: Env, f: Func, entry: int, off: seq<int>)
    requires Plain(f) && !EmitF(st, v, f, entry).fails && Agrees(off, EmitF(st, v, f, entry), |st.lab|)
    ensures Writes(st, EmitF(st, v, f, entry), off, GenF(f, |st.items|, LinksOf(v, off)))
  {
    hide Here, NewLabel, Fresh, EmitPrologue, EmitS, Put1, Puts, EmitF, Neat, Lay, Agrees, OffOf, Prologue, GenS,
      SizeS, IsPlaced,
      Cased, Cases, DistinctCases, LinksOf, CasesAt, Pending;
    var w, h, s0, s1, s2, p, h2, r := OpenFunc(st, v, f, entry);
    FuncNeat(st, v, f, entry, w, h, s0, s1, s2, p, h2, r);
    FreshLabel(h);
    TidyHere(st, entry, v);
    NeatFacts({}, s0, s1, w, 0);
    AgreesPart(off, |st.lab|, |s1.lab|, s2, r, {w.epi}, w, 0);
    PlaceAgrees(off, r, |st.lab|, w.epi);
    SameLinks(v, w, off);
    WritesPrologue(s0, w, f, off);
    LaysS(s1, w, f.body, map[], off);
    WritesPut(s2, w, XorEax, off);
    WritesPuts(h2, w, [MovRspRbp, PopRbp, Ret], off);
    NoExits(w, s1, off);
    var k := LinksOf(v, off);
    var c1 := Prologue(f, |st.items|, k);
    var y := Exits(0, 0, OffOf(off, w.epi));
    var c2 := GenS(f.body, |st.items| + |c1|, k, y);
    SizeOfS(f.body, |st.items| + |c1|, k, y);
    WritesFrom(st, s0, s1, off, c1);
    WritesThen(st, s1, s2, off, c1, c2);
    WritesThen(st, s2, p, off, c1 + c2, [XorEax]);
    WritesQuiet(st, p, h2, off, c1 + c2 + [XorEax]);
    WritesThen(st, h2, r, off, c1 + c2 + [XorEax], [MovRspRbp, PopRbp, Ret]);
    assert GenF(f, |st.items|, k) == c1 + c2 + [XorEax] + [MovRspRbp, PopRbp, Ret];
  }

  lemma SameLinks(v: Env, w: Env, off: seq<int>)
    requires w == v.(epi := w.epi)
    ensures LinksOf(w, off) == LinksOf(v, off)
  {
  }

  lemma NoExits(w: Env, st: ES, off: seq<int>)
    requires st.brk == [] && st.cont == []
    ensures ExitsOf(w, st, off) == Exits(0, 0, OffOf(off, w.epi))
  {
  }

  // ---- all functions -----------------------------------------------------------------

  /** Function `j`'s entry label, for j from `i` on. */
  ghost function Entries(v: Env, i: nat): set<int> { set j | i <= j < |v.fn| :: v.fn[j] }

  ghost predicate Numbered(v: Env, fs: seq<Func>) {
    |v.fn| == |fs| && forall j :: 0 <= j < |fs| ==> v.fn[j] == j
  }

  lemma {:induction false} TidyFuncs(st: ES, v: Env, fs: seq<Func>, i: nat)
    requires Numbered(v, fs) && i <= |fs| && (forall j :: 0 <= j < |fs| ==> Plain(fs[j]))
    ensures Tidy(Entries(v, i), st, EmitFs(st, v, fs, i), v)
    decreases |fs| - i
  {
    hide Tidy, EmitF, Plain;
    if i == |fs| {
      TidySame(st, v);
      TidyFewer({}, Entries(v, i), st, st, v);
    } else {
      var s1 := EmitF(st, v, fs[i], v.fn[i]);
      TidyFunc(st, v, fs[i], v.fn[i]);
      TidyFuncs(s1, v, fs, i + 1);
      TidyFewer({v.fn[i]}, Entries(v, i), st, s1, v);
      TidyThen(Entries(v, i), Entries(v, i + 1), st, s1, EmitFs(s1, v, fs, i + 1), v);
    }
  }

  lemma TidySame(st: ES, v: Env)
    ensures Tidy({}, st, st, v)
  {
  }

  lemma AgreesTidy(off: seq<int>, n: int, from: int, s: ES, t: ES, ch: set<int>, v: Env)
    requires Agrees(off, t, n) && n <= from && Tidy(ch, s, t, v) && !t.fails && (forall l :: l in ch ==> l < from)
    ensures Agrees(off, s, from) && !s.fails
  {
    hide Pending, OffOf, Shared;
  }

  /** Entry points come out where Places puts them. */
  ghost predicate Entered(t: ES, fs: seq<Func>, i: nat, at: int) {
    i <= |fs| <= |t.lab| && t.lab[i..|fs|] == Places(fs[i..], at)
  }

  lemma {:induction false} LaysFuncs(st: ES, v: Env, fs: seq<Func>, i: nat, off: seq<int>)
    requires Numbered(v, fs) && i <= |fs| <= |st.lab| && (forall j :: 0 <= j < |fs| ==> Plain(fs[j]))
    requires !EmitFs(st, v, fs, i).fails && Agrees(off, EmitFs(st, v, fs, i), |st.lab|)
    ensures Writes(st, EmitFs(st, v, fs, i), off, GenFs(fs[i..], |st.items|, LinksOf(v, off)))
    ensures Entered(EmitFs(st, v, fs, i), fs, i, |st.items|)
    decreases |fs| - i
  {
    hide EmitF, Plain, Tidy, Agrees, Writes, LinksOf, GenF, SizeF, Entered;
    if i == |fs| {
      NoneEntered(st, fs, |st.items|);
      WritesNone(st, st, off);
    } else {
      var s1 := EmitF(st, v, fs[i], v.fn[i]);
      var t := EmitFs(s1, v, fs, i + 1);
      TidyFunc(st, v, fs[i], v.fn[i]);
      TidyFuncs(s1, v, fs, i + 1);
      AgreesTidy(off, |st.lab|, |st.lab|, s1, t, Entries(v, i + 1), v);
      AgreesUp(off, t, |st.lab|, |s1.lab|);
      LaysFunc(st, v, fs[i], v.fn[i], off);
      LaysFuncs(s1, v, fs, i + 1, off);
      SizeOfF(fs[i], |st.items|, LinksOf(v, off));
      GrownBy(st, s1, off, GenF(fs[i], |st.items|, LinksOf(v, off)));
      assert fs[i..][0] == fs[i] && fs[i..][1..] == fs[i + 1..];
      WritesThen(st, s1, t, off, GenF(fs[i], |st.items|, LinksOf(v, off)),
                 GenFs(fs[i + 1..], |s1.items|, LinksOf(v, off)));
      StaysEntered(s1, t, v, i);
      AllEntered(st, s1, t, fs, i);
    }
  }

  lemma NoneEntered(t: ES, fs: seq<Func>, at: int)
    requires |fs| <= |t.lab|
    ensures Entered(t, fs, |fs|, at)
  {
  }

  lemma AllEntered(st: ES, s1: ES, t: ES, fs: seq<Func>, i: nat)
    requires i < |fs| && i < |t.lab| && t.lab[i] == |st.items| && |s1.items| == |st.items| + SizeF(fs[i])
    requires Entered(t, fs, i + 1, |s1.items|)
    ensures Entered(t, fs, i, |st.items|)
  {
    hide SizeF, Places;
    PlacesNext(fs, i, |st.items|);
    assert t.lab[i..|fs|] == [t.lab[i]] + t.lab[i + 1..|fs|];
  }

  lemma PlacesNext(fs: seq<Func>, i: nat, at: int)
    requires i < |fs|
    ensures Places(fs[i..], at) == [at] + Places(fs[i + 1..], at + SizeF(fs[i]))
  {
    hide SizeF;
    assert fs[i..][0] == fs[i] && fs[i..][1..] == fs[i + 1..];
  }

  lemma GrownBy(a: ES, b: ES, off: seq<int>, c: seq<Instr>)
    requires Writes(a, b, off, c) && !b.fails
    ensures |b.items| == |a.items| + |c|
  {
  }

  lemma StaysEntered(s1: ES, t: ES, v: Env, i: nat)
    requires Tidy(Entries(v, i + 1), s1, t, v) && !t.fails && i < |s1.lab| && i < |v.fn|
    requires forall j :: 0 <= j < |v.fn| ==> v.fn[j] == j
    ensures i < |t.lab| && t.lab[i] == s1.lab[i]
  {
    hide Pending, Shared;
    assert i !in Entries(v, i + 1);
  }

  // ---- the unit ----------------------------------------------------------------------

  lemma {:induction false} ManyLabels(st: ES, n: nat)
    requires st.items == [] && (forall l :: 0 <= l < |st.lab| ==> st.lab[l] == -1)
    ensures var t := NewLabels(st, n);
            t.items == [] && (!t.fails ==> |t.lab| == |st.lab| + n && !st.fails && forall l :: 0 <= l < |t.lab| ==>
              t.lab[l] == -1)
    decreases n
  {
    if n > 0 {
      ManyLabels(NewLabel(st), n - 1);
    }
  }

  /** Some straight code, or a jump: labels untouched. */
  lemma PutsFacts(st: ES, v: Env, c: seq<Instr>)
    ensures var t := Puts(st, v, c);
            t.lab == st.lab && (!t.fails ==> !st.fails && |t.items| == |st.items| + |c| && Pending(t) <= Pending(st))
    decreases |c|
  {
    if c != [] {
      var s1 := Put1(st, v, c[0]);
      if !s1.fails {
        SamePending(st, s1);
      }
      PutsFacts(s1, v, c[1..]);
    }
  }

  lemma RelFacts(st: ES, v: Env, i: Instr, l: int)
    ensures var t := RelTo(st, v, i, l);
            t.lab == st.lab && (!t.fails ==>
              !st.fails && |t.items| == |st.items| + 1 && Pending(t) <= Pending(st) + {l})
  {
    var t := RelTo(st, v, i, l);
    if !t.fails {
      SamePending(st, t);
    }
  }

  lemma HereFacts(st: ES, l: int)
    requires !st.fails && 0 <= l < |st.lab|
    ensures var t := Here(st, l); t == st.(lab := st.lab[l := |st.items|]) && Pending(t) <= Pending(st)
  {
    var t := Here(st, l);
    forall x | x in Pending(t)
      ensures x in Pending(st)
    {
      var i :| 0 <= i < |t.items| && t.items[i].Rel? && !IsPlaced(t, t.items[i].to) && t.items[i].to == x;
      assert !IsPlaced(st, st.items[i].to);
    }
  }

  lemma AbortFacts(st: ES, v: Env, cause: int, here: int, done: int, off: seq<int>)
    requires 0 <= here < |st.lab| && !EmitAbort(st, v, cause, here, done).fails
    ensures var t := EmitAbort(st, v, cause, here, done);
            && !st.fails && t.lab == st.lab[here := |st.items|] && |t.items| == |st.items| + 3
            && Pending(t) <= Pending(st) + {done}
            && Writes(st, t, off, [SetAborted(cause), XorEax, Far(Always, OffOf(off, done), |st.items| + 2)])
  {
    hide Here, Puts, RelTo, Pending, Lay, OffOf;
    var s1 := Here(st, here);
    var c := [SetAborted(cause), XorEax];
    var s2 := Puts(s1, v, c);
    var t := Jump(s2, v, Always, done);
    HereItems(st, here);
    PutsFacts(s1, v, c);
    RelFacts(s2, v, J(Always, 0), done);
    HereFacts(st, here);
    WritesPuts(s1, v, c, off);
    WritesJump(s2, v, Always, done, off);
    WritesFrom(st, s1, s2, off, c);
    var j := [Far(Always, OffOf(off, done), |s2.items|)];
    WritesThen(st, s2, t, off, c, j);
    assert c + j == [SetAborted(cause), XorEax, Far(Always, OffOf(off, done), |st.items| + 2)];
  }

  ghost predicate UnitStates(fs: seq<Func>, entry: nat, v: Env, s0: ES, t1: ES, t2: ES, s2: ES, s3: ES, r: ES) {
    var done := |fs| + 2;
    && |s0.lab| == |fs| + 3 && s0.items == [] && !s0.fails && t1 == RelTo(Puts(s0, v, [SaveKrsp, LoadPrsp]), v,
          CallRel(0), entry)
    && t2 == Puts(Here(t1, done), v, [LoadKrsp, Halt]) && s2 == EmitFs(t2, v, fs, 0)
    && s3 == EmitAbort(s2, v, 1, |fs|, done) && r == EmitAbort(s3, v, 2, |fs| + 1, done)
    && v.fuel == |fs| && v.stack == |fs| + 1 && Numbered(v, fs) && entry < |fs|
    && (forall j :: 0 <= j < |fs| ==> Plain(fs[j])) && !r.fails
  }

  lemma UnitStart(fs: seq<Func>, entry: nat, v: Env, s0: ES, t1: ES, t2: ES, s2: ES, s3: ES, r: ES, off: seq<int>)
    requires UnitStates(fs, entry, v, s0, t1, t2, s2, s3, r)
    ensures !t2.fails && |t2.lab| == |fs| + 3 && |t2.items| == 5 && t2.lab[|fs| + 2] == 3
    ensures Pending(t2) <= {entry}
    ensures Writes(s0, t2, off, [SaveKrsp, LoadPrsp] + [CallRel(OffOf(off, entry) - 3)] + [LoadKrsp, Halt])
  {
    hide Here, Puts, RelTo, EmitFs, EmitAbort, Pending, Lay, OffOf, Plain;
    var done := |fs| + 2;
    var a, b := [SaveKrsp, LoadPrsp], [LoadKrsp, Halt];
    var t0 := Puts(s0, v, a);
    var h := Here(t1, done);
    PutsFacts(s0, v, a);
    RelFacts(t0, v, CallRel(0), entry);
    NoItems(s0);
    HereItems(t1, done);
    PutsFacts(h, v, b);
    HereFacts(t1, done);
    WritesPuts(s0, v, a, off);
    WritesRel(t0, v, CallRel(0), entry, off);
    WritesPuts(h, v, b, off);
    var c := [CallRel(OffOf(off, entry) - 3)];
    WritesThen(s0, t0, t1, off, a, c);
    WritesQuiet(s0, t1, h, off, a + c);
    WritesThen(s0, h, t2, off, a + c, b);
  }

  lemma NoItems(st: ES)
    requires st.items == []
    ensures Pending(st) == {}
  {
  }

  /** The states up to the end, without looking into them. */
  lemma UnitSteps(fs: seq<Func>, entry: nat, v: Env, s0: ES, t1: ES, t2: ES, s2: ES, s3: ES, r: ES)
    requires UnitStates(fs, entry, v, s0, t1, t2, s2, s3, r)
    ensures !t2.fails && !s2.fails && !s3.fails && |t2.lab| == |fs| + 3 <= |s2.lab| && |t2.items| == 5
    ensures r.lab == s2.lab[|fs| := |s2.items|][|fs| + 1 := |s2.items| + 3] && r.lab[|fs| + 2] == 3
    ensures Tidy(Entries(v, 0), t2, s2, v)
  {
    hide Here, Puts, RelTo, EmitFs, EmitAbort, Pending, Lay, OffOf, Plain, Tidy;
    var n := |fs|;
    UnitStart(fs, entry, v, s0, t1, t2, s2, s3, r, []);
    TidyFuncs(t2, v, fs, 0);
    TidyKeepsAll(t2, s2, v, fs);
    AbortLabels(s2, v, 1, n, n + 2);
    AbortLabels(s3, v, 2, n + 1, n + 2);
  }

  lemma AbortLabels(st: ES, v: Env, cause: int, here: int, done: int)
    requires 0 <= here < |st.lab|
    ensures var t := EmitAbort(st, v, cause, here, done);
            |t.lab| >= |st.lab| && (!t.fails ==>
              !st.fails && t.lab == st.lab[here := |st.items|] && |t.items| == |st.items| + 3)
  {
    hide EmitAbort, Pending, Lay;
    if !EmitAbort(st, v, cause, here, done).fails {
      AbortFacts(st, v, cause, here, done, []);
    }
  }

  lemma TidyKeepsAll(a: ES, b: ES, v: Env, fs: seq<Func>)
    requires Tidy(Entries(v, 0), a, b, v) && Numbered(v, fs) && |fs| + 2 < |a.lab|
    ensures !b.fails ==> |a.lab| <= |b.lab| && b.lab[|fs| + 2] == a.lab[|fs| + 2]
  {
    hide Tidy;
    if !b.fails {
      TidyKeeps(a, b, v, fs);
    }
  }

  lemma UnitFuncs(fs: seq<Func>, v: Env, t2: ES, s2: ES, r: ES)
    requires Numbered(v, fs) && (forall j :: 0 <= j < |fs| ==> Plain(fs[j])) && s2 == EmitFs(t2, v, fs, 0) && !s2.fails
    requires |t2.lab| == |fs| + 3 <= |s2.lab| && |t2.items| == 5
    requires r.lab == s2.lab[|fs| := |s2.items|][|fs| + 1 := |s2.items| + 3]
    ensures Writes(t2, s2, r.lab, GenFs(fs, 5, LinksOf(v, r.lab))) && |s2.items| == 5 + SizeFs(fs)
    ensures Entered(s2, fs, 0, 5)
  {
    hide EmitFs, Lay, OffOf, Plain, Agrees, GenFs, LinksOf, SizeFs;
    PrefixAgrees(r.lab, r, s2, |t2.lab|);
    LaysFuncs(t2, v, fs, 0, r.lab);
    assert fs[0..] == fs;
    SizeOfFs(fs, 5, LinksOf(v, r.lab));
  }

  /** Where every label of the unit ends up. */
  lemma UnitPlaces(fs: seq<Func>, entry: nat, v: Env, s0: ES, t1: ES, t2: ES, s2: ES, s3: ES, r: ES)
    requires UnitStates(fs, entry, v, s0, t1, t2, s2, s3, r)
    ensures !s2.fails && !s3.fails && |s2.lab| >= |fs| + 3 && |s3.lab| >= |fs| + 3 && |r.lab| >= |fs| + 3
    ensures LinksOf(v, r.lab) == Layout(fs) && r.lab[|fs| + 2] == 3 && |s2.items| == 5 + SizeFs(fs)
    ensures Writes(t2, s2, r.lab, GenFs(fs, 5, LinksOf(v, r.lab)))
    ensures Pending(r) == {}
  {
    hide Here, Puts, RelTo, EmitFs, EmitAbort, Pending, Lay, OffOf, Plain, Tidy, Places, SizeFs, GenFs, LinksOf,
      Layout, Writes;
    var n := |fs|;
    UnitSteps(fs, entry, v, s0, t1, t2, s2, s3, r);
    UnitFuncs(fs, v, t2, s2, r);
    UnitLinks(fs, v, s2, r);
    UnitStart(fs, entry, v, s0, t1, t2, s2, s3, r, []);
    TidyGrows(t2, s2, v);
    AbortFacts(s2, v, 1, n, n + 2, []);
    AbortFacts(s3, v, 2, n + 1, n + 2, []);
    AllPlaced(fs, entry, v, t2, s2, s3, r);
  }

  lemma TidyGrows(a: ES, b: ES, v: Env)
    requires Tidy(Entries(v, 0), a, b, v)
    ensures !b.fails ==> |a.lab| <= |b.lab| && Pending(b) <= Pending(a) + Shared(v) + Entries(v, 0)
  {
    hide Pending, Shared;
  }

  lemma TidyKeeps(a: ES, b: ES, v: Env, fs: seq<Func>)
    requires Tidy(Entries(v, 0), a, b, v) && !b.fails && Numbered(v, fs) && |fs| + 2 < |a.lab|
    ensures |a.lab| <= |b.lab| && b.lab[|fs| + 2] == a.lab[|fs| + 2]
  {
    hide Pending, Shared;
    assert |fs| + 2 !in Entries(v, 0);
  }

  lemma PrefixAgrees(off: seq<int>, r: ES, s2: ES, n: int)
    requires off == r.lab && |s2.lab| == |r.lab| && 0 <= n && (forall l :: n <= l < |s2.lab| ==> s2.lab[l] == r.lab[l])
    ensures Agrees(off, s2, n)
  {
  }

  lemma UnitLinks(fs: seq<Func>, v: Env, s2: ES, r: ES)
    requires Numbered(v, fs) && v.fuel == |fs| && v.stack == |fs| + 1 && |s2.lab| == |r.lab| >= |fs| + 3
    requires Entered(s2, fs, 0, 5) && |s2.items| == 5 + SizeFs(fs)
    requires r.lab == s2.lab[|fs| := |s2.items|][|fs| + 1 := |s2.items| + 3]
    ensures LinksOf(v, r.lab) == Layout(fs)
  {
    hide Places, SizeFs;
    assert fs[0..] == fs;
    var k := LinksOf(v, r.lab);
    forall j | 0 <= j < |fs|
      ensures k.fn[j] == Places(fs, 5)[j]
    {
      assert s2.lab[j] == s2.lab[0..|fs|][j];
    }
    assert k.fn == Places(fs, 5);
  }

  lemma {:induction false} PlacesAbove(fs: seq<Func>, at: int, j: nat)
    requires j < |fs|
    ensures Places(fs, at)[j] >= at
    decreases |fs|
  {
    if j > 0 {
      PlacesAbove(fs[1..], at + SizeF(fs[0]), j - 1);
    }
  }

  lemma AllPlaced(fs: seq<Func>, entry: nat, v: Env, t2: ES, s2: ES, s3: ES, r: ES)
    requires Numbered(v, fs) && v.fuel == |fs| && v.stack == |fs| + 1 && entry < |fs| && Pending(t2) <= {entry}
    requires Pending(s2) <= Pending(t2) + Shared(v) + Entries(v, 0) && Pending(s3) <= Pending(s2) + {|fs| + 2}
    requires Pending(r) <= Pending(s3) + {|fs| + 2} && |r.lab| >= |fs| + 3 && r.lab[|fs| + 2] == 3
    requires LinksOf(v, r.lab) == Layout(fs)
    ensures Pending(r) == {}
  {
    hide Places, SizeFs, Pending, OffOf;
    var all := Shared(v) + Entries(v, 0) + {entry, |fs| + 2};
    forall l | l in all
      ensures l !in Pending(r)
    {
      UnitLabel(fs, v, r, l);
      NotPending(r, l);
    }
  }

  lemma UnitLabel(fs: seq<Func>, v: Env, r: ES, l: int)
    requires Numbered(v, fs) && v.fuel == |fs| && v.stack == |fs| + 1 && 0 <= l < |fs| + 3
    requires |r.lab| >= |fs| + 3 && r.lab[|fs| + 2] == 3 && LinksOf(v, r.lab) == Layout(fs)
    ensures IsPlaced(r, l)
  {
    hide Places, SizeFs;
    if l < |fs| {
      PlacesAbove(fs, 5, l);
      assert LinksOf(v, r.lab).fn[l] == OffOf(r.lab, v.fn[l]);
    } else if l < |fs| + 2 {
      assert LinksOf(v, r.lab).fuel == OffOf(r.lab, |fs|) && LinksOf(v, r.lab).stack == OffOf(r.lab, |fs| + 1);
    }
  }

  /** The emitter's image, its jumps filled in, is the one of Gen.dfy, and every
      jump in it has a target. */
  lemma ImageIs(fs: seq<Func>, entry: nat, cap: nat)
    requires entry < |fs| && (forall j :: 0 <= j < |fs| ==> Plain(fs[j])) && !EmitUnit(fs, entry, cap).fails
    ensures var r := EmitUnit(fs, entry, cap);
            Lay(r.items, r.lab) == GenUnit(fs, entry) && Pending(r) == {}
  {
    hide Here, Puts, RelTo, EmitFs, EmitAbort, NewLabels, Pending, Lay, OffOf, Plain, Agrees, Places, SizeFs, GenFs,
      LinksOf, Layout;
    var v, done := UnitEnv(fs, cap), |fs| + 2;
    var none := ES([], [], 0, 0, [], [], false);
    var s0 := NewLabels(none, |fs| + 3);
    ManyLabels(none, |fs| + 3);
    var t1 := RelTo(Puts(s0, v, [SaveKrsp, LoadPrsp]), v, CallRel(0), entry);
    var t2 := Puts(Here(t1, done), v, [LoadKrsp, Halt]);
    var s2 := EmitFs(t2, v, fs, 0);
    var s3 := EmitAbort(s2, v, 1, |fs|, done);
    var r := EmitAbort(s3, v, 2, |fs| + 1, done);
    assert r == EmitUnit(fs, entry, cap);
    var off := r.lab;
    UnitPlaces(fs, entry, v, s0, t1, t2, s2, s3, r);
    UnitStart(fs, entry, v, s0, t1, t2, s2, s3, r, off);
    AbortFacts(s2, v, 1, |fs|, done, off);
    AbortFacts(s3, v, 2, |fs| + 1, done, off);
    OffAt(off, done);
    UnitCode(fs, entry, v, s0, t2, s2, s3, r, off);
  }

  lemma UnitCode(fs: seq<Func>, entry: nat, v: Env, s0: ES, t2: ES, s2: ES, s3: ES, r: ES, off: seq<int>)
    requires s0.items == [] && !r.fails && entry < |fs| && LinksOf(v, off) == Layout(fs) && Numbered(v, fs)
    requires |s2.items| == 5 + SizeFs(fs) && |s3.items| == |s2.items| + 3 && OffOf(off, |fs| + 2) == 3
    requires Writes(s0, t2, off, [SaveKrsp, LoadPrsp] + [CallRel(OffOf(off, entry) - 3)] + [LoadKrsp, Halt])
    requires Writes(t2, s2, off, GenFs(fs, 5, LinksOf(v, off)))
    requires Writes(s2, s3, off, [SetAborted(1), XorEax, Far(Always, OffOf(off, |fs| + 2), |s2.items| + 2)])
    requires Writes(s3, r, off, [SetAborted(2), XorEax, Far(Always, OffOf(off, |fs| + 2), |s3.items| + 2)])
    ensures Lay(r.items, off) == GenUnit(fs, entry)
  {
    hide Lay, GenFs, SizeFs, Places, OffOf;
    var k := Layout(fs);
    var a := [SaveKrsp, LoadPrsp] + [CallRel(OffOf(off, entry) - 3)] + [LoadKrsp, Halt];
    var d, e := [SetAborted(1), XorEax, Far(Always, LDONE, k.fuel + 2)],
      [SetAborted(2), XorEax, Far(Always, LDONE, k.stack + 2)];
    assert LinksOf(v, off).fn[entry] == OffOf(off, v.fn[entry]);
    assert a == [SaveKrsp, LoadPrsp, CallRel(k.fn[entry] - LDONE), LoadKrsp, Halt];
    WritesThen(s0, t2, s2, off, a, GenFs(fs, 5, k));
    WritesThen(s0, s2, s3, off, a + GenFs(fs, 5, k), d);
    WritesThen(s0, s3, r, off, a + GenFs(fs, 5, k) + d, e);
    EmptyLay(s0, off);
    assert GenUnit(fs, entry) == a + GenFs(fs, 5, k) + d + e;
  }

  lemma OffAt(off: seq<int>, l: int)
    requires 0 <= l < |off|
    ensures OffOf(off, l) == off[l]
  {
  }

  lemma EmptyLay(st: ES, off: seq<int>)
    requires st.items == []
    ensures Lay(st.items, off) == []
  {
  }
}
