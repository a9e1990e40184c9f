// The same for statements. The one thing a statement may move is the labels of
// its own cases, which the enclosing switch handed out and left for it to place.

module EmitKeepsS {
  import opened Basics
  import opened Words
  import opened CTree
  import opened X64
  import opened Gen
  import opened Emit
  import opened EmitKeeps

  /** The labels `cs` gives the cases of `s`. */
  ghost function CaseSet(cs: map<Key, int>, s: Stmt): set<int> {
    set k | k in Cases(s) && k in cs :: cs[k]
  }

  ghost predicate CasesIn(cs: map<Key, int>, n: int) {
    forall k :: k in cs ==> 0 <= cs[k] < n
  }

  /** Every case of `s` had a label, and it is placed. */
  ghost predicate CasesPlaced(cs: map<Key, int>, s: Stmt, t: ES) {
    !t.fails ==> forall k :: k in Cases(s) ==> k in cs && IsPlaced(t, cs[k])
  }

  ghost predicate NeatS(st: ES, t: ES, v: Env, s: Stmt, cs: map<Key, int>) {
    Neat(CaseSet(cs, s), st, t, v, 0) && CasesPlaced(cs, s, t)
  }

  /** Every case a switch lists is in its body, once. */
  predicate Cased(s: Stmt) {
    match s
    case Seq(a, b) => Cased(a) && Cased(b)
    case If(_, t, f) => Cased(t) && (f.Some? ==> Cased(f.value))
    case Loop(_, _, _, b) => Cased(b)
    case Case(_, b) => Cased(b)
    case Switch(_, keys, dflt, b) =>
      && Cased(b) && DistinctCases(b) && (forall u :: u in keys ==> CaseOf(u) in Cases(b))
      && (dflt ==> Default in Cases(b)) && Buried !in Cases(b)
      && (forall i, j :: 0 <= i < j < |keys| ==> keys[i] != keys[j])
      && (forall k :: k in Cases(b) && k.CaseOf? ==> k.v in keys)
    case _ => true
  }

  lemma {:induction false} WellFormedCased(w: World, s: Stmt, ret: Ty, brk: bool, cont: bool)
    requires WellFormed(w, s, ret, brk, cont)
    ensures Cased(s)
    decreases s
  {
    hide WellTyped, ETy, Fits, DistinctCases;
    match s
    case Seq(a, b) =>
      WellFormedCased(w, a, ret, brk, cont);
      WellFormedCased(w, b, ret, brk, cont);
    case If(_, t, f) =>
      WellFormedCased(w, t, ret, brk, cont);
      if f.Some? {
        WellFormedCased(w, f.value, ret, brk, cont);
      }
    case Loop(_, _, _, b) => WellFormedCased(w, b, ret, true, true);
    case Case(_, b) => WellFormedCased(w, b, ret, brk, cont);
    case Switch(_, _, _, b) => WellFormedCased(w, b, ret, true, cont);
    case _ =>
  }

  // ---- simple statements -----------------------------------------------------------

  lemma NeatPlain(st: ES, t: ES, v: Env, s: Stmt, cs: map<Key, int>)
    requires Neat({}, st, t, v, 0) && Cases(s) == {}
    ensures NeatS(st, t, v, s, cs)
  {
    hide Neat;
    assert CaseSet(cs, s) == {};
  }

  lemma NeatO(st: ES, v: Env, c: Option<Expr>)
    ensures Neat({}, st, EmitO(st, v, c), v, 0)
  {
    hide Neat, EmitE;
    NeatNone(st, v);
    if c.Some? {
      NeatE(st, v, c.value);
    }
  }

  lemma NeatTestO(ch: set<int>, st: ES, v: Env, c: Option<Expr>, when: bool, l: int)
    requires l in ch
    ensures Neat(ch, st, EmitTest(st, v, c, when, l), v, 0)
  {
    hide Neat, EmitE, Put1, Jump;
    NeatNone(st, v);
    NeatFewer({}, ch, st, st, v, 0);
    if when && c.Some? {
      var s1 := EmitE(st, v, c.value);
      NeatE(st, v, c.value);
      NeatFewer({}, ch, st, s1, v, 0);
      NeatTest(ch, s1, v, Z, l);
      NeatThen(ch, ch, st, s1, Jump(Put1(s1, v, TestRax), v, Z, l), v, 0, 0);
    }
  }

  lemma NeatZero(st: ES, v: Env, size: nat)
    ensures Neat({}, st, EmitZero(st, v, size), v, 0)
  {
    hide Neat, Puts, Put1, NewLabel, Here, Jump, ZeroChunks, Handed, IsPlaced;
    if size <= 64 {
      NeatPuts(st, v, ZeroChunks(0, size));
    } else {
      var top := |st.lab|;
      var s0 := NewLabel(st);
      HandNew(st);
      var s1 := Put1(s0, v, MovRcxImm(Enc(size)));
      var s2 := Here(s1, top);
      var s3 := Puts(s2, v, [ZeroAt(0, 1), IncRax, DecRcx]);
      var r := Jump(s3, v, NZ, top);
      if r.fails {
        NeatFailed({}, st, r, v, 0);
      } else {
        NeatPut(s0, v, MovRcxImm(Enc(size)));
        NeatHere(s1, top, v);
        NeatPuts(s2, v, [ZeroAt(0, 1), IncRax, DecRcx]);
        NeatJump({top}, s3, v, NZ, top);
        NeatFewer({}, {top}, s0, s1, v, 0);
        NeatThen({top}, {top}, s0, s1, s2, v, 0, 0);
        NeatThen({top}, {}, s0, s2, s3, v, 0, 0);
        NeatThen({top}, {top}, s0, s3, r, v, 0, 0);
        Stays({}, s2, s3, v, 0, top);
        SameLabels(s3, r, top);
        assert {} + {top} == {top};
        Close({}, {top}, st, s0, r, v, 0);
      }
    }
  }

  lemma SameLabels(a: ES, b: ES, l: int)
    requires b.lab == a.lab && IsPlaced(a, l)
    ensures IsPlaced(b, l)
  {
  }

  lemma NeatSimple(st: ES, v: Env, s: Stmt, cs: map<Key, int>)
    requires s.Nop? || s.Eval? || s.MemZero? || s.Return? || s.Break? || s.Continue?
    ensures NeatS(st, EmitS(st, v, s, cs), v, s, cs)
  {
    hide Neat, EmitE, Put1, Jump, EmitZero, EmitO, NeatS;
    NeatNone(st, v);
    if !st.fails {
      match s
      case Nop =>
      case Eval(e) => NeatE(st, v, e);
      case MemZero(off, n) =>
        var s1 := Put1(st, v, LeaRaxRbp(off));
        NeatPut(st, v, LeaRaxRbp(off));
        NeatZero(s1, v, n);
        NeatJoin(st, s1, EmitZero(s1, v, n), v, 0, 0);
      case Return(r) =>
        var s1 := EmitO(st, v, r);
        NeatO(st, v, r);
        NeatJump({}, s1, v, Always, v.epi);
        NeatJoin(st, s1, Jump(s1, v, Always, v.epi), v, 0, 0);
      case Break =>
        NeatFailed({}, st, Fail(st), v, 0);
        if st.brk != [] {
          NeatJump({}, st, v, Always, Last(st.brk));
        }
      case Continue =>
        NeatFailed({}, st, Fail(st), v, 0);
        if st.cont != [] {
          NeatJump({}, st, v, Always, Last(st.cont));
        }
    }
    NeatPlain(st, EmitS(st, v, s, cs), v, s, cs);
  }

  // ---- cases -------------------------------------------------------------------------

  lemma CaseSetIn(cs: map<Key, int>, s: Stmt, n: int)
    requires CasesIn(cs, n)
    ensures forall l :: l in CaseSet(cs, s) ==> 0 <= l < n
  {
  }

  lemma CasesUp(cs: map<Key, int>, m: int, n: int)
    requires CasesIn(cs, m) && m <= n
    ensures CasesIn(cs, n)
  {
  }

  lemma Failed(st: ES, t: ES, v: Env, s: Stmt, cs: map<Key, int>)
    requires t.fails
    ensures NeatS(st, t, v, s, cs)
  {
  }

  /** Placed cases stay placed when only labels at or above `n` move. */
  lemma CasesOn(cs: map<Key, int>, s: Stmt, n: int, own: set<int>, a: ES, b: ES, v: Env, d: int)
    requires CasesIn(cs, n) && (forall l :: l in own ==> l >= n)
    requires CasesPlaced(cs, s, a) && Neat(own, a, b, v, d)
    ensures CasesPlaced(cs, s, b)
  {
    hide Pending;
  }

  /** The cases of two statements, the second emitted later. */
  lemma CasesUnion(cs: map<Key, int>, a: Stmt, b: Stmt, s: Stmt, st: ES, t: ES, v: Env)
    requires Cases(s) == Cases(a) + Cases(b) && CasesPlaced(cs, a, st) && NeatS(st, t, v, b, cs)
    ensures CasesPlaced(cs, s, t) && CaseSet(cs, s) == CaseSet(cs, a) + CaseSet(cs, b)
  {
    hide Pending, Cases;
    if !t.fails {
      forall k | k in Cases(s)
        ensures k in cs && IsPlaced(t, cs[k])
      {
        if k !in Cases(b) && cs[k] in CaseSet(cs, b) {
          var k2 :| k2 in Cases(b) && k2 in cs && cs[k2] == cs[k];
        }
      }
    }
  }

  lemma NeatSeq(st: ES, v: Env, s: Stmt, cs: map<Key, int>)
    requires s.Seq? && Cased(s) && CasesIn(cs, |st.lab|)
    ensures NeatS(st, EmitS(st, v, s, cs), v, s, cs)
    decreases s, 0
  {
    hide Neat, CasesIn, CaseSet, CasesPlaced;
    var s1 := EmitS(st, v, s.s1, cs);
    var t := EmitS(s1, v, s.s2, cs);
    assert EmitS(st, v, s, cs) == t;
    NeatStmt(st, v, s.s1, cs);
    CasesUp(cs, |st.lab|, |s1.lab|);
    NeatStmt(s1, v, s.s2, cs);
    CasesUnion(cs, s.s1, s.s2, s, s1, t, v);
    NeatFewer(CaseSet(cs, s.s1), CaseSet(cs, s), st, s1, v, 0);
    NeatThen(CaseSet(cs, s), CaseSet(cs, s.s2), st, s1, t, v, 0, 0);
  }

  lemma NeatCase(st: ES, v: Env, s: Stmt, cs: map<Key, int>)
    requires s.Case? && Cased(s) && CasesIn(cs, |st.lab|)
    ensures NeatS(st, EmitS(st, v, s, cs), v, s, cs)
    decreases s, 0
  {
    hide Neat, CasesIn, CaseSet, CasesPlaced, Here, IsPlaced;
    var t := EmitS(st, v, s, cs);
    if t.fails {
      Failed(st, t, v, s, cs);
    } else {
      var l := cs[s.key];
      var s1 := Here(st, l);
      assert t == EmitS(s1, v, s.body, cs);
      KeyIn(cs, s.key, |st.lab|);
      NeatHere(st, l, v);
      NeatStmt(s1, v, s.body, cs);
      CaseAdds(cs, s, t, s1, v);
      NeatFewer({l}, CaseSet(cs, s), st, s1, v, 0);
      NeatThen(CaseSet(cs, s), CaseSet(cs, s.body), st, s1, t, v, 0, 0);
    }
  }

  lemma KeyIn(cs: map<Key, int>, k: Key, n: int)
    requires CasesIn(cs, n) && k in cs
    ensures 0 <= cs[k] < n
  {
  }

  lemma CaseAdds(cs: map<Key, int>, s: Stmt, t: ES, s1: ES, v: Env)
    requires s.Case? && s.key in cs && !t.fails && NeatS(s1, t, v, s.body, cs) && IsPlaced(s1, cs[s.key])
    ensures CaseSet(cs, s.body) <= CaseSet(cs, s) && cs[s.key] in CaseSet(cs, s) && CasesPlaced(cs, s, t)
  {
    hide Pending;
    forall k | k in Cases(s)
      ensures k in cs && IsPlaced(t, cs[k])
    {
      if k !in Cases(s.body) && cs[k] in CaseSet(cs, s.body) {
        var k2 :| k2 in Cases(s.body) && k2 in cs && cs[k2] == cs[k];
      }
    }
  }

  lemma NeatStmt(st: ES, v: Env, s: Stmt, cs: map<Key, int>)
    requires Cased(s) && CasesIn(cs, |st.lab|)
    ensures NeatS(st, EmitS(st, v, s, cs), v, s, cs)
    decreases s, 2
  {
    hide CasesIn, EmitS, NeatS;
    match s
    case Seq(_, _) => NeatSeq(st, v, s, cs);
    case Case(_, _) => NeatCase(st, v, s, cs);
    case If(_, _, _) => NeatIf(st, v, s, cs);
    case Loop(_, _, _, _) => NeatLoop(st, v, s, cs);
    case Switch(_, _, _, _) => NeatSwitch(st, v, s, cs);
    case _ => NeatSimple(st, v, s, cs);
  }

  // ---- if ------------------------------------------------------------------------------

  lemma NeatIf(st: ES, v: Env, s: Stmt, cs: map<Key, int>)
    requires s.If? && Cased(s) && CasesIn(cs, |st.lab|)
    ensures NeatS(st, EmitS(st, v, s, cs), v, s, cs)
    decreases s, 1
  {
    hide Neat, CasesIn, CaseSet, CasesPlaced, NewLabel, Here, Jump, Put1, EmitE, Handed;
    var r := EmitS(st, v, s, cs);
    if r.fails {
      Failed(st, r, v, s, cs);
    } else {
      var lelse, lend := |st.lab|, |st.lab| + 1;
      var s0 := TwoNew(st);
      var s1 := EmitE(s0, v, s.c);
      var t1 := Jump(Put1(s1, v, TestRax), v, Z, if s.f.Some? then lelse else lend);
      var s2 := EmitS(t1, v, s.t, cs);
      if s.f.None? {
        assert r == Here(s2, lend);
        NeatWhen(st, v, s, cs, s0, s1, t1, s2, r);
      } else {
        var t2 := Jump(s2, v, Always, lend);
        var t3 := Here(t2, lelse);
        var s3 := EmitS(t3, v, s.f.value, cs);
        assert r == Here(s3, lend);
        NeatElse(st, v, s, cs, s0, s1, t1, s2, t2, t3, s3, r);
      }
    }
  }

  lemma NeatWhen(st: ES, v: Env, s: Stmt, cs: map<Key, int>, s0: ES, s1: ES, t1: ES, s2: ES, r: ES)
    requires s.If? && Cased(s) && s.f.None? && CasesIn(cs, |st.lab|) && !r.fails
    requires Handed(st, s0) && (!s0.fails ==> |s0.lab| == |st.lab| + 2) && s1 == EmitE(s0, v, s.c)
    requires t1 == Jump(Put1(s1, v, TestRax), v, Z, |st.lab| + 1) && s2 == EmitS(t1, v, s.t, cs)
    requires r == Here(s2, |st.lab| + 1)
    ensures NeatS(st, r, v, s, cs)
    decreases s, 0
  {
    hide Neat, CasesIn, CaseSet, CasesPlaced, Here, Jump, Put1, EmitE, EmitS, Handed, IsPlaced;
    var lend := |st.lab| + 1;
    var cc := CaseSet(cs, s);
    var ch := cc + {lend};
    CasesUp(cs, |st.lab|, |t1.lab|);
    NeatE(s0, v, s.c);
    NeatTest(ch, s1, v, Z, lend);
    NeatStmt(t1, v, s.t, cs);
    SameCases(cs, s.t, s);
    NeatHere(s2, lend, v);
    NeatFewer({}, ch, s0, s1, v, 0);
    NeatThen(ch, ch, s0, s1, t1, v, 0, 0);
    NeatThen(ch, CaseSet(cs, s.t), s0, t1, s2, v, 0, 0);
    NeatThen(ch, {lend}, s0, s2, r, v, 0, 0);
    CasesOn(cs, s.t, |st.lab|, {lend}, s2, r, v, 0);
    SamePlaced(cs, s.t, s, r);
    Close(cc, {lend}, st, s0, r, v, 0);
  }

  lemma SameCases(cs: map<Key, int>, a: Stmt, s: Stmt)
    requires Cases(s) == Cases(a)
    ensures CaseSet(cs, s) == CaseSet(cs, a)
  {
  }

  lemma SamePlaced(cs: map<Key, int>, a: Stmt, s: Stmt, t: ES)
    requires Cases(s) == Cases(a) && CasesPlaced(cs, a, t)
    ensures CasesPlaced(cs, s, t)
  {
  }

  lemma NeatElse(st: ES, v: Env, s: Stmt, cs: map<Key, int>, s0: ES, s1: ES, t1: ES, s2: ES, t2: ES, t3: ES, s3: ES,
                 r: ES)
    requires s.If? && Cased(s) && s.f.Some? && CasesIn(cs, |st.lab|) && !r.fails
    requires Handed(st, s0) && (!s0.fails ==> |s0.lab| == |st.lab| + 2) && s1 == EmitE(s0, v, s.c)
    requires t1 == Jump(Put1(s1, v, TestRax), v, Z, |st.lab|) && s2 == EmitS(t1, v, s.t, cs)
    requires t2 == Jump(s2, v, Always, |st.lab| + 1) && t3 == Here(t2, |st.lab|)
    requires s3 == EmitS(t3, v, s.f.value, cs) && r == Here(s3, |st.lab| + 1)
    ensures NeatS(st, r, v, s, cs)
    decreases s, 0
  {
    hide Neat, CasesIn, CaseSet, CasesPlaced, Here, Jump, Put1, EmitE, EmitS, Handed, IsPlaced;
    var lelse, lend := |st.lab|, |st.lab| + 1;
    var own := {lelse, lend};
    CasesUp(cs, |st.lab|, |t1.lab|);
    CasesUp(cs, |st.lab|, |t3.lab|);
    NeatE(s0, v, s.c);
    NeatTest(own, s1, v, Z, lelse);
    NeatStmt(t1, v, s.t, cs);
    NeatJump(own, s2, v, Always, lend);
    NeatHere(t2, lelse, v);
    NeatThen(own, {lelse}, s2, t2, t3, v, 0, 0);
    CasesOn(cs, s.t, |st.lab|, own, s2, t3, v, 0);
    NeatStmt(t3, v, s.f.value, cs);
    CasesUnion(cs, s.t, s.f.value, s, t3, s3, v);
    NeatHere(s3, lend, v);
    CasesOn(cs, s, |st.lab|, {lend}, s3, r, v, 0);
    var cc := CaseSet(cs, s);
    var ch := cc + own;
    NeatFewer({}, ch, s0, s1, v, 0);
    NeatThen(ch, own, s0, s1, t1, v, 0, 0);
    NeatThen(ch, CaseSet(cs, s.t), s0, t1, s2, v, 0, 0);
    NeatThen(ch, own, s0, s2, t3, v, 0, 0);
    NeatThen(ch, CaseSet(cs, s.f.value), s0, t3, s3, v, 0, 0);
    NeatThen(ch, {lend}, s0, s3, r, v, 0, 0);
    CaseSetIn(cs, s.f.value, |st.lab|);
    Stays(CaseSet(cs, s.f.value), t3, s3, v, 0, lelse);
    Stays({lend}, s3, r, v, 0, lelse);
    Close(cc, own, st, s0, r, v, 0);
  }

  // ---- loops -----------------------------------------------------------------------------

  /** Inside the loop or switch its own exits are the innermost ones. */
  lemma NeatNest(ch: set<int>, a: ES, brk: seq<int>, cont: seq<int>, b: ES, v: Env)
    requires Neat(ch, Nest(a, brk, cont), b, v, 0) && Innermost(brk) <= ch && (Innermost(cont) <= ch || cont == a.cont)
    ensures Neat(ch, a, Nest(b, a.brk, a.cont), v, 0)
  {
    var t := Nest(b, a.brk, a.cont);
    PendingBy(a, Nest(a, brk, cont));
    PendingBy(b, t);
  }

  lemma ThreeNew(st: ES) returns (s: ES)
    ensures s == NewLabel(NewLabel(NewLabel(st))) && Handed(st, s) && (!s.fails ==> |s.lab| == |st.lab| + 3)
  {
    hide Handed, NewLabel;
    var u := TwoNew(st);
    s := NewLabel(u);
    HandNew(u);
    HandThen(st, u, s);
  }

  lemma NeatLoop(st: ES, v: Env, s: Stmt, cs: map<Key, int>)
    requires s.Loop? && Cased(s) && CasesIn(cs, |st.lab|)
    ensures NeatS(st, EmitS(st, v, s, cs), v, s, cs)
    decreases s, 1
  {
    hide Neat, CasesIn, CaseSet, CasesPlaced, NewLabel, Here, Jump, EmitTest, EmitO, FuelCheck, Handed, Nest;
    var r := EmitS(st, v, s, cs);
    if r.fails {
      Failed(st, r, v, s, cs);
    } else {
      var ltop, lcont, lend := |st.lab|, |st.lab| + 1, |st.lab| + 2;
      var s0 := ThreeNew(st);
      var a := Nest(s0, st.brk + [lend], st.cont + [lcont]);
      var b1 := Here(a, ltop);
      var b2 := EmitTest(b1, v, s.cond, s.testFirst, lend);
      var b3 := EmitS(b2, v, s.body, cs);
      var b4 := Here(b3, lcont);
      var b5 := EmitO(b4, v, s.post);
      var b6 := EmitTest(b5, v, s.cond, !s.testFirst, lend);
      var b7 := FuelCheck(b6, v);
      var b8 := Jump(b7, v, Always, ltop);
      var b9 := Here(b8, lend);
      assert r == Nest(b9, st.brk, st.cont);
      NestSame(s0, st.brk + [lend], st.cont + [lcont]);
      NeatLoopSteps(st, v, s, cs, a, b1, b2, b3, b4, b5, b6, b7, b8, b9);
      NestSame(b9, st.brk, st.cont);
      NeatLoopEnd(st, v, s, cs, s0, b9);
    }
  }

  lemma NestSame(st: ES, brk: seq<int>, cont: seq<int>)
    ensures Nest(st, brk, cont).lab == st.lab && Nest(st, brk, cont).items == st.items
    ensures Nest(st, brk, cont).fails == st.fails
  {
  }

  lemma NeatLoopEnd(st: ES, v: Env, s: Stmt, cs: map<Key, int>, s0: ES, b9: ES)
    requires s.Loop? && CasesIn(cs, |st.lab|) && Handed(st, s0) && !b9.fails
    requires var own := {|st.lab|, |st.lab| + 1, |st.lab| + 2};
             && Neat(CaseSet(cs, s) + own, Nest(s0, st.brk + [|st.lab| + 2], st.cont + [|st.lab| + 1]), b9, v, 0)
             && CasesPlaced(cs, s, b9) && (forall l :: l in own ==> IsPlaced(b9, l))
    ensures NeatS(st, Nest(b9, st.brk, st.cont), v, s, cs)
  {
    hide Neat, CasesIn, CaseSet, Handed;
    var own := {|st.lab|, |st.lab| + 1, |st.lab| + 2};
    HandedExits(st, s0);
    NeatNest(CaseSet(cs, s) + own, s0, st.brk + [|st.lab| + 2], st.cont + [|st.lab| + 1], b9, v);
    Close(CaseSet(cs, s), own, st, s0, Nest(b9, st.brk, st.cont), v, 0);
  }

  lemma HandedExits(st: ES, s: ES)
    requires Handed(st, s)
    ensures s.brk == st.brk && s.cont == st.cont
  {
  }

  lemma NeatLoopSteps(st: ES, v: Env, s: Stmt, cs: map<Key, int>, a: ES, b1: ES, b2: ES, b3: ES, b4: ES, b5: ES, b6: ES,
                      b7: ES, b8: ES, b9: ES)
    requires s.Loop? && Cased(s) && CasesIn(cs, |st.lab|) && !b9.fails && (!a.fails ==> |a.lab| == |st.lab| + 3)
    requires |a.lab| >= |st.lab|
    requires b1 == Here(a, |st.lab|) && b2 == EmitTest(b1, v, s.cond, s.testFirst, |st.lab| + 2)
    requires b3 == EmitS(b2, v, s.body, cs) && b4 == Here(b3, |st.lab| + 1) && b5 == EmitO(b4, v, s.post)
    requires b6 == EmitTest(b5, v, s.cond, !s.testFirst, |st.lab| + 2) && b7 == FuelCheck(b6, v)
    requires b8 == Jump(b7, v, Always, |st.lab|) && b9 == Here(b8, |st.lab| + 2)
    ensures var own := {|st.lab|, |st.lab| + 1, |st.lab| + 2};
            && Neat(CaseSet(cs, s) + own, a, b9, v, 0) && CasesPlaced(cs, s, b9)
            && (forall l :: l in own ==> IsPlaced(b9, l))
    decreases s, 0
  {
    hide Neat, CasesIn, CaseSet, CasesPlaced, Here, Jump, EmitTest, EmitO, FuelCheck, EmitS, IsPlaced;
    var ltop, lcont, lend := |st.lab|, |st.lab| + 1, |st.lab| + 2;
    var own := {ltop, lcont, lend};
    CasesUp(cs, |st.lab|, |b2.lab|);
    NeatHere(a, ltop, v);
    NeatTestO({lend}, b1, v, s.cond, s.testFirst, lend);
    NeatStmt(b2, v, s.body, cs);
    NeatHere(b3, lcont, v);
    NeatO(b4, v, s.post);
    NeatTestO({lend}, b5, v, s.cond, !s.testFirst, lend);
    NeatFuel(b6, v);
    NeatJump({ltop}, b7, v, Always, ltop);
    NeatHere(b8, lend, v);
    SameCases(cs, s.body, s);
    SamePlaced(cs, s.body, s, b3);
    // from the end of the body on
    var late := {ltop, lcont, lend};
    NeatFewer({lcont}, late, b3, b4, v, 0);
    NeatThen(late, {}, b3, b4, b5, v, 0, 0);
    NeatThen(late, {lend}, b3, b5, b6, v, 0, 0);
    NeatThen(late, {}, b3, b6, b7, v, 0, 0);
    NeatThen(late, {ltop}, b3, b7, b8, v, 0, 0);
    NeatThen(late, {lend}, b3, b8, b9, v, 0, 0);
    CasesOn(cs, s, |st.lab|, late, b3, b9, v, 0);
    var ch := CaseSet(cs, s) + own;
    NeatFewer({ltop}, ch, a, b1, v, 0);
    NeatThen(ch, {lend}, a, b1, b2, v, 0, 0);
    NeatThen(ch, CaseSet(cs, s.body), a, b2, b3, v, 0, 0);
    NeatThen(ch, late, a, b3, b9, v, 0, 0);
    NeatLoopPlaces(st, v, s, cs, a, b1, b2, b3, b4, b5, b6, b7, b8, b9);
  }

  lemma NeatLoopPlaces(st: ES, v: Env, s: Stmt, cs: map<Key, int>, a: ES, b1: ES, b2: ES, b3: ES, b4: ES, b5: ES,
                       b6: ES,
                       b7: ES, b8: ES, b9: ES)
    requires s.Loop? && CasesIn(cs, |st.lab|) && !b9.fails && |b8.lab| >= |b1.lab| == |st.lab| + 3
    requires !b1.fails && !b2.fails && !b3.fails && !b4.fails && !b5.fails && !b6.fails && !b7.fails && !b8.fails
    requires Neat({|st.lab| + 2}, b1, b2, v, 0) && Neat(CaseSet(cs, s), b2, b3, v, 0)
    requires Neat({|st.lab| + 1}, b3, b4, v, 0)
    requires Neat({}, b4, b5, v, 0) && Neat({|st.lab| + 2}, b5, b6, v, 0) && Neat({}, b6, b7, v, 0)
    requires b8.lab == b7.lab && Neat({|st.lab| + 2}, b8, b9, v, 0)
    requires IsPlaced(b1, |st.lab|) && IsPlaced(b4, |st.lab| + 1) && IsPlaced(b9, |st.lab| + 2)
    ensures forall l :: l in {|st.lab|, |st.lab| + 1, |st.lab| + 2} ==> IsPlaced(b9, l)
  {
    hide Neat, CasesIn, CaseSet, IsPlaced;
    var ltop, lcont, lend := |st.lab|, |st.lab| + 1, |st.lab| + 2;
    CaseSetIn(cs, s, |st.lab|);
    Stays({lend}, b1, b2, v, 0, ltop);
    Stays(CaseSet(cs, s), b2, b3, v, 0, ltop);
    Stays({lcont}, b3, b4, v, 0, ltop);
    LateStay(ltop, lend, b4, b5, b6, b7, b8, b9, v);
    LateStay(lcont, lend, b4, b5, b6, b7, b8, b9, v);
  }

  lemma LateStay(l: int, lend: int, b4: ES, b5: ES, b6: ES, b7: ES, b8: ES, b9: ES, v: Env)
    requires IsPlaced(b4, l) && l != lend
    requires !b5.fails && !b6.fails && !b7.fails && !b9.fails
    requires Neat({}, b4, b5, v, 0) && Neat({lend}, b5, b6, v, 0) && Neat({}, b6, b7, v, 0)
    requires b8.lab == b7.lab && Neat({lend}, b8, b9, v, 0)
    ensures IsPlaced(b9, l)
  {
    hide Neat, IsPlaced;
    Stays({}, b4, b5, v, 0, l);
    Stays({lend}, b5, b6, v, 0, l);
    Stays({}, b6, b7, v, 0, l);
    SameLabels(b7, b8, l);
    Stays({lend}, b8, b9, v, 0, l);
  }

  // ---- switch ------------------------------------------------------------------------------

  lemma {:induction false} HandCases(st: ES, keys: seq<int>)
    ensures Handed(st, CaseLabels(st, keys))
    ensures !CaseLabels(st, keys).fails ==> |CaseLabels(st, keys).lab| == |st.lab| + |keys|
    decreases |keys|
  {
    hide Handed, NewLabel;
    if keys == [] {
      HandNone(st);
    } else {
      HandNew(st);
      HandCases(NewLabel(st), keys[1..]);
      HandThen(st, NewLabel(st), CaseLabels(NewLabel(st), keys[1..]));
    }
  }

  lemma HandNone(st: ES)
    ensures Handed(st, st)
  {
  }

  /** The labels of a switch: its end, its cases, its default. */
  function SwitchLabels(st: ES, keys: seq<int>, dflt: bool): ES {
    var s1 := CaseLabels(NewLabel(st), keys);
    if dflt then NewLabel(s1) else s1
  }

  lemma HandSwitch(st: ES, keys: seq<int>, dflt: bool)
    ensures var s := SwitchLabels(st, keys, dflt);
            Handed(st, s) && (!s.fails ==> |s.lab| == |st.lab| + 1 + |keys| + (if dflt then 1 else 0))
  {
    hide Handed, NewLabel, CaseLabels;
    var s1 := CaseLabels(NewLabel(st), keys);
    HandNew(st);
    HandCases(NewLabel(st), keys);
    HandThen(st, NewLabel(st), s1);
    HandNew(s1);
    HandThen(st, s1, NewLabel(s1));
  }

  predicate Between(a: int, l: int, b: int) { a <= l < b }

  ghost function Range(a: int, b: int): set<int> { set l | a <= l < b && Between(a, l, b) }

  lemma {:induction false} LabelMapIn(keys: seq<int>, dflt: bool, first: int)
    ensures var m := LabelMap(keys, dflt, first);
            && (forall k :: k in m ==> first <= m[k] < first + |keys| + (if dflt then 1 else 0))
            && (dflt ==> Default in m && m[Default] == first + |keys|)
            && (forall u :: u in keys ==> CaseOf(u) in m)
    decreases |keys|
  {
    if keys != [] {
      LabelMapIn(keys[1..], dflt, first + 1);
    }
  }

  lemma {:induction false} NeatChain(st: ES, v: Env, keys: seq<int>, first: int)
    ensures Neat(Range(first, first + |keys|), st, EmitChain(st, v, keys, first), v, 0)
    decreases |keys|
  {
    hide Neat, Puts, Jump;
    var ch := Range(first, first + |keys|);
    if keys == [] {
      NeatNone(st, v);
      NeatFewer({}, ch, st, st, v, 0);
    } else {
      var c := [MovR11Imm(Enc(keys[0])), CmpRaxR11];
      var s1 := Puts(st, v, c);
      var s2 := Jump(s1, v, Z, first);
      NeatPuts(st, v, c);
      NeatJump(ch, s1, v, Z, first);
      NeatChain(s2, v, keys[1..], first + 1);
      NeatFewer({}, ch, st, s1, v, 0);
      NeatThen(ch, ch, st, s1, s2, v, 0, 0);
      NeatThen(ch, Range(first + 1, first + 1 + |keys[1..]|), st, s2, EmitChain(s2, v, keys[1..], first + 1), v, 0, 0);
    }
  }

  lemma NeatSwitch(st: ES, v: Env, s: Stmt, cs: map<Key, int>)
    requires s.Switch? && Cased(s)
    ensures NeatS(st, EmitS(st, v, s, cs), v, s, cs)
    decreases s, 1
  {
    hide Neat, CasesIn, CaseSet, CasesPlaced, NewLabel, Here, Jump, EmitE, EmitChain, Handed, Nest, CaseLabels,
      LabelMap;
    var r := EmitS(st, v, s, cs);
    if r.fails {
      Failed(st, r, v, s, cs);
    } else {
      var lend := |st.lab|;
      var s0 := SwitchLabels(st, s.keys, s.dflt);
      HandSwitch(st, s.keys, s.dflt);
      var s2 := EmitE(s0, v, s.c);
      var s3 := EmitChain(s2, v, s.keys, lend + 1);
      var s4 := Jump(s3, v, Always, if s.dflt then lend + 1 + |s.keys| else lend);
      var m := LabelMap(s.keys, s.dflt, lend + 1);
      var s5 := EmitS(Nest(s4, st.brk + [lend], st.cont), v, s.body, m);
      assert r == Here(Nest(s5, st.brk, st.cont), lend);
      NeatSwitchSteps(st, v, s, cs, s0, s2, s3, s4, s5, r);
    }
  }

  lemma {:induction false} LabelMapAt(keys: seq<int>, dflt: bool, first: int, i: nat)
    requires i < |keys| && (forall a, b :: 0 <= a < b < |keys| ==> keys[a] != keys[b])
    ensures CaseOf(keys[i]) in LabelMap(keys, dflt, first) && LabelMap(keys, dflt, first)[CaseOf(keys[i])] == first + i
    decreases |keys|
  {
    if i > 0 {
      LabelMapAt(keys[1..], dflt, first + 1, i - 1);
    }
  }

  /** Every label of the switch but its end is placed by its body. */
  lemma OwnPlaced(s: Stmt, first: int, t: ES, l: int)
    requires s.Switch? && Cased(s) && CasesPlaced(LabelMap(s.keys, s.dflt, first), s.body, t) && !t.fails
    requires first <= l < first + |s.keys| + (if s.dflt then 1 else 0)
    ensures IsPlaced(t, l)
  {
    hide IsPlaced, LabelMap;
    var m := LabelMap(s.keys, s.dflt, first);
    LabelMapIn(s.keys, s.dflt, first);
    if l < first + |s.keys| {
      var i := l - first;
      LabelMapAt(s.keys, s.dflt, first, i);
      assert s.keys[i] in s.keys;
    }
  }

  lemma CaseSetOf(s: Stmt, first: int, n: int)
    requires s.Switch? && n == first + |s.keys| + (if s.dflt then 1 else 0)
    ensures CaseSet(LabelMap(s.keys, s.dflt, first), s.body) <= Range(first, n)
  {
    hide LabelMap, Cases;
    LabelMapIn(s.keys, s.dflt, first);
  }

  lemma NeatSwitchSteps(st: ES, v: Env, s: Stmt, cs: map<Key, int>, s0: ES, s2: ES, s3: ES, s4: ES, s5: ES, r: ES)
    requires s.Switch? && Cased(s) && !r.fails && Handed(st, s0) && s2 == EmitE(s0, v, s.c)
    requires !s0.fails ==> |s0.lab| == |st.lab| + 1 + |s.keys| + (if s.dflt then 1 else 0)
    requires s3 == EmitChain(s2, v, s.keys, |st.lab| + 1)
    requires s4 == Jump(s3, v, Always, if s.dflt then |st.lab| + 1 + |s.keys| else |st.lab|)
    requires s5 == EmitS(Nest(s4, st.brk + [|st.lab|], st.cont), v, s.body, LabelMap(s.keys, s.dflt, |st.lab| + 1))
    requires r == Here(Nest(s5, st.brk, st.cont), |st.lab|)
    ensures NeatS(st, r, v, s, cs)
    decreases s, 0
  {
    hide Neat, CaseSet, Here, Jump, EmitE, EmitChain, EmitS, Handed, Nest, LabelMap, IsPlaced;
    var lend := |st.lab|;
    var own := Range(lend, |s0.lab|);
    var m := LabelMap(s.keys, s.dflt, lend + 1);
    var a := Nest(s4, st.brk + [lend], st.cont);
    var b := Nest(s5, st.brk, st.cont);
    NestSame(s4, st.brk + [lend], st.cont);
    NestSame(s5, st.brk, st.cont);
    LabelMapIn(s.keys, s.dflt, lend + 1);
    NeatE(s0, v, s.c);
    NeatChain(s2, v, s.keys, lend + 1);
    NeatJump(own, s3, v, Always, if s.dflt then lend + 1 + |s.keys| else lend);
    NeatFewer({}, own, s0, s2, v, 0);
    NeatThen(own, Range(lend + 1, lend + 1 + |s.keys|), s0, s2, s3, v, 0, 0);
    NeatThen(own, own, s0, s3, s4, v, 0, 0);
    NeatFacts(own, s0, s4, v, 0);
    HandedExits(st, s0);
    NeatStmt(a, v, s.body, m);
    CaseSetOf(s, lend + 1, |s0.lab|);
    NeatFewer(CaseSet(m, s.body), own, a, s5, v, 0);
    NeatNest(own, s4, st.brk + [lend], st.cont, s5, v);
    NeatThen(own, own, s0, s4, b, v, 0, 0);
    NeatHere(b, lend, v);
    NeatThen(own, {lend}, s0, b, r, v, 0, 0);
    NeatFacts(own, s0, b, v, 0);
    forall l | l in own
      ensures IsPlaced(r, l)
    {
      if l > lend {
        OwnPlaced(s, lend + 1, s5, l);
        SameLabels(s5, b, l);
        Stays({lend}, b, r, v, 0, l);
      }
    }
    assert {} + own == own;
    Close({}, own, st, s0, r, v, 0);
    NeatPlain(st, r, v, s, cs);
  }
}
