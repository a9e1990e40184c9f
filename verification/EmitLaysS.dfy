// The same for statements, with the place of every case label.

module EmitLaysS {
  import opened Basics
  import opened Words
  import opened CTree
  import opened X64
  import opened Gen
  import opened SimBase
  import opened SimSizes
  import opened SimOpenS
  import opened Emit
  import opened EmitKeeps
  import opened EmitKeepsS
  import opened EmitLays

  ghost function ExitsOf(v: Env, st: ES, off: seq<int>): Exits {
    Exits(OffOf(off, Last(st.brk)), OffOf(off, Last(st.cont)), OffOf(off, v.epi))
  }

  ghost predicate Injective(cs: map<Key, int>) {
    forall a, b :: a in cs && b in cs && cs[a] == cs[b] ==> a == b
  }

  /** Every case label of `s`, whose code starts at `at`, is where Gen.dfy says. */
  ghost predicate CasesAt(cs: map<Key, int>, s: Stmt, t: ES, at: int) {
    forall k :: k in Cases(s) ==> k in cs && 0 <= cs[k] < |t.lab| && t.lab[cs[k]] == at + CaseOff(s, k)
  }

  ghost predicate GoodS(st: ES, v: Env, s: Stmt, cs: map<Key, int>, off: seq<int>) {
    && st.depth == 0 && !EmitS(st, v, s, cs).fails && Agrees(off, EmitS(st, v, s, cs), |st.lab|)
    && Cased(s) && DistinctCases(s) && CasesIn(cs, |st.lab|) && Injective(cs)
  }

  ghost predicate LayS(st: ES, v: Env, s: Stmt, cs: map<Key, int>, off: seq<int>) {
    && Writes(st, EmitS(st, v, s, cs), off, GenS(s, |st.items|, LinksOf(v, off), ExitsOf(v, st, off)))
    && CasesAt(cs, s, EmitS(st, v, s, cs), |st.items|)
  }

  // ---- simple statements -----------------------------------------------------------

  lemma WritesO(st: ES, v: Env, c: Option<Expr>, off: seq<int>)
    requires st.depth == 0 && !EmitO(st, v, c).fails && Agrees(off, EmitO(st, v, c), |st.lab|)
    ensures Writes(st, EmitO(st, v, c), off, GenO(c, |st.items|, LinksOf(v, off)))
  {
    hide EmitE, GenE, Lay, LinksOf, Agrees;
    if c.Some? {
      LaysE(st, v, c.value, off);
    } else {
      WritesNone(st, st, off);
    }
  }

  lemma WritesTestO(st: ES, v: Env, c: Option<Expr>, when: bool, l: int, off: seq<int>)
    requires var t := EmitTest(st, v, c, when, l);
             st.depth == 0 && !t.fails && Agrees(off, t, |st.lab|)
    ensures Writes(st, EmitTest(st, v, c, when, l), off,
                   GenTest(c, when, OffOf(off, l), |st.items|, LinksOf(v, off)))
  {
    hide EmitE, GenE, Lay, LinksOf, Agrees, Put1, Jump, OffOf, Neat;
    if when && c.Some? {
      var s1 := EmitE(st, v, c.value);
      var t := Jump(Put1(s1, v, TestRax), v, Z, l);
      NeatE(st, v, c.value);
      NeatTest({l}, s1, v, Z, l);
      SameAgrees(off, s1, t, |st.lab|);
      LaysE(st, v, c.value, off);
      WritesTest(s1, v, Z, l, off);
      var c1 := GenE(c.value, 0, |st.items|, LinksOf(v, off));
      WritesThen(st, s1, t, off, c1, [TestRax, Far(Z, OffOf(off, l), |s1.items| + 1)]);
    } else {
      WritesNone(st, st, off);
    }
  }

  lemma SameAgrees(off: seq<int>, s: ES, t: ES, n: int)
    requires Agrees(off, t, n) && s.lab == t.lab
    ensures Agrees(off, s, n)
  {
    hide OffOf;
  }

  lemma WritesZero(st: ES, v: Env, size: nat, off: seq<int>)
    requires !EmitZero(st, v, size).fails && Agrees(off, EmitZero(st, v, size), |st.lab|)
    ensures Writes(st, EmitZero(st, v, size), off, ZeroCode(size))
  {
    hide Lay, Agrees, Put1, Puts, Jump, Here, NewLabel, Neat, OffOf, ZeroChunks, Handed, IsPlaced;
    if size <= 64 {
      WritesPuts(st, v, ZeroChunks(0, size), off);
    } else {
      var top := |st.lab|;
      var i, body := MovRcxImm(Enc(size)), [ZeroAt(0, 1), IncRax, DecRcx];
      var s0 := NewLabel(st);
      var s1 := Put1(s0, v, i);
      var s2 := Here(s1, top);
      var s3 := Puts(s2, v, body);
      var r := Jump(s3, v, NZ, top);
      HandNew(st);
      HandedFacts(st, s0);
      NeatPut(s0, v, i);
      NeatHere(s1, top, v);
      NeatPuts(s2, v, body);
      NeatJump({top}, s3, v, NZ, top);
      SameLabels(s2, r, top);
      PlaceAgrees(off, r, top, top);
      WritesPut(s0, v, i, off);
      WritesPuts(s2, v, body, off);
      WritesJump(s3, v, NZ, top, off);
      WritesFrom(st, s0, s1, off, [i]);
      WritesQuiet(st, s1, s2, off, [i]);
      WritesThen(st, s2, s3, off, [i], body);
      WritesThen(st, s3, r, off, [i] + body, [Far(NZ, OffOf(off, top), |s3.items|)]);
      FarIs(NZ, OffOf(off, top), |s3.items|, -4);
    }
  }

  lemma NoCases(cs: map<Key, int>, s: Stmt, t: ES, at: int)
    requires Cases(s) == {}
    ensures CasesAt(cs, s, t, at)
  {
  }

  lemma LaysSimple(st: ES, v: Env, s: Stmt, cs: map<Key, int>, off: seq<int>)
    requires s.Nop? || s.Eval? || s.MemZero? || s.Return? || s.Break? || s.Continue?
    requires GoodS(st, v, s, cs, off)
    ensures LayS(st, v, s, cs, off)
  {
    hide Lay, Agrees, Put1, Jump, Neat, OffOf, EmitE, GenE, EmitO, GenO, SizeO, EmitZero, ZeroCode, CasesAt, Injective,
      CasesIn, LinksOf;
    NoCases(cs, s, EmitS(st, v, s, cs), |st.items|);
    var k := LinksOf(v, off);
    match s
    case Nop => WritesNone(st, st, off);
    case Eval(e) => LaysE(st, v, e, off);
    case MemZero(o, n) =>
      var s1 := Put1(st, v, LeaRaxRbp(o));
      NeatPut(st, v, LeaRaxRbp(o));
      WritesPut(st, v, LeaRaxRbp(o), off);
      WritesZero(s1, v, n, off);
      WritesThen(st, s1, EmitZero(s1, v, n), off, [LeaRaxRbp(o)], ZeroCode(n));
    case Return(r) =>
      var s1 := EmitO(st, v, r);
      NeatO(st, v, r);
      NeatJump({}, s1, v, Always, v.epi);
      SameAgrees(off, s1, Jump(s1, v, Always, v.epi), |st.lab|);
      WritesO(st, v, r, off);
      SizeOfO(r, |st.items|, k);
      WritesJump(s1, v, Always, v.epi, off);
      WritesThen(st, s1, Jump(s1, v, Always, v.epi), off, GenO(r, |st.items|, k),
                 [Far(Always, OffOf(off, v.epi), |s1.items|)]);
    case Break => WritesJump(st, v, Always, Last(st.brk), off);
    case Continue => WritesJump(st, v, Always, Last(st.cont), off);
  }

  // ---- sequence and case -------------------------------------------------------------

  /** Case labels stay where they are while only labels from `n` on, or those of
      other cases, move. */
  lemma CasesAtOn(cs: map<Key, int>, s: Stmt, n: int, own: set<int>, a: ES, b: ES, v: Env, at: int)
    requires CasesIn(cs, n) && (forall l :: l in own ==> l >= n) && CasesAt(cs, s, a, at)
    requires Neat(own, a, b, v, 0) && !b.fails
    ensures CasesAt(cs, s, b, at)
  {
    hide Pending, CaseOff;
  }

  lemma CasesAtPast(cs: map<Key, int>, s: Stmt, s2: Stmt, a: ES, b: ES, v: Env, at: int)
    requires CasesAt(cs, s, a, at) && Neat(CaseSet(cs, s2), a, b, v, 0) && !b.fails
    requires Injective(cs) && Cases(s) !! Cases(s2)
    ensures CasesAt(cs, s, b, at)
  {
    hide Pending, CaseOff;
    forall k | k in Cases(s)
      ensures k in cs && 0 <= cs[k] < |b.lab| && b.lab[cs[k]] == at + CaseOff(s, k)
    {
      assert cs[k] !in CaseSet(cs, s2);
    }
  }

  lemma CasesAtSeq(cs: map<Key, int>, s: Stmt, t: ES, at: int)
    requires s.Seq? && DistinctCases(s) && CasesAt(cs, s.s1, t, at) && CasesAt(cs, s.s2, t, at + SizeS(s.s1))
    ensures CasesAt(cs, s, t, at)
  {
    hide SizeS;
  }

  lemma LaysSeq(st: ES, v: Env, s: Stmt, cs: map<Key, int>, off: seq<int>)
    requires s.Seq? && GoodS(st, v, s, cs, off)
    ensures LayS(st, v, s, cs, off)
    decreases s, 0
  {
    hide Lay, Agrees, Neat, CasesAt, Injective, CasesIn, LinksOf, ExitsOf, CaseSet, CasesPlaced, GenS, SizeS, Cases;
    var s1 := EmitS(st, v, s.s1, cs);
    var t := EmitS(s1, v, s.s2, cs);
    assert t == EmitS(st, v, s, cs);
    SeqAgrees(st, v, s, cs, off, s1, t);
    LaysS(st, v, s.s1, cs, off);
    LaysS(s1, v, s.s2, cs, off);
    var c1, c2 := CodeSeq(s, |st.items|, LinksOf(v, off), ExitsOf(v, st, off));
    WritesThen(st, s1, t, off, c1, c2);
    CasesAtPast(cs, s.s1, s.s2, s1, t, v, |st.items|);
    CasesAtSeq(cs, s, t, |st.items|);
  }

  lemma SeqAgrees(st: ES, v: Env, s: Stmt, cs: map<Key, int>, off: seq<int>, s1: ES, t: ES)
    requires s.Seq? && GoodS(st, v, s, cs, off) && s1 == EmitS(st, v, s.s1, cs) && t == EmitS(s1, v, s.s2, cs)
    requires t == EmitS(st, v, s, cs)
    ensures GoodS(st, v, s.s1, cs, off) && GoodS(s1, v, s.s2, cs, off) && ExitsOf(v, s1, off) == ExitsOf(v, st, off)
    ensures Neat(CaseSet(cs, s.s2), s1, t, v, 0) && Cases(s.s1) !! Cases(s.s2)
  {
    hide Agrees, Neat, Injective, CasesIn, CaseSet, CasesPlaced, EmitS, OffOf;
    CasesUp(cs, |st.lab|, |s1.lab|);
    NeatStmt(st, v, s.s1, cs);
    NeatStmt(s1, v, s.s2, cs);
    NeatFacts(CaseSet(cs, s.s2), s1, t, v, 0);
    NeatFacts(CaseSet(cs, s.s1), st, s1, v, 0);
    CaseSetIn(cs, s.s2, |st.lab|);
    AgreesPart(off, |st.lab|, |st.lab|, s1, t, CaseSet(cs, s.s2), v, 0);
    AgreesUp(off, t, |st.lab|, |s1.lab|);
  }

  lemma LaysCase(st: ES, v: Env, s: Stmt, cs: map<Key, int>, off: seq<int>)
    requires s.Case? && GoodS(st, v, s, cs, off)
    ensures LayS(st, v, s, cs, off)
    decreases s, 0
  {
    hide Lay, Agrees, Neat, CasesAt, Injective, CasesIn, LinksOf, OffOf, CaseSet, CasesPlaced, Here, IsPlaced;
    var l := cs[s.key];
    var s1 := Here(st, l);
    var t := EmitS(s1, v, s.body, cs);
    assert t == EmitS(st, v, s, cs);
    NeatHere(st, l, v);
    NeatFacts({l}, st, s1, v, 0);
    KeyIn(cs, s.key, |st.lab|);
    NeatStmt(s1, v, s.body, cs);
    LaysS(s1, v, s.body, cs, off);
    WritesFrom(st, s1, t, off, GenS(s.body, |st.items|, LinksOf(v, off), ExitsOf(v, st, off)));
    CaseHere(cs, s, s1, t, v, |st.items|);
  }

  lemma CaseHere(cs: map<Key, int>, s: Stmt, a: ES, t: ES, v: Env, at: int)
    requires s.Case? && DistinctCases(s) && s.key in cs && 0 <= cs[s.key] < |a.lab| && a.lab[cs[s.key]] == at
    requires Neat(CaseSet(cs, s.body), a, t, v, 0) && !t.fails && Injective(cs) && CasesAt(cs, s.body, t, at)
    ensures CasesAt(cs, s, t, at)
  {
    hide Pending;
    assert cs[s.key] !in CaseSet(cs, s.body);
  }

  lemma {:induction false} LaysS(st: ES, v: Env, s: Stmt, cs: map<Key, int>, off: seq<int>)
    requires GoodS(st, v, s, cs, off)
    ensures LayS(st, v, s, cs, off)
    decreases s, 2
  {
    hide *;
    match s
    case Seq(_, _) => LaysSeq(st, v, s, cs, off);
    case Case(_, _) => LaysCase(st, v, s, cs, off);
    case If(_, _, f) =>
      if f.None? {
        LaysWhen(st, v, s, cs, off);
      } else {
        LaysElse(st, v, s, cs, off);
      }
    case Loop(_, _, _, _) => LaysLoop(st, v, s, cs, off);
    case Switch(_, _, _, _) => LaysSwitch(st, v, s, cs, off);
    case _ => LaysSimple(st, v, s, cs, off);
  }

  // ---- if ------------------------------------------------------------------------------

  lemma CasesAtIf(cs: map<Key, int>, s: Stmt, t: ES, at: int)
    requires s.If? && DistinctCases(s) && CasesAt(cs, s.t, t, at + SizeE(s.c, 0) + 2)
    requires s.f.Some? ==> CasesAt(cs, s.f.value, t, at + SizeE(s.c, 0) + 2 + SizeS(s.t) + 1)
    ensures CasesAt(cs, s, t, at)
  {
    hide SizeS, SizeE;
  }

  lemma LaysWhen(st: ES, v: Env, s: Stmt, cs: map<Key, int>, off: seq<int>)
    requires s.If? && s.f.None? && GoodS(st, v, s, cs, off)
    ensures LayS(st, v, s, cs, off)
    decreases s, 1
  {
    hide Agrees, NewLabel, Here, Jump, Put1, EmitE, Handed, LayS, CasesIn, Injective, Lay, CasesAt, LinksOf, ExitsOf,
      GenS;
    var lend := |st.lab| + 1;
    var s0 := TwoNew(st);
    var s1 := EmitE(s0, v, s.c);
    var t1 := Jump(Put1(s1, v, TestRax), v, Z, lend);
    var s2 := EmitS(t1, v, s.t, cs);
    var r := Here(s2, lend);
    assert r == EmitS(st, v, s, cs);
    WhenSteps(st, v, s, cs, off, s0, s1, t1, s2, r);
    LayIs(st, v, s, cs, off, r);
  }

  lemma LayIs(st: ES, v: Env, s: Stmt, cs: map<Key, int>, off: seq<int>, r: ES)
    requires r == EmitS(st, v, s, cs)
    requires Writes(st, r, off, GenS(s, |st.items|, LinksOf(v, off), ExitsOf(v, st, off)))
    requires CasesAt(cs, s, r, |st.items|)
    ensures LayS(st, v, s, cs, off)
  {
    hide Writes, CasesAt, GenS;
  }

  lemma WhenAgrees(st: ES, v: Env, s: Stmt, cs: map<Key, int>, off: seq<int>, s0: ES, s1: ES, t1: ES, s2: ES, r: ES)
    requires s.If? && Cased(s) && DistinctCases(s) && CasesIn(cs, |st.lab|) && Injective(cs) && st.depth == 0
    requires s.f.None? && !r.fails && Agrees(off, r, |st.lab|)
    requires Handed(st, s0) && (!s0.fails ==> |s0.lab| == |st.lab| + 2) && s1 == EmitE(s0, v, s.c)
    requires t1 == Jump(Put1(s1, v, TestRax), v, Z, |st.lab| + 1) && s2 == EmitS(t1, v, s.t, cs)
    requires r == Here(s2, |st.lab| + 1)
    ensures GoodE(s0, v, s.c, off) && GoodS(t1, v, s.t, cs, off) && s0.depth == 0
    ensures OffOf(off, |st.lab| + 1) == |s2.items| && t1.brk == st.brk && t1.cont == st.cont
    ensures s0.items == st.items && !s0.fails && !st.fails && r.items == s2.items && Neat({|st.lab| + 1}, s2, r, v, 0)
  {
    hide Agrees, Here, Jump, Put1, EmitE, EmitS, Handed, CasesIn, Injective, Neat, CaseSet, CasesPlaced, OffOf,
      IsPlaced;
    var n := |st.lab|;
    var lend := n + 1;
    HandedFacts(st, s0);
    HandedExits(st, s0);
    NeatE(s0, v, s.c);
    NeatTest({lend}, s1, v, Z, lend);
    CasesUp(cs, n, |t1.lab|);
    NeatStmt(t1, v, s.t, cs);
    NeatHere(s2, lend, v);
    NeatFacts({lend}, s2, r, v, 0);
    NeatFacts(CaseSet(cs, s.t), t1, s2, v, 0);
    NeatFacts({lend}, s1, t1, v, 0);
    NeatFacts({}, s0, s1, v, 0);
    PlaceAgrees(off, r, n, lend);
    var ch := CaseSet(cs, s.t) + {lend};
    CaseSetIn(cs, s.t, n);
    AgreesPart(off, n, |t1.lab|, s2, r, {lend}, v, 0);
    NeatFewer({lend}, ch, s2, r, v, 0);
    NeatBack(ch, CaseSet(cs, s.t), t1, s2, r, v);
    NeatBack(ch, {lend}, s1, t1, r, v);
    AgreesPart(off, n, |s0.lab|, s1, r, ch, v, 0);
  }

  lemma WhenSteps(st: ES, v: Env, s: Stmt, cs: map<Key, int>, off: seq<int>, s0: ES, s1: ES, t1: ES, s2: ES, r: ES)
    requires s.If? && Cased(s) && DistinctCases(s) && CasesIn(cs, |st.lab|) && Injective(cs) && st.depth == 0
    requires s.f.None? && !r.fails && Agrees(off, r, |st.lab|)
    requires Handed(st, s0) && (!s0.fails ==> |s0.lab| == |st.lab| + 2) && s1 == EmitE(s0, v, s.c)
    requires t1 == Jump(Put1(s1, v, TestRax), v, Z, |st.lab| + 1) && s2 == EmitS(t1, v, s.t, cs)
    requires r == Here(s2, |st.lab| + 1)
    ensures Writes(st, r, off, GenS(s, |st.items|, LinksOf(v, off), ExitsOf(v, st, off)))
    ensures CasesAt(cs, s, r, |st.items|)
    decreases s, 0
  {
    hide Agrees, Here, Jump, Put1, EmitE, EmitS, Handed, CasesIn, Injective, Neat, OffOf, GenE, GenS, SizeE, SizeS, Lay,
      LinksOf, CasesAt, Far;
    var lend := |st.lab| + 1;
    WhenAgrees(st, v, s, cs, off, s0, s1, t1, s2, r);
    LaysE(s0, v, s.c, off);
    LaysS(t1, v, s.t, cs, off);
    WritesTest(s1, v, Z, lend, off);
    var c1, c2 := CodeWhen(s, |st.items|, LinksOf(v, off), ExitsOf(v, st, off));
    var j := [TestRax, Far(Z, OffOf(off, lend), |s1.items| + 1)];
    WritesFrom(st, s0, s1, off, c1);
    WritesThen(st, s1, t1, off, c1, j);
    WritesThen(st, t1, s2, off, c1 + j, c2);
    WritesQuiet(st, s2, r, off, c1 + j + c2);
    FarIs(Z, OffOf(off, lend), |s1.items| + 1, |c2|);
    CasesAtOn(cs, s.t, |st.lab|, {lend}, s2, r, v, |t1.items|);
    CasesAtIf(cs, s, r, |st.items|);
  }

  lemma LaysElse(st: ES, v: Env, s: Stmt, cs: map<Key, int>, off: seq<int>)
    requires s.If? && s.f.Some? && GoodS(st, v, s, cs, off)
    ensures LayS(st, v, s, cs, off)
    decreases s, 1
  {
    hide Agrees, NewLabel, Here, Jump, Put1, EmitE, Handed, LayS, CasesIn, Injective, Lay, CasesAt, LinksOf, ExitsOf,
      GenS;
    var lelse, lend := |st.lab|, |st.lab| + 1;
    var s0 := TwoNew(st);
    var s1 := EmitE(s0, v, s.c);
    var t1 := Jump(Put1(s1, v, TestRax), v, Z, lelse);
    var s2 := EmitS(t1, v, s.t, cs);
    var t2 := Jump(s2, v, Always, lend);
    var t3 := Here(t2, lelse);
    var s3 := EmitS(t3, v, s.f.value, cs);
    var r := Here(s3, lend);
    assert r == EmitS(st, v, s, cs);
    ElseSteps(st, v, s, cs, off, s0, s1, t1, s2, t2, t3, s3, r);
    LayIs(st, v, s, cs, off, r);
  }

  lemma ElseNeat(st: ES, v: Env, s: Stmt, cs: map<Key, int>, s1: ES, t1: ES, s2: ES, t2: ES, t3: ES, s3: ES, r: ES)
    requires s.If? && s.f.Some? && Cased(s) && CasesIn(cs, |st.lab|) && !r.fails && |st.lab| + 2 <= |s1.lab|
    requires t1 == Jump(Put1(s1, v, TestRax), v, Z, |st.lab|) && s2 == EmitS(t1, v, s.t, cs)
    requires t2 == Jump(s2, v, Always, |st.lab| + 1) && t3 == Here(t2, |st.lab|)
    requires s3 == EmitS(t3, v, s.f.value, cs) && r == Here(s3, |st.lab| + 1)
    ensures var own := {|st.lab|, |st.lab| + 1};
            && Neat(own, s1, t1, v, 0) && Neat(CaseSet(cs, s.t), t1, s2, v, 0) && Neat(own, s2, t3, v, 0)
            && Neat(CaseSet(cs, s.f.value), t3, s3, v, 0) && Neat({|st.lab| + 1}, s3, r, v, 0)
            && IsPlaced(r, |st.lab|) && IsPlaced(r, |st.lab| + 1)
            && r.lab[|st.lab|] == |s2.items| + 1 && r.lab[|st.lab| + 1] == |s3.items|
            && t3.items == t2.items && t3.fails == t2.fails && r.items == s3.items && r.fails == s3.fails
  {
    hide Here, Jump, Put1, EmitS, CasesIn, Neat, CaseSet, CasesPlaced;
    var n := |st.lab|;
    var own := {n, n + 1};
    CasesUp(cs, n, |t1.lab|);
    CasesUp(cs, n, |t3.lab|);
    NeatTest(own, s1, v, Z, n);
    NeatStmt(t1, v, s.t, cs);
    NeatJump(own, s2, v, Always, n + 1);
    JumpItems(s2, v, Always, n + 1);
    NeatHere(t2, n, v);
    NeatThen(own, {n}, s2, t2, t3, v, 0, 0);
    NeatStmt(t3, v, s.f.value, cs);
    NeatHere(s3, n + 1, v);
    CaseSetIn(cs, s.f.value, n);
    KeptPlace(CaseSet(cs, s.f.value), t3, s3, v, 0, n);
    KeptPlace({n + 1}, s3, r, v, 0, n);
  }

  lemma JumpItems(st: ES, v: Env, cc: CC, l: int)
    ensures !Jump(st, v, cc, l).fails ==> |Jump(st, v, cc, l).items| == |st.items| + 1
  {
  }

  /** Nothing on the way failed, and depth and exits are as they were. */
  lemma ElseFacts(v: Env, s: Stmt, cs: map<Key, int>, n: int, s0: ES, s1: ES, t1: ES, s2: ES, t3: ES, s3: ES, r: ES)
    requires s.If? && s.f.Some? && !r.fails
    requires Neat({}, s0, s1, v, 0) && Neat({n, n + 1}, s1, t1, v, 0) && Neat(CaseSet(cs, s.t), t1, s2, v, 0)
    requires Neat({n, n + 1}, s2, t3, v, 0) && Neat(CaseSet(cs, s.f.value), t3, s3, v, 0) && Neat({n + 1}, s3, r, v, 0)
    ensures !s0.fails && !s1.fails && !t1.fails && !s2.fails && !t3.fails && !s3.fails
    ensures t1.depth == s0.depth && t1.brk == s0.brk && t1.cont == s0.cont
    ensures t3.depth == s0.depth && t3.brk == s0.brk && t3.cont == s0.cont
    ensures |s0.lab| <= |s1.lab| <= |t1.lab| <= |s2.lab| <= |t3.lab| <= |s3.lab| <= |r.lab|
  {
    hide Neat, CaseSet;
    NeatFacts({n + 1}, s3, r, v, 0);
    NeatFacts(CaseSet(cs, s.f.value), t3, s3, v, 0);
    NeatFacts({n, n + 1}, s2, t3, v, 0);
    NeatFacts(CaseSet(cs, s.t), t1, s2, v, 0);
    NeatFacts({n, n + 1}, s1, t1, v, 0);
    NeatFacts({}, s0, s1, v, 0);
  }

  lemma ElseParts(v: Env, s: Stmt, cs: map<Key, int>, off: seq<int>, n: int, s0: ES, s1: ES, t1: ES, s2: ES, t3: ES,
                  s3: ES, r: ES)
    requires s.If? && s.f.Some? && CasesIn(cs, n) && !r.fails && Agrees(off, r, n) && n + 2 <= |s0.lab|
    requires |s0.lab| <= |t1.lab| <= |t3.lab|
    requires Neat({n, n + 1}, s1, t1, v, 0) && Neat(CaseSet(cs, s.t), t1, s2, v, 0)
    requires Neat({n, n + 1}, s2, t3, v, 0) && Neat(CaseSet(cs, s.f.value), t3, s3, v, 0) && Neat({n + 1}, s3, r, v, 0)
    ensures Agrees(off, s1, |s0.lab|) && Agrees(off, s2, |t1.lab|) && Agrees(off, s3, |t3.lab|)
  {
    hide Agrees, CasesIn, Neat, CaseSet, OffOf;
    var own := {n, n + 1};
    var ct, cf := CaseSet(cs, s.t), CaseSet(cs, s.f.value);
    CaseSetIn(cs, s.t, n);
    CaseSetIn(cs, s.f.value, n);
    AgreesPart(off, n, |t3.lab|, s3, r, {n + 1}, v, 0);
    var ch := ct + cf + own;
    NeatFewer({n + 1}, ch, s3, r, v, 0);
    NeatBack(ch, cf, t3, s3, r, v);
    NeatBack(ch, own, s2, t3, r, v);
    AgreesPart(off, n, |t1.lab|, s2, r, ch, v, 0);
    NeatBack(ch, ct, t1, s2, r, v);
    NeatBack(ch, own, s1, t1, r, v);
    AgreesPart(off, n, |s0.lab|, s1, r, ch, v, 0);
  }

  lemma ElseAgrees(st: ES, v: Env, s: Stmt, cs: map<Key, int>, off: seq<int>,
                   s0: ES, s1: ES, t1: ES, s2: ES, t3: ES, s3: ES, r: ES)
    requires s.If? && s.f.Some? && Cased(s) && DistinctCases(s) && CasesIn(cs, |st.lab|) && Injective(cs)
    requires s0.depth == 0
    requires !r.fails && Agrees(off, r, |st.lab|) && (!s0.fails ==> |s0.lab| == |st.lab| + 2)
    requires s1 == EmitE(s0, v, s.c) && s2 == EmitS(t1, v, s.t, cs) && s3 == EmitS(t3, v, s.f.value, cs)
    requires var n := |st.lab|;
             && Neat({n, n + 1}, s1, t1, v, 0) && Neat(CaseSet(cs, s.t), t1, s2, v, 0)
             && Neat({n, n + 1}, s2, t3, v, 0) && Neat(CaseSet(cs, s.f.value), t3, s3, v, 0)
             && Neat({n + 1}, s3, r, v, 0)
    ensures GoodE(s0, v, s.c, off) && GoodS(t1, v, s.t, cs, off) && GoodS(t3, v, s.f.value, cs, off)
    ensures t1.brk == s0.brk && t1.cont == s0.cont && t3.brk == s0.brk && t3.cont == s0.cont && !s0.fails
  {
    hide Agrees, EmitE, EmitS, CasesIn, Injective, Neat, CaseSet, OffOf, Cased, Cases, DistinctCases;
    var n := |st.lab|;
    IfCased(s);
    NeatE(s0, v, s.c);
    ElseFacts(v, s, cs, n, s0, s1, t1, s2, t3, s3, r);
    ElseParts(v, s, cs, off, n, s0, s1, t1, s2, t3, s3, r);
    CasesUp(cs, n, |t1.lab|);
    CasesUp(cs, n, |t3.lab|);
  }

  lemma IfCased(s: Stmt)
    requires s.If? && Cased(s) && DistinctCases(s)
    ensures Cased(s.t) && DistinctCases(s.t) && (s.f.Some? ==> Cased(s.f.value) && DistinctCases(s.f.value))
  {
  }

  lemma ElseSteps(st: ES, v: Env, s: Stmt, cs: map<Key, int>, off: seq<int>,
                  s0: ES, s1: ES, t1: ES, s2: ES, t2: ES, t3: ES, s3: ES, r: ES)
    requires s.If? && s.f.Some? && Cased(s) && DistinctCases(s) && CasesIn(cs, |st.lab|) && Injective(cs)
    requires st.depth == 0
    requires !r.fails && Agrees(off, r, |st.lab|)
    requires Handed(st, s0) && (!s0.fails ==> |s0.lab| == |st.lab| + 2) && s1 == EmitE(s0, v, s.c)
    requires t1 == Jump(Put1(s1, v, TestRax), v, Z, |st.lab|) && s2 == EmitS(t1, v, s.t, cs)
    requires t2 == Jump(s2, v, Always, |st.lab| + 1) && t3 == Here(t2, |st.lab|)
    requires s3 == EmitS(t3, v, s.f.value, cs) && r == Here(s3, |st.lab| + 1)
    ensures Writes(st, r, off, GenS(s, |st.items|, LinksOf(v, off), ExitsOf(v, st, off)))
    ensures CasesAt(cs, s, r, |st.items|)
    decreases s, 0
  {
    hide Agrees, Here, Jump, Put1, EmitE, EmitS, Handed, CasesIn, Injective, Neat, OffOf, GenE, GenS, SizeE, SizeS, Lay,
      LinksOf, CasesAt, Far, IsPlaced, CaseSet, DistinctCases;
    var lelse, lend := |st.lab|, |st.lab| + 1;
    HandedFacts(st, s0);
    HandedExits(st, s0);
    ElseNeat(st, v, s, cs, s1, t1, s2, t2, t3, s3, r);
    ElseAgrees(st, v, s, cs, off, s0, s1, t1, s2, t3, s3, r);
    PlaceAgrees(off, r, lelse, lelse);
    PlaceAgrees(off, r, lelse, lend);
    LaysE(s0, v, s.c, off);
    LaysS(t1, v, s.t, cs, off);
    LaysS(t3, v, s.f.value, cs, off);
    WritesTest(s1, v, Z, lelse, off);
    WritesJump(s2, v, Always, lend, off);
    var c1, c2, c3 := CodeIf(s, |st.items|, LinksOf(v, off), ExitsOf(v, st, off));
    var j1 := [TestRax, Far(Z, OffOf(off, lelse), |s1.items| + 1)];
    var j2 := [Far(Always, OffOf(off, lend), |s2.items|)];
    WritesFrom(st, s0, s1, off, c1);
    WritesThen(st, s1, t1, off, c1, j1);
    WritesThen(st, t1, s2, off, c1 + j1, c2);
    WritesThen(st, s2, t2, off, c1 + j1 + c2, j2);
    WritesQuiet(st, t2, t3, off, c1 + j1 + c2 + j2);
    WritesThen(st, t3, s3, off, c1 + j1 + c2 + j2, c3);
    WritesQuiet(st, s3, r, off, c1 + j1 + c2 + j2 + c3);
    FarIs(Z, OffOf(off, lelse), |s1.items| + 1, |c2| + 1);
    FarIs(Always, OffOf(off, lend), |s2.items|, |c3|);
    ElseCases(st, v, s, cs, s2, t3, s3, r, |t1.items|);
    CasesAtIf(cs, s, r, |st.items|);
  }

  lemma ElseCases(st: ES, v: Env, s: Stmt, cs: map<Key, int>, s2: ES, t3: ES, s3: ES, r: ES, at: int)
    requires s.If? && s.f.Some? && DistinctCases(s) && CasesIn(cs, |st.lab|) && Injective(cs)
    requires !t3.fails && !s3.fails && !r.fails && CasesAt(cs, s.t, s2, at) && CasesAt(cs, s.f.value, s3, |t3.items|)
    requires Neat({|st.lab|, |st.lab| + 1}, s2, t3, v, 0) && Neat(CaseSet(cs, s.f.value), t3, s3, v, 0)
    requires Neat({|st.lab| + 1}, s3, r, v, 0)
    ensures CasesAt(cs, s.t, r, at) && CasesAt(cs, s.f.value, r, |t3.items|)
  {
    hide Neat, CasesIn, Injective, CasesAt, CaseSet;
    var n := |st.lab|;
    CasesAtOn(cs, s.t, n, {n, n + 1}, s2, t3, v, at);
    CasesAtPast(cs, s.t, s.f.value, t3, s3, v, at);
    CasesAtOn(cs, s.t, n, {n + 1}, s3, r, v, at);
    CasesAtOn(cs, s.f.value, n, {n + 1}, s3, r, v, |t3.items|);
  }

  // ---- loops -----------------------------------------------------------------------------

  lemma LaysLoop(st: ES, v: Env, s: Stmt, cs: map<Key, int>, off: seq<int>)
    requires s.Loop? && GoodS(st, v, s, cs, off)
    ensures LayS(st, v, s, cs, off)
    decreases s, 1
  {
    hide Agrees, NewLabel, Here, Jump, EmitTest, EmitO, FuelCheck, Handed, Nest, LayS, CasesIn, Injective, Lay,
      CasesAt, LinksOf,
      GenS;
    var n := |st.lab|;
    var s0 := ThreeNew(st);
    var a := Nest(s0, st.brk + [n + 2], st.cont + [n + 1]);
    var b1 := Here(a, n);
    var b2 := EmitTest(b1, v, s.cond, s.testFirst, n + 2);
    var b3 := EmitS(b2, v, s.body, cs);
    var b4 := Here(b3, n + 1);
    var b5 := EmitO(b4, v, s.post);
    var b6 := EmitTest(b5, v, s.cond, !s.testFirst, n + 2);
    var b7 := FuelCheck(b6, v);
    var b8 := Jump(b7, v, Always, n);
    var b9 := Here(b8, n + 2);
    assert EmitS(st, v, s, cs) == Nest(b9, st.brk, st.cont);
    NestSame(s0, st.brk + [n + 2], st.cont + [n + 1]);
    NestSame(b9, st.brk, st.cont);
    NestExits(s0, st.brk + [n + 2], st.cont + [n + 1]);
    HandedFacts(st, s0);
    SameAgrees(off, b9, EmitS(st, v, s, cs), n);
    LoopWrites(v, s, cs, off, n, a, b1, b2, b3, b4, b5, b6, b7, b8, b9, ExitsOf(v, st, off));
    LoopFinish(st, v, s, cs, off, a, b9, EmitS(st, v, s, cs));
  }

  lemma NestExits(st: ES, brk: seq<int>, cont: seq<int>)
    ensures !st.fails ==> Nest(st, brk, cont).brk == brk && Nest(st, brk, cont).cont == cont
                          && Nest(st, brk, cont).depth == st.depth
  {
  }

  lemma LoopFinish(st: ES, v: Env, s: Stmt, cs: map<Key, int>, off: seq<int>, a: ES, b9: ES, r: ES)
    requires s.Loop? && r == EmitS(st, v, s, cs) && !r.fails && a.items == st.items && r.items == b9.items
    requires r.lab == b9.lab
    requires !b9.fails && !st.fails
    requires Writes(a, b9, off, GenS(s, |a.items|, LinksOf(v, off), ExitsOf(v, st, off)))
    requires CasesAt(cs, s, b9, |a.items|)
    ensures LayS(st, v, s, cs, off)
  {
    hide Lay, GenS, EmitS, LinksOf, ExitsOf;
  }

  /** The states of a loop's emission, in order. `a` has its labels n, n+1, n+2. */
  ghost predicate LoopStates(v: Env, s: Stmt, cs: map<Key, int>, n: int, a: ES, b1: ES, b2: ES, b3: ES, b4: ES, b5: ES,
                             b6: ES, b7: ES, b8: ES, b9: ES)
    requires s.Loop?
  {
    && b1 == Here(a, n) && b2 == EmitTest(b1, v, s.cond, s.testFirst, n + 2)
    && b3 == EmitS(b2, v, s.body, cs) && b4 == Here(b3, n + 1) && b5 == EmitO(b4, v, s.post)
    && b6 == EmitTest(b5, v, s.cond, !s.testFirst, n + 2) && b7 == FuelCheck(b6, v)
    && b8 == Jump(b7, v, Always, n) && b9 == Here(b8, n + 2)
    && !b9.fails && 0 <= n && |a.lab| == n + 3 && Cased(s) && CasesIn(cs, n)
  }

  lemma LoopNeat(v: Env, s: Stmt, cs: map<Key, int>, n: int, a: ES, b1: ES, b2: ES, b3: ES, b4: ES, b5: ES,
                 b6: ES, b7: ES, b8: ES, b9: ES)
    requires s.Loop? && LoopStates(v, s, cs, n, a, b1, b2, b3, b4, b5, b6, b7, b8, b9)
    ensures Neat({n + 2}, b1, b2, v, 0) && Neat(CaseSet(cs, s.body), b2, b3, v, 0) && Neat({n + 1}, b3, b4, v, 0)
    ensures Neat({}, b4, b5, v, 0) && Neat({n + 2}, b5, b6, v, 0) && Neat({}, b6, b7, v, 0)
    ensures b8.lab == b7.lab && |b1.lab| == n + 3 && IsPlaced(b1, n) && b1.lab[n] == |a.items|
    ensures b1.items == a.items && b4.items == b3.items && b9.items == b8.items
    ensures IsPlaced(b4, n + 1) && b4.lab[n + 1] == |b3.items|
    ensures !b1.fails && !b2.fails && !b3.fails && !b4.fails && !b5.fails && !b6.fails && !b7.fails && !b8.fails
    ensures b1.depth == a.depth && b1.brk == a.brk && b1.cont == a.cont
  {
    hide Here, Jump, EmitTest, EmitO, FuelCheck, EmitS, CasesIn, Neat, CaseSet, CasesPlaced, IsPlaced;
    CasesUp(cs, n, |b2.lab|);
    NeatHere(a, n, v);
    NeatFacts({n}, a, b1, v, 0);
    NeatTestO({n + 2}, b1, v, s.cond, s.testFirst, n + 2);
    NeatStmt(b2, v, s.body, cs);
    NeatHere(b3, n + 1, v);
    NeatO(b4, v, s.post);
    NeatTestO({n + 2}, b5, v, s.cond, !s.testFirst, n + 2);
    NeatFuel(b6, v);
    NeatJump({n}, b7, v, Always, n);
    NeatHere(b8, n + 2, v);
  }

  /** The back-edge and the end. */
  lemma LoopClose(v: Env, s: Stmt, cs: map<Key, int>, n: int, b1: ES, b2: ES, b3: ES, b4: ES, b5: ES,
                  b6: ES, b7: ES, b8: ES, b9: ES)
    requires s.Loop? && CasesIn(cs, n) && 0 <= n && !b9.fails && n + 3 <= |b8.lab|
    requires Neat({n + 2}, b1, b2, v, 0) && Neat(CaseSet(cs, s.body), b2, b3, v, 0) && Neat({n + 1}, b3, b4, v, 0)
    requires Neat({}, b4, b5, v, 0) && Neat({n + 2}, b5, b6, v, 0) && Neat({}, b6, b7, v, 0)
    requires !b2.fails && !b3.fails && !b4.fails && !b5.fails && !b6.fails && !b7.fails
    requires IsPlaced(b1, n) && b8 == Jump(b7, v, Always, n) && b9 == Here(b8, n + 2)
    ensures Neat({n + 2}, b6, b9, v, 0) && IsPlaced(b9, n + 2) && b9.lab[n + 2] == |b8.items|
  {
    hide Here, Jump, CasesIn, Neat, CaseSet, IsPlaced;
    CaseSetIn(cs, s.body, n);
    Stays({n + 2}, b1, b2, v, 0, n);
    Stays(CaseSet(cs, s.body), b2, b3, v, 0, n);
    Stays({n + 1}, b3, b4, v, 0, n);
    Stays({}, b4, b5, v, 0, n);
    Stays({n + 2}, b5, b6, v, 0, n);
    Stays({}, b6, b7, v, 0, n);
    NeatJumpBack(b7, v, Always, n);
    NeatHere(b8, n + 2, v);
    NeatBack({n + 2}, {}, b7, b8, b9, v);
    NeatBack({n + 2}, {}, b6, b7, b9, v);
  }

  /** Going back from the end: what every intermediate state agrees with. */
  lemma LoopBack(v: Env, s: Stmt, cs: map<Key, int>, n: int, b1: ES, b2: ES, b3: ES, b4: ES, b5: ES, b6: ES, b9: ES)
    requires s.Loop?
    requires Neat({n + 2}, b1, b2, v, 0) && Neat(CaseSet(cs, s.body), b2, b3, v, 0) && Neat({n + 1}, b3, b4, v, 0)
    requires Neat({}, b4, b5, v, 0) && Neat({n + 2}, b5, b6, v, 0) && Neat({n + 2}, b6, b9, v, 0)
    ensures Neat({n + 2}, b5, b9, v, 0) && Neat({n + 2}, b4, b9, v, 0) && Neat({n + 1, n + 2}, b3, b9, v, 0)
    ensures var all := {n + 1, n + 2} + CaseSet(cs, s.body); Neat(all, b2, b9, v, 0) && Neat(all, b1, b9, v, 0)
  {
    hide Neat, CaseSet;
    var own, both := {n + 2}, {n + 1, n + 2};
    NeatBack(own, own, b5, b6, b9, v);
    NeatBack(own, {}, b4, b5, b9, v);
    NeatFewer(own, both, b4, b9, v, 0);
    NeatBack(both, {n + 1}, b3, b4, b9, v);
    var all := both + CaseSet(cs, s.body);
    NeatFewer(both, all, b3, b9, v, 0);
    NeatBack(all, CaseSet(cs, s.body), b2, b3, b9, v);
    NeatBack(all, own, b1, b2, b9, v);
  }

  lemma LoopPlaces(v: Env, s: Stmt, cs: map<Key, int>, n: int, b1: ES, b4: ES, b9: ES, off: seq<int>)
    requires s.Loop? && CasesIn(cs, n) && 0 <= n && !b9.fails && Agrees(off, b9, n)
    requires Neat({n + 2}, b4, b9, v, 0) && Neat({n + 1, n + 2} + CaseSet(cs, s.body), b1, b9, v, 0)
    requires |b1.lab| == n + 3 && IsPlaced(b1, n) && IsPlaced(b4, n + 1) && IsPlaced(b9, n + 2)
    ensures OffOf(off, n) == b1.lab[n] && OffOf(off, n + 1) == b4.lab[n + 1] && OffOf(off, n + 2) == b9.lab[n + 2]
  {
    hide CasesIn, Neat, CaseSet, Agrees, OffOf;
    CaseSetIn(cs, s.body, n);
    var all := {n + 1, n + 2} + CaseSet(cs, s.body);
    KeptPlace(all, b1, b9, v, 0, n);
    KeptPlace({n + 2}, b4, b9, v, 0, n + 1);
    PlaceAgrees(off, b9, n, n);
    PlaceAgrees(off, b9, n, n + 1);
    PlaceAgrees(off, b9, n, n + 2);
  }

  lemma LoopAgrees(v: Env, s: Stmt, cs: map<Key, int>, n: int, b1: ES, b2: ES, b3: ES, b4: ES, b5: ES, b6: ES, b9: ES,
                   off: seq<int>)
    requires s.Loop? && CasesIn(cs, n) && !b9.fails && Agrees(off, b9, n)
    requires Neat({n + 2}, b6, b9, v, 0) && Neat({n + 2}, b5, b9, v, 0) && Neat({n + 1, n + 2}, b3, b9, v, 0)
    requires Neat({n + 1, n + 2} + CaseSet(cs, s.body), b2, b9, v, 0)
    requires n + 3 <= |b1.lab| && |b1.lab| <= |b2.lab| <= |b4.lab| <= |b5.lab|
    ensures Agrees(off, b2, |b1.lab|) && Agrees(off, b3, |b2.lab|) && Agrees(off, b5, |b4.lab|)
    ensures Agrees(off, b6, |b5.lab|)
  {
    hide CasesIn, Neat, CaseSet, Agrees, OffOf;
    CaseSetIn(cs, s.body, n);
    AgreesPart(off, n, |b1.lab|, b2, b9, {n + 1, n + 2} + CaseSet(cs, s.body), v, 0);
    AgreesPart(off, n, |b2.lab|, b3, b9, {n + 1, n + 2}, v, 0);
    AgreesPart(off, n, |b4.lab|, b5, b9, {n + 2}, v, 0);
    AgreesPart(off, n, |b5.lab|, b6, b9, {n + 2}, v, 0);
  }

  lemma LoopDepths(v: Env, s: Stmt, cs: map<Key, int>, n: int, a: ES, b1: ES, b2: ES, b3: ES, b4: ES, b5: ES, b6: ES)
    requires s.Loop? && b1.depth == a.depth && b1.brk == a.brk && b1.cont == a.cont
    requires !b2.fails && !b3.fails && !b4.fails && !b5.fails && !b6.fails
    requires Neat({n + 2}, b1, b2, v, 0) && Neat(CaseSet(cs, s.body), b2, b3, v, 0) && Neat({n + 1}, b3, b4, v, 0)
    requires Neat({}, b4, b5, v, 0) && Neat({n + 2}, b5, b6, v, 0)
    ensures b2.depth == a.depth && b4.depth == a.depth && b5.depth == a.depth && b2.brk == a.brk && b2.cont == a.cont
    ensures |b1.lab| <= |b2.lab| <= |b3.lab| <= |b4.lab| <= |b5.lab|
  {
    hide Neat, CaseSet;
    NeatFacts({n + 2}, b1, b2, v, 0);
    NeatFacts(CaseSet(cs, s.body), b2, b3, v, 0);
    NeatFacts({n + 1}, b3, b4, v, 0);
    NeatFacts({}, b4, b5, v, 0);
    NeatFacts({n + 2}, b5, b6, v, 0);
  }

  lemma CasesAtLoop(cs: map<Key, int>, s: Stmt, t: ES, at: int)
    requires s.Loop? && CasesAt(cs, s.body, t, at + SizeTest(s.cond, s.testFirst))
    ensures CasesAt(cs, s, t, at)
  {
    hide SizeTest;
  }

  /** Everything the code of a loop needs: places, agreement, what is laid out. */
  lemma LoopReady(v: Env, s: Stmt, cs: map<Key, int>, off: seq<int>, n: int, a: ES, b1: ES, b2: ES, b3: ES, b4: ES,
                  b5: ES,
                  b6: ES, b7: ES, b8: ES, b9: ES)
    requires s.Loop? && LoopStates(v, s, cs, n, a, b1, b2, b3, b4, b5, b6, b7, b8, b9)
    requires Agrees(off, b9, n) && a.depth == 0
    ensures OffOf(off, n) == |a.items| && OffOf(off, n + 1) == |b3.items| && OffOf(off, n + 2) == |b8.items|
    ensures Agrees(off, b2, |b1.lab|) && Agrees(off, b3, |b2.lab|) && Agrees(off, b5, |b4.lab|)
    ensures Agrees(off, b6, |b5.lab|)
    ensures b1.depth == 0 && b2.depth == 0 && b4.depth == 0 && b5.depth == 0 && b2.brk == a.brk && b2.cont == a.cont
    ensures b1.items == a.items && b4.items == b3.items && b9.items == b8.items && n + 3 <= |b2.lab|
    ensures !b1.fails && !b2.fails && !b3.fails && !b4.fails && !b5.fails && !b6.fails && !b7.fails && !b8.fails
    ensures Neat({n + 1, n + 2}, b3, b9, v, 0)
  {
    hide Here, Jump, EmitTest, EmitO, FuelCheck, EmitS, CasesIn, Neat, CaseSet, Agrees, OffOf, IsPlaced, Cased;
    LoopNeat(v, s, cs, n, a, b1, b2, b3, b4, b5, b6, b7, b8, b9);
    LoopDepths(v, s, cs, n, a, b1, b2, b3, b4, b5, b6);
    LoopClose(v, s, cs, n, b1, b2, b3, b4, b5, b6, b7, b8, b9);
    LoopBack(v, s, cs, n, b1, b2, b3, b4, b5, b6, b9);
    LoopPlaces(v, s, cs, n, b1, b4, b9, off);
    LoopAgrees(v, s, cs, n, b1, b2, b3, b4, b5, b6, b9, off);
  }

  lemma LoopWrites(v: Env, s: Stmt, cs: map<Key, int>, off: seq<int>, n: int, a: ES, b1: ES, b2: ES, b3: ES, b4: ES,
                   b5: ES,
                   b6: ES, b7: ES, b8: ES, b9: ES, x: Exits)
    requires s.Loop? && LoopStates(v, s, cs, n, a, b1, b2, b3, b4, b5, b6, b7, b8, b9)
    requires Agrees(off, b9, n) && a.depth == 0 && DistinctCases(s) && Injective(cs) && x.epi == OffOf(off, v.epi)
    requires Last(a.brk) == n + 2 && Last(a.cont) == n + 1
    ensures Writes(a, b9, off, GenS(s, |a.items|, LinksOf(v, off), x)) && CasesAt(cs, s, b9, |a.items|)
    decreases s, 0
  {
    hide Here, Jump, EmitTest, EmitO, FuelCheck, EmitS, CasesIn, Neat, CaseSet, Agrees, OffOf, IsPlaced, GenTest, GenO,
      GenS,
      SizeTest, SizeO, SizeS, Lay, LinksOf, Far, CasesAt, Injective, Weight;
    var k, at := LinksOf(v, off), |a.items|;
    LoopReady(v, s, cs, off, n, a, b1, b2, b3, b4, b5, b6, b7, b8, b9);
    CasesUp(cs, n, |b2.lab|);
    WritesTestO(b1, v, s.cond, s.testFirst, n + 2, off);
    LaysS(b2, v, s.body, cs, off);
    WritesO(b4, v, s.post, off);
    WritesTestO(b5, v, s.cond, !s.testFirst, n + 2, off);
    WritesFuel(b6, v, off);
    WritesJump(b7, v, Always, n, off);
    LinksFuel(v, off);
    LoopSizes(s, at, k, x, off, n, |b2.items|, |b3.items|, |b5.items|, |b6.items|, ExitsOf(v, b2, off));
    var c1, c2, c3, c4, c5 := CodeLoop(s, at, k, x);
    var j := [DecFuel, Far(S, k.fuel, |b6.items| + 1)];
    var g := [Far(Always, OffOf(off, n), |b7.items|)];
    WritesFrom(a, b1, b2, off, c1);
    WritesThen(a, b2, b3, off, c1, c2);
    WritesQuiet(a, b3, b4, off, c1 + c2);
    WritesThen(a, b4, b5, off, c1 + c2, c3);
    WritesThen(a, b5, b6, off, c1 + c2 + c3, c4);
    WritesThen(b6, b7, b8, off, j, g);
    assert j + g == c5;
    WritesThen(a, b6, b8, off, c1 + c2 + c3 + c4, c5);
    WritesQuiet(a, b8, b9, off, c1 + c2 + c3 + c4 + c5);
    CasesAtOn(cs, s.body, n, {n + 1, n + 2}, b3, b9, v, |b2.items|);
    CasesAtLoop(cs, s, b9, at);
  }

  /** The distances come out as Gen.dfy computes them from sizes alone. */
  lemma LoopSizes(s: Stmt, at: int, k: Links, x: Exits, off: seq<int>, n: int, p2: int, p3: int, p5: int, p6: int,
                  y: Exits)
    requires s.Loop?
    requires p2 == at + |GenTest(s.cond, s.testFirst, OffOf(off, n + 2), at, k)| && p3 == p2 + |GenS(s.body, p2, k, y)|
    requires p5 == p3 + |GenO(s.post, p3, k)| && p6 == p5 + |GenTest(s.cond, !s.testFirst, OffOf(off, n + 2), p5, k)|
    ensures var m := LoopMarks(s, at); m.body == p2 && m.cont == p3 && m.test == p5 && m.back == p6 && m.end == p6 + 3
  {
    hide GenTest, GenO, GenS, SizeTest, SizeO, OffOf;
    SizeOfTest(s.cond, s.testFirst, OffOf(off, n + 2), at, k);
    SizeOfS(s.body, p2, k, y);
    SizeOfO(s.post, p3, k);
    SizeOfTest(s.cond, !s.testFirst, OffOf(off, n + 2), p5, k);
  }

  // ---- switch ------------------------------------------------------------------------------

  lemma {:induction false} LabelMapInjective(keys: seq<int>, dflt: bool, first: int)
    ensures Injective(LabelMap(keys, dflt, first))
    decreases |keys|
  {
    if keys != [] {
      LabelMapInjective(keys[1..], dflt, first + 1);
      LabelMapIn(keys[1..], dflt, first + 1);
    }
  }

  lemma {:induction false} WritesChain(st: ES, v: Env, keys: seq<int>, first: int, off: seq<int>, b: Stmt, body: int)
    requires forall i :: 0 <= i < |keys| ==> OffOf(off, first + i) == body + CaseOff(b, CaseOf(keys[i]))
    ensures Writes(st, EmitChain(st, v, keys, first), off, Chain(keys, b, body, |st.items|))
    decreases |keys|
  {
    hide Writes, Puts, Jump, OffOf, CaseOff;
    if keys == [] {
      WritesNone(st, st, off);
    } else {
      var c := [MovR11Imm(Enc(keys[0])), CmpRaxR11];
      var s1 := Puts(st, v, c);
      var s2 := Jump(s1, v, Z, first);
      var t := EmitChain(s2, v, keys[1..], first + 1);
      assert OffOf(off, first + 0) == body + CaseOff(b, CaseOf(keys[0]));
      forall i | 0 <= i < |keys[1..]|
        ensures OffOf(off, first + 1 + i) == body + CaseOff(b, CaseOf(keys[1..][i]))
      {
        assert OffOf(off, first + (i + 1)) == body + CaseOff(b, CaseOf(keys[i + 1]));
      }
      WritesPuts(st, v, c, off);
      WritesJump(s1, v, Z, first, off);
      WritesChain(s2, v, keys[1..], first + 1, off, b, body);
      if t.fails {
        WritesFailed(st, t, off, Chain(keys, b, body, |st.items|));
      } else {
        ChainCounts(st, s1, s2, v, c, first, off);
        var j := [Far(Z, OffOf(off, first), |s1.items|)];
        WritesThen(st, s1, s2, off, c, j);
        WritesThen(st, s2, t, off, c + j, Chain(keys[1..], b, body, |s2.items|));
        assert c + j == [MovR11Imm(Enc(keys[0])), CmpRaxR11, Far(Z, OffOf(off, first), |st.items| + 2)];
      }
    }
  }

  lemma WritesFailed(a: ES, b: ES, off: seq<int>, c: seq<Instr>)
    requires b.fails
    ensures Writes(a, b, off, c)
  {
  }

  lemma ChainCounts(st: ES, s1: ES, s2: ES, v: Env, c: seq<Instr>, l: int, off: seq<int>)
    requires s1 == Puts(st, v, c) && |c| == 2 && s2 == Jump(s1, v, Z, l) && !s2.fails
    ensures |s1.items| == |st.items| + 2 && |s2.items| == |st.items| + 3
  {
    hide Puts, Jump, Lay, OffOf;
    WritesPuts(st, v, c, off);
    JumpItems(s1, v, Z, l);
  }

  lemma LaysSwitch(st: ES, v: Env, s: Stmt, cs: map<Key, int>, off: seq<int>)
    requires s.Switch? && GoodS(st, v, s, cs, off)
    ensures LayS(st, v, s, cs, off)
    decreases s, 1
  {
    hide Agrees, NewLabel, Here, Jump, EmitE, EmitChain, Handed, Nest, CaseLabels, LabelMap, LayS, CasesIn, Injective,
      Lay, CasesAt,
      LinksOf, GenS, OffOf;
    var n := |st.lab|;
    var s0 := EmitKeepsS.SwitchLabels(st, s.keys, s.dflt);
    HandSwitch(st, s.keys, s.dflt);
    var s2 := EmitE(s0, v, s.c);
    var s3 := EmitChain(s2, v, s.keys, n + 1);
    var s4 := Jump(s3, v, Always, if s.dflt then n + 1 + |s.keys| else n);
    var a := Nest(s4, st.brk + [n], st.cont);
    var s5 := EmitS(a, v, s.body, LabelMap(s.keys, s.dflt, n + 1));
    var b := Nest(s5, st.brk, st.cont);
    var r := Here(b, n);
    assert r == EmitS(st, v, s, cs);
    NestSame(s4, st.brk + [n], st.cont);
    NestExits(s4, st.brk + [n], st.cont);
    NestSame(s5, st.brk, st.cont);
    HandedFacts(st, s0);
    HandedExits(st, s0);
    SwitchWrites(st, v, s, off, s0, s2, s3, s4, a, s5, b, r);
    NoCases(cs, s, r, |st.items|);
    LayIs(st, v, s, cs, off, r);
  }

  ghost predicate SwitchStates(st: ES, v: Env, s: Stmt, s0: ES, s2: ES, s3: ES, s4: ES, a: ES, s5: ES, b: ES, r: ES)
    requires s.Switch?
  {
    var n := |st.lab|;
    && s2 == EmitE(s0, v, s.c) && s3 == EmitChain(s2, v, s.keys, n + 1)
    && s4 == Jump(s3, v, Always, if s.dflt then n + 1 + |s.keys| else n) && a == Nest(s4, st.brk + [n], st.cont)
    && s5 == EmitS(a, v, s.body, LabelMap(s.keys, s.dflt, n + 1)) && b == Nest(s5, st.brk, st.cont) && r == Here(b, n)
    && !r.fails && Cased(s) && s0.brk == st.brk && s0.cont == st.cont && s0.depth == 0 && s0.items == st.items
    && (!s0.fails ==> !st.fails && |s0.lab| == n + 1 + |s.keys| + (if s.dflt then 1 else 0))
    && a.items == s4.items && a.lab == s4.lab && a.fails == s4.fails && b.items == s5.items && b.lab == s5.lab
    && b.fails == s5.fails
    && (!a.fails ==> a.brk == st.brk + [n] && a.cont == st.cont && a.depth == s4.depth)
  }

  lemma LabelMapCases(keys: seq<int>, dflt: bool, first: nat, n: int)
    requires first + |keys| + (if dflt then 1 else 0) <= n
    ensures CasesIn(LabelMap(keys, dflt, first), n)
  {
    hide LabelMap;
    LabelMapIn(keys, dflt, first);
  }

  lemma SwitchNeat(st: ES, v: Env, s: Stmt, s0: ES, s2: ES, s3: ES, s4: ES, a: ES, s5: ES, b: ES, r: ES)
    requires s.Switch? && SwitchStates(st, v, s, s0, s2, s3, s4, a, s5, b, r)
    ensures var own := Range(|st.lab|, |s0.lab|); Neat(own, s2, r, v, 0) && Neat({|st.lab|}, b, r, v, 0)
    ensures Neat({}, s0, s2, v, 0) && !s0.fails && !s2.fails && !s3.fails && !s4.fails && !s5.fails
    ensures a.depth == 0 && |s0.lab| <= |a.lab| <= |s5.lab| && r.items == s5.items
    ensures |st.lab| < |r.lab| && IsPlaced(r, |st.lab|) && r.lab[|st.lab|] == |s5.items|
    ensures CasesIn(LabelMap(s.keys, s.dflt, |st.lab| + 1), |a.lab|)
  {
    hide Neat, CaseSet, CasesPlaced, Here, Jump, EmitE, EmitChain, EmitS, Nest, LabelMap, IsPlaced, Cased;
    var n := |st.lab|;
    var own := Range(n, |s0.lab|);
    var m := LabelMap(s.keys, s.dflt, n + 1);
    LabelMapIn(s.keys, s.dflt, n + 1);
    NeatE(s0, v, s.c);
    NeatChain(s2, v, s.keys, n + 1);
    NeatJump(own, s3, v, Always, if s.dflt then n + 1 + |s.keys| else n);
    CasedBody(s);
    assert !s0.fails && |a.lab| >= |s0.lab|;
    LabelMapCases(s.keys, s.dflt, n + 1, |a.lab|);
    NeatStmt(a, v, s.body, m);
    NeatHere(b, n, v);
    NeatFacts(CaseSet(m, s.body), a, s5, v, 0);
    NeatFacts(own, s3, s4, v, 0);
    NeatFacts(Range(n + 1, n + 1 + |s.keys|), s2, s3, v, 0);
    NeatFacts({}, s0, s2, v, 0);
    CaseSetOf(s, n + 1, |s0.lab|);
    NeatFewer(CaseSet(m, s.body), own, a, s5, v, 0);
    NeatNest(own, s4, st.brk + [n], st.cont, s5, v);
    NeatFewer({n}, own, b, r, v, 0);
    NeatBack(own, own, s4, b, r, v);
    NeatBack(own, own, s3, s4, r, v);
    NeatBack(own, Range(n + 1, n + 1 + |s.keys|), s2, s3, r, v);
  }

  lemma CasedBody(s: Stmt)
    requires s.Switch? && Cased(s)
    ensures Cased(s.body) && DistinctCases(s.body)
  {
  }

  lemma SwitchAgrees(st: ES, v: Env, s: Stmt, off: seq<int>, s0: ES, s2: ES, s3: ES, s4: ES, a: ES, s5: ES, b: ES,
                     r: ES)
    requires s.Switch? && SwitchStates(st, v, s, s0, s2, s3, s4, a, s5, b, r) && Agrees(off, r, |st.lab|)
    ensures GoodE(s0, v, s.c, off) && GoodS(a, v, s.body, LabelMap(s.keys, s.dflt, |st.lab| + 1), off)
    ensures OffOf(off, |st.lab|) == |s5.items| && !s0.fails && !st.fails && !s4.fails && !s5.fails
    ensures r.items == s5.items
    ensures Neat({|st.lab|}, b, r, v, 0) && |s0.lab| <= |s5.lab| && !s2.fails && !s3.fails
  {
    hide Neat, CaseSet, CasesPlaced, Here, Jump, EmitE, EmitChain, EmitS, Nest, LabelMap, IsPlaced, Cased, Agrees,
      OffOf, CasesIn,
      Injective;
    var n := |st.lab|;
    SwitchNeat(st, v, s, s0, s2, s3, s4, a, s5, b, r);
    AgreesPart(off, n, |s0.lab|, s2, r, Range(n, |s0.lab|), v, 0);
    AgreesPart(off, n, |a.lab|, b, r, {n}, v, 0);
    SameAgrees(off, s5, b, |a.lab|);
    PlaceAgrees(off, r, n, n);
    CasedBody(s);
    LabelMapInjective(s.keys, s.dflt, n + 1);
  }

  /** Every label of the switch is where its case is. */
  lemma SwitchTargets(st: ES, v: Env, s: Stmt, off: seq<int>, m: map<Key, int>, s5: ES, b: ES, r: ES, at: nat, k: Key)
    requires s.Switch? && !r.fails && Agrees(off, r, |st.lab|) && Neat({|st.lab|}, b, r, v, 0) && b.lab == s5.lab
    requires CasesAt(m, s.body, s5, at) && k in Cases(s.body) && k in m && m[k] > |st.lab|
    ensures OffOf(off, m[k]) == at + CaseOff(s.body, k)
  {
    hide Neat, OffOf, Cases, CaseOff, Agrees;
    KeptPlace({|st.lab|}, b, r, v, 0, m[k]);
    PlaceAgrees(off, r, |st.lab|, m[k]);
  }

  lemma SwitchWrites(st: ES, v: Env, s: Stmt, off: seq<int>, s0: ES, s2: ES, s3: ES, s4: ES, a: ES, s5: ES, b: ES,
                     r: ES)
    requires s.Switch? && SwitchStates(st, v, s, s0, s2, s3, s4, a, s5, b, r) && Agrees(off, r, |st.lab|)
    ensures Writes(st, r, off, GenS(s, |st.items|, LinksOf(v, off), ExitsOf(v, st, off)))
    decreases s, 0
  {
    hide Neat, Here, Jump, EmitE, EmitChain, EmitS, Nest, LabelMap, IsPlaced, Agrees, OffOf, CasesIn, Injective, GenE,
      GenS, Chain,
      Lay, LinksOf, CasesAt, CaseOff, SizeS, SizeE, Weight, Far, Cases;
    var n, at := |st.lab|, |st.items|;
    var m := LabelMap(s.keys, s.dflt, n + 1);
    var other := if s.dflt then n + 1 + |s.keys| else n;
    SwitchAgrees(st, v, s, off, s0, s2, s3, s4, a, s5, b, r);
    LaysE(s0, v, s.c, off);
    LaysS(a, v, s.body, m, off);
    SwitchKeys(st, v, s, off, m, s5, b, r, |a.items|);
    WritesChain(s2, v, s.keys, n + 1, off, s.body, |a.items|);
    WritesJump(s3, v, Always, other, off);
    JumpItems(s3, v, Always, other);
    SizeOfChain(s.keys, s.body, |a.items|, |s2.items|);
    SizeOfS(s.body, |a.items|, LinksOf(v, off), ExitsOf(v, a, off));
    var c1, c2, c4 := CodeSwitch(s, at, LinksOf(v, off), ExitsOf(v, st, off));
    var j := [Far(Always, OffOf(off, other), |s3.items|)];
    WritesFrom(st, s0, s2, off, c1);
    WritesThen(st, s2, s3, off, c1, c2);
    WritesThen(st, s3, s4, off, c1 + c2, j);
    WritesQuiet(st, s4, a, off, c1 + c2 + j);
    WritesThen(st, a, s5, off, c1 + c2 + j, c4);
    WritesQuiet(st, s5, r, off, c1 + c2 + j + c4);
  }

  lemma SwitchKeys(st: ES, v: Env, s: Stmt, off: seq<int>, m: map<Key, int>, s5: ES, b: ES, r: ES, at: nat)
    requires s.Switch? && Cased(s) && m == LabelMap(s.keys, s.dflt, |st.lab| + 1)
    requires !r.fails && Agrees(off, r, |st.lab|) && Neat({|st.lab|}, b, r, v, 0) && b.lab == s5.lab
    requires CasesAt(m, s.body, s5, at)
    ensures forall i :: 0 <= i < |s.keys| ==> OffOf(off, |st.lab| + 1 + i) == at + CaseOff(s.body, CaseOf(s.keys[i]))
    ensures s.dflt ==> OffOf(off, |st.lab| + 1 + |s.keys|) == at + CaseOff(s.body, Default)
  {
    hide Neat, OffOf, CaseOff, Agrees, LabelMap, CasesAt;
    var n := |st.lab|;
    LabelMapIn(s.keys, s.dflt, n + 1);
    forall i | 0 <= i < |s.keys|
      ensures OffOf(off, n + 1 + i) == at + CaseOff(s.body, CaseOf(s.keys[i]))
    {
      LabelMapAt(s.keys, s.dflt, n + 1, i);
      assert s.keys[i] in s.keys;
      SwitchTargets(st, v, s, off, m, s5, b, r, at, CaseOf(s.keys[i]));
    }
    if s.dflt {
      SwitchTargets(st, v, s, off, m, s5, b, r, at, Default);
    }
  }
}
