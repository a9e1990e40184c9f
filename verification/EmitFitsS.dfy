// The same for statements, functions and the unit: emission succeeds exactly when
// the trees are closed and everything they need fits.

module EmitFitsS {
  import opened Basics
  import opened Words
  import opened CTree
  import opened X64
  import opened Gen
  import opened SimOpen
  import opened SimSizes
  import opened SimBase
  import opened SimOpenS
  import opened Emit
  import opened EmitFits

  // ---- what a statement needs ------------------------------------------------------------

  function LabelsO(c: Option<Expr>): nat { if c.Some? then LabelsE(c.value) else 0 }

  function FixupsO(c: Option<Expr>): nat { if c.Some? then FixupsE(c.value) else 0 }

  predicate CallsO(c: Option<Expr>, n: nat) { c.Some? ==> CallsE(c.value, n) }

  function LabelsS(s: Stmt): nat {
    match s
    case Seq(a, b) => LabelsS(a) + LabelsS(b)
    case Eval(e) => LabelsE(e)
    case MemZero(_, n) => if n <= 64 then 0 else 1
    case Return(r) => LabelsO(r)
    case If(c, t, f) => 2 + LabelsE(c) + LabelsS(t) + (if f.Some? then LabelsS(f.value) else 0)
    case Loop(c, _, p, b) => 3 + LabelsO(c) + LabelsO(p) + LabelsS(b)
    case Case(_, b) => LabelsS(b)
    case Switch(c, keys, dflt, b) => 1 + |keys| + (if dflt then 1 else 0) + LabelsE(c) + LabelsS(b)
    case _ => 0
  }

  function FixupsS(s: Stmt): nat {
    match s
    case Seq(a, b) => FixupsS(a) + FixupsS(b)
    case Eval(e) => FixupsE(e)
    case MemZero(_, n) => if n <= 64 then 0 else 1
    case Return(r) => FixupsO(r) + 1
    case If(c, t, f) => 1 + FixupsE(c) + FixupsS(t) + (if f.Some? then 1 + FixupsS(f.value) else 0)
    case Loop(c, _, p, b) => 2 + (if c.Some? then FixupsE(c.value) + 1 else 0) + FixupsO(p) + FixupsS(b)
    case Break => 1
    case Continue => 1
    case Case(_, b) => FixupsS(b)
    case Switch(c, keys, _, b) => 1 + |keys| + FixupsE(c) + FixupsS(b)
    case Nop => 0
  }

  /** How deep loops and switches nest. */
  function BreakDepth(s: Stmt): nat {
    match s
    case Seq(a, b) => Most(BreakDepth(a), BreakDepth(b))
    case If(_, t, f) => Most(BreakDepth(t), if f.Some? then BreakDepth(f.value) else 0)
    case Loop(_, _, _, b) => 1 + BreakDepth(b)
    case Case(_, b) => BreakDepth(b)
    case Switch(_, _, _, b) => 1 + BreakDepth(b)
    case _ => 0
  }

  /** How deep loops alone nest. */
  function ContinueDepth(s: Stmt): nat {
    match s
    case Seq(a, b) => Most(ContinueDepth(a), ContinueDepth(b))
    case If(_, t, f) => Most(ContinueDepth(t), if f.Some? then ContinueDepth(f.value) else 0)
    case Loop(_, _, _, b) => 1 + ContinueDepth(b)
    case Case(_, b) => ContinueDepth(b)
    case Switch(_, _, _, b) => ContinueDepth(b)
    case _ => 0
  }

  function SwitchKeys(keys: seq<int>, dflt: bool): set<Key> {
    (set i | 0 <= i < |keys| :: CaseOf(keys[i])) + (if dflt then {Default} else {})
  }

  /** Every break, continue and case has something to belong to, and every call a
      function; `ks` are the cases of the switch around. */
  predicate Closed(s: Stmt, brk: bool, cont: bool, ks: set<Key>, n: nat) {
    match s
    case Nop => true
    case Seq(a, b) => Closed(a, brk, cont, ks, n) && Closed(b, brk, cont, ks, n)
    case Eval(e) => CallsE(e, n)
    case MemZero(_, _) => true
    case Return(r) => CallsO(r, n)
    case If(c, t, f) =>
      CallsE(c, n) && Closed(t, brk, cont, ks, n) && (f.Some? ==> Closed(f.value, brk, cont, ks, n))
    case Loop(c, _, p, b) => CallsO(c, n) && CallsO(p, n) && Closed(b, true, true, ks, n)
    case Break => brk
    case Continue => cont
    case Case(k, b) => k in ks && Closed(b, brk, cont, ks, n)
    case Switch(c, keys, dflt, b) => CallsE(c, n) && Closed(b, true, cont, SwitchKeys(keys, dflt), n)
  }

  function CostO(c: Option<Expr>, n: nat): Cost { Cost(SizeO(c), LabelsO(c), FixupsO(c), 0, CallsO(c, n)) }

  function CostTest(c: Option<Expr>, when: bool, n: nat): Cost {
    if when && c.Some? then Plus(CostE(c.value, 0, n), Cost(2, 0, 1, 0, true)) else NOTHING
  }

  /** `nb` and `nc` are the loops and switches around. */
  function CostS(s: Stmt, ks: set<Key>, nb: nat, nc: nat, n: nat): Cost {
    Cost(SizeS(s), LabelsS(s), FixupsS(s), 0,
      && Closed(s, nb > 0, nc > 0, ks, n)
      && nb + BreakDepth(s) <= MAX_NEST && nc + ContinueDepth(s) <= MAX_NEST)
  }

  predicate Nested(st: ES, nb: nat, nc: nat) { !st.fails ==> |st.brk| == nb <= MAX_NEST && |st.cont| == nc <= MAX_NEST }

  // ---- pieces -------------------------------------------------------------------------------

  lemma Stays(a: ES, b: ES, v: Env, c: Cost, nb: nat, nc: nat)
    requires Uses(a, b, v, c) && c.d == 0 && Standing(a, 0) && Nested(a, nb, nc)
    ensures Standing(b, 0) && Nested(b, nb, nc)
  {
  }

  lemma UseO(st: ES, v: Env, c: Option<Expr>)
    requires Standing(st, 0)
    ensures Uses(st, EmitO(st, v, c), v, CostO(c, |v.fn|))
  {
    hide Uses, EmitE, SizeE, Standing;
    UseNothing(st, v);
    if c.Some? {
      UseE(st, v, c.value, 0);
    }
  }

  lemma UseTest(st: ES, v: Env, c: Option<Expr>, when: bool, lend: int)
    requires Standing(st, 0)
    ensures Uses(st, EmitTest(st, v, c, when, lend), v, CostTest(c, when, |v.fn|))
  {
    hide Uses, EmitE, CostE, Put1, Jump, Standing;
    UseNothing(st, v);
    if when && c.Some? {
      UseE(st, v, c.value, 0);
      ThenTest(st, EmitE(st, v, c.value), v, CostE(c.value, 0, |v.fn|), TestRax, Z, lend);
    }
  }

  function ZeroCost(size: nat): Cost {
    var loop := if size <= 64 then 0 else 1;
    Cost(|ZeroCode(size)|, loop, loop, 0, true)
  }

  lemma UseZero(st: ES, v: Env, size: nat)
    ensures Uses(st, EmitZero(st, v, size), v, ZeroCost(size))
  {
    hide Uses, Put1, Puts, Jump, Here, NewLabel, ZeroChunks, Enc;
    if size <= 64 {
      UsePuts(st, v, ZeroChunks(0, size));
    } else {
      UseZeroLoop(st, v, size);
      assert ZeroCost(size) == Cost(5, 1, 1, 0, true);
    }
  }

  lemma UseZeroLoop(st: ES, v: Env, size: nat)
    ensures var s1 := Here(Put1(NewLabel(st), v, MovRcxImm(Enc(size))), |st.lab|);
            Uses(st, Jump(Puts(s1, v, [ZeroAt(0, 1), IncRax, DecRcx]), v, NZ, |st.lab|), v, Cost(5, 1, 1, 0, true))
  {
    hide Uses, Put1, Puts, Jump, Here, NewLabel, Enc, Plus;
    var top, s0, i, c := |st.lab|, NewLabel(st), MovRcxImm(Enc(size)), [ZeroAt(0, 1), IncRax, DecRcx];
    UseNew(st, v);
    var x1, x2, x3, x4 := LABEL, Plus(LABEL, ITEM), Plus(Plus(LABEL, ITEM), Items(|c|)), Cost(5, 1, 1, 0, true);
    ThenPut(st, s0, v, x1, i);
    ThenHere(st, Put1(s0, v, i), v, x2, top);
    var s1 := Here(Put1(s0, v, i), top);
    ThenPuts(st, s1, v, x2, c);
    ThenJump(st, Puts(s1, v, c), v, x3, NZ, top);
    PlusIs(LABEL, ITEM);
    PlusIs(x2, Items(|c|));
    PlusIs(x3, JUMP);
    assert Plus(x3, JUMP) == x4;
  }

  lemma {:induction false} UseCases(st: ES, v: Env, keys: seq<int>)
    ensures Uses(st, CaseLabels(st, keys), v, Cost(0, |keys|, 0, 0, true))
    decreases |keys|
  {
    hide Uses, NewLabel;
    if keys == [] {
      UseNothing(st, v);
    } else {
      UseNew(st, v);
      UseCases(NewLabel(st), v, keys[1..]);
      Then(st, NewLabel(st), CaseLabels(st, keys), v, LABEL, Cost(0, |keys| - 1, 0, 0, true));
    }
  }

  lemma {:induction false} UseChain(st: ES, v: Env, keys: seq<int>, first: int)
    ensures Uses(st, EmitChain(st, v, keys, first), v, Cost(3 * |keys|, 0, |keys|, 0, true))
    decreases |keys|
  {
    hide Uses, Puts, Jump, Enc;
    if keys == [] {
      UseNothing(st, v);
    } else {
      var c := [MovR11Imm(Enc(keys[0])), CmpRaxR11];
      UsePuts(st, v, c);
      ThenJump(st, Puts(st, v, c), v, Items(2), Z, first);
      var s1 := Jump(Puts(st, v, c), v, Z, first);
      UseChain(s1, v, keys[1..], first + 1);
      Then(st, s1, EmitChain(st, v, keys, first), v, Plus(Items(2), JUMP),
        Cost(3 * (|keys| - 1), 0, |keys| - 1, 0, true));
    }
  }

  lemma {:induction false} LabelKeys(keys: seq<int>, dflt: bool, first: int)
    ensures LabelMap(keys, dflt, first).Keys == SwitchKeys(keys, dflt)
    decreases |keys|
  {
    if keys != [] {
      LabelKeys(keys[1..], dflt, first + 1);
      forall k | k in SwitchKeys(keys, dflt)
        ensures k in SwitchKeys(keys[1..], dflt) + {CaseOf(keys[0])}
      {
        if k.CaseOf? {
          var i :| 0 <= i < |keys| && k == CaseOf(keys[i]);
          assert i > 0 ==> k == CaseOf(keys[1..][i - 1]);
        }
      }
      forall k | k in SwitchKeys(keys[1..], dflt)
        ensures k in SwitchKeys(keys, dflt)
      {
        if k.CaseOf? {
          var i :| 0 <= i < |keys[1..]| && k == CaseOf(keys[1..][i]);
          assert k == CaseOf(keys[i + 1]);
        }
      }
      assert CaseOf(keys[0]) in SwitchKeys(keys, dflt);
    }
  }

  /** A stretch inside new exits, which are taken off again after it. */
  lemma UseInside(st: ES, s3: ES, s9: ES, v: Env, brk: seq<int>, cont: seq<int>, x: Cost, y: Cost)
    requires Uses(st, s3, v, x) && Uses(Nest(s3, brk, cont), s9, v, y) && |brk| <= MAX_NEST && |cont| <= MAX_NEST
    ensures Uses(st, Nest(s9, st.brk, st.cont), v, Plus(x, y))
  {
  }

  // ---- statements -------------------------------------------------------------------------------

  lemma {:induction false} UseS(st: ES, v: Env, s: Stmt, cs: map<Key, int>, nb: nat, nc: nat)
    requires Standing(st, 0) && Nested(st, nb, nc)
    ensures Uses(st, EmitS(st, v, s, cs), v, CostS(s, cs.Keys, nb, nc, |v.fn|))
    decreases s, 2
  {
    hide Uses, EmitE, EmitO, EmitZero, Put1, Jump, Here, SizeE, SizeO, ZeroCode, LabelsE, FixupsE, CallsE;
    if st.fails {
      UseFailed(st, v, CostS(s, cs.Keys, nb, nc, |v.fn|));
      return;
    }
    var n := |v.fn|;
    match s
    case Nop => UseNothing(st, v);
    case Seq(_, _) => UseSeq(st, v, s, cs, nb, nc);
    case Eval(e) => UseE(st, v, e, 0);
    case MemZero(off, size) =>
      UsePut(st, v, LeaRaxRbp(off));
      UseZero(Put1(st, v, LeaRaxRbp(off)), v, size);
      Then(st, Put1(st, v, LeaRaxRbp(off)), EmitS(st, v, s, cs), v, ITEM, ZeroCost(size));
    case Return(r) =>
      UseO(st, v, r);
      ThenJump(st, EmitO(st, v, r), v, CostO(r, n), Always, v.epi);
    case If(_, _, _) => UseIf(st, v, s, cs, nb, nc);
    case Loop(_, _, _, _) => UseLoop(st, v, s, cs, nb, nc);
    case Break =>
      if nb > 0 {
        UseJump(st, v, Always, Last(st.brk));
      } else {
        Refused(st, v, CostS(s, cs.Keys, nb, nc, n));
      }
    case Continue =>
      if nc > 0 {
        UseJump(st, v, Always, Last(st.cont));
      } else {
        Refused(st, v, CostS(s, cs.Keys, nb, nc, n));
      }
    case Case(k, b) =>
      if k in cs {
        UseHere(st, v, cs[k]);
        Stays(st, Here(st, cs[k]), v, NOTHING, nb, nc);
        UseS(Here(st, cs[k]), v, b, cs, nb, nc);
        Then(st, Here(st, cs[k]), EmitS(st, v, s, cs), v, NOTHING, CostS(b, cs.Keys, nb, nc, n));
      } else {
        Refused(st, v, CostS(s, cs.Keys, nb, nc, n));
      }
    case Switch(_, _, _, _) => UseSwitch(st, v, s, cs, nb, nc);
  }

  lemma Refused(st: ES, v: Env, c: Cost)
    requires !c.ok
    ensures Uses(st, Fail(st), v, c)
  {
  }

  lemma CostSeq(s: Stmt, ks: set<Key>, nb: nat, nc: nat, n: nat)
    requires s.Seq?
    ensures CostS(s, ks, nb, nc, n) == Plus(CostS(s.s1, ks, nb, nc, n), CostS(s.s2, ks, nb, nc, n))
  {
    hide Plus;
    PlusIs(CostS(s.s1, ks, nb, nc, n), CostS(s.s2, ks, nb, nc, n));
  }

  lemma UseSeq(st: ES, v: Env, s: Stmt, cs: map<Key, int>, nb: nat, nc: nat)
    requires !st.fails && s.Seq? && Standing(st, 0) && Nested(st, nb, nc)
    ensures Uses(st, EmitS(st, v, s, cs), v, CostS(s, cs.Keys, nb, nc, |v.fn|))
    decreases s, 0
  {
    hide Uses, CostS, Standing, Nested, Plus;
    var n := |v.fn|;
    var s1 := EmitS(st, v, s.s1, cs);
    UseS(st, v, s.s1, cs, nb, nc);
    LevelStmtCost(s.s1, cs.Keys, nb, nc, n);
    Stays(st, s1, v, CostS(s.s1, cs.Keys, nb, nc, n), nb, nc);
    UseS(s1, v, s.s2, cs, nb, nc);
    Then(st, s1, EmitS(st, v, s, cs), v, CostS(s.s1, cs.Keys, nb, nc, n), CostS(s.s2, cs.Keys, nb, nc, n));
    CostSeq(s, cs.Keys, nb, nc, n);
  }

  lemma UseIf(st: ES, v: Env, s: Stmt, cs: map<Key, int>, nb: nat, nc: nat)
    requires !st.fails && s.If? && Standing(st, 0) && Nested(st, nb, nc)
    ensures Uses(st, EmitS(st, v, s, cs), v, CostS(s, cs.Keys, nb, nc, |v.fn|))
    decreases s, 0
  {
    hide Uses, Put1, Jump, Here, NewLabel, EmitE, EmitS, CostS, CostE, Standing, Nested;
    OpenIf(st, v, s, cs);
    NestBound(st, nb, nc);
    var n, lelse, lend, s0 := |v.fn|, |st.lab|, |st.lab| + 1, NewLabel(NewLabel(st));
    var x0 := Cost(0, 2, 0, 0, true);
    UseTwoNew(st, v);
    Stays(st, s0, v, x0, nb, nc);
    var s1 := EmitE(s0, v, s.c);
    UseE(s0, v, s.c, 0);
    LevelCost(s.c, 0, n);
    var x1 := Plus(x0, CostE(s.c, 0, n));
    Then(st, s0, s1, v, x0, CostE(s.c, 0, n));
    var to := if s.f.Some? then lelse else lend;
    ThenTest(st, s1, v, x1, TestRax, Z, to);
    var t1 := Jump(Put1(s1, v, TestRax), v, Z, to);
    var x2 := Plus(x1, Cost(2, 0, 1, 0, true));
    Stays(st, t1, v, x2, nb, nc);
    var s2 := EmitS(t1, v, s.t, cs);
    UseS(t1, v, s.t, cs, nb, nc);
    LevelStmtCost(s.t, cs.Keys, nb, nc, n);
    var x3 := Plus(x2, CostS(s.t, cs.Keys, nb, nc, n));
    Then(st, t1, s2, v, x2, CostS(s.t, cs.Keys, nb, nc, n));
    CostIf(s, cs.Keys, nb, nc, n);
    if s.f.None? {
      ThenHere(st, s2, v, x3, lend);
    } else {
      ThenJump(st, s2, v, x3, Always, lend);
      ThenHere(st, Jump(s2, v, Always, lend), v, Plus(x3, JUMP), lelse);
      var t2 := Here(Jump(s2, v, Always, lend), lelse);
      Stays(st, t2, v, Plus(x3, JUMP), nb, nc);
      var s3 := EmitS(t2, v, s.f.value, cs);
      UseS(t2, v, s.f.value, cs, nb, nc);
      Then(st, t2, s3, v, Plus(x3, JUMP), CostS(s.f.value, cs.Keys, nb, nc, n));
      ThenHere(st, s3, v, Plus(Plus(x3, JUMP), CostS(s.f.value, cs.Keys, nb, nc, n)), lend);
    }
  }

  lemma NestBound(st: ES, nb: nat, nc: nat)
    requires !st.fails && Nested(st, nb, nc)
    ensures |st.brk| == nb <= MAX_NEST && |st.cont| == nc <= MAX_NEST
  {
  }

  lemma LevelStmtCost(s: Stmt, ks: set<Key>, nb: nat, nc: nat, n: nat)
    ensures CostS(s, ks, nb, nc, n).d == 0
  {
  }

  lemma OpenIf(st: ES, v: Env, s: Stmt, cs: map<Key, int>)
    requires !st.fails && s.If?
    ensures var lelse, lend := |st.lab|, |st.lab| + 1;
            var s1 := EmitE(NewLabel(NewLabel(st)), v, s.c);
            var s2 := EmitS(Jump(Put1(s1, v, TestRax), v, Z, if s.f.Some? then lelse else lend), v, s.t, cs);
            EmitS(st, v, s, cs)
            == if s.f.None? then Here(s2, lend)
               else Here(EmitS(Here(Jump(s2, v, Always, lend), lelse), v, s.f.value, cs), lend)
  {
    hide Put1, Jump, Here, NewLabel, EmitE;
  }

  lemma CostIf(s: Stmt, ks: set<Key>, nb: nat, nc: nat, n: nat)
    requires s.If? && nb <= MAX_NEST && nc <= MAX_NEST
    ensures var x := Plus(Plus(CostE(s.c, 0, n), CostS(s.t, ks, nb, nc, n)), Cost(2, 2, 1, 0, true));
            CostS(s, ks, nb, nc, n)
            == if s.f.None? then x else Plus(Plus(x, JUMP), CostS(s.f.value, ks, nb, nc, n))
  {
    hide SizeE, LabelsE, FixupsE, CallsE;
  }

  lemma OpenLoop(st: ES, v: Env, s: Stmt, cs: map<Key, int>)
    requires !st.fails && s.Loop?
    ensures |st.brk| >= MAX_NEST || |st.cont| >= MAX_NEST ==> EmitS(st, v, s, cs) == Fail(st)
    ensures |st.brk| < MAX_NEST && |st.cont| < MAX_NEST ==>
              var top := |st.lab|;
              var a := Nest(NewLabel(NewLabel(NewLabel(st))), st.brk + [top + 2], st.cont + [top + 1]);
              var s2 := Here(EmitS(EmitTest(Here(a, top), v, s.cond, s.testFirst, top + 2), v, s.body, cs), top + 1);
              var s3 := EmitTest(EmitO(s2, v, s.post), v, s.cond, !s.testFirst, top + 2);
              EmitS(st, v, s, cs) == Nest(Here(Jump(FuelCheck(s3, v), v, Always, top), top + 2), st.brk, st.cont)
  {
    hide NewLabel, Nest, Here, EmitTest, EmitO, Jump, FuelCheck;
  }

  lemma UseLoop(st: ES, v: Env, s: Stmt, cs: map<Key, int>, nb: nat, nc: nat)
    requires !st.fails && s.Loop? && Standing(st, 0) && Nested(st, nb, nc)
    ensures Uses(st, EmitS(st, v, s, cs), v, CostS(s, cs.Keys, nb, nc, |v.fn|))
    decreases s, 1
  {
    hide Uses, NewLabel, CostS, Here, EmitTest, EmitO, Jump, FuelCheck, EmitS, LoopCost, Standing, Nested, Nest;
    OpenLoop(st, v, s, cs);
    NestBound(st, nb, nc);
    CostLoop(s, cs.Keys, nb, nc, |v.fn|);
    if nb >= MAX_NEST || nc >= MAX_NEST {
      Refused(st, v, CostS(s, cs.Keys, nb, nc, |v.fn|));
    } else {
      var x0 := Cost(0, 3, 0, 0, true);
      UseTwoNew(st, v);
      ThenNew(st, NewLabel(NewLabel(st)), v, Cost(0, 2, 0, 0, true));
      var n3 := NewLabel(NewLabel(NewLabel(st)));
      Stays(st, n3, v, x0, nb, nc);
      var lend, lcont := |st.lab| + 2, |st.lab| + 1;
      var a := Nest(n3, st.brk + [lend], st.cont + [lcont]);
      NestedMore(n3, st.brk + [lend], st.cont + [lcont], nb + 1, nc + 1);
      var b := UseLoopSteps(a, v, s, cs, |st.lab|, nb + 1, nc + 1);
      UseInside(st, n3, b, v, st.brk + [lend], st.cont + [lcont], x0, LoopCost(s, cs.Keys, nb + 1, nc + 1, |v.fn|));
    }
  }

  lemma NestedMore(st: ES, brk: seq<int>, cont: seq<int>, nb: nat, nc: nat)
    requires Standing(st, 0) && |brk| == nb <= MAX_NEST && |cont| == nc <= MAX_NEST
    ensures Standing(Nest(st, brk, cont), 0) && Nested(Nest(st, brk, cont), nb, nc)
  {
  }

  /** A loop from its top label to its end. */
  function LoopCost(s: Stmt, ks: set<Key>, nb: nat, nc: nat, n: nat): Cost
    requires s.Loop?
  {
    var x1 := Plus(CostTest(s.cond, s.testFirst, n), CostS(s.body, ks, nb, nc, n));
    Plus(Plus(x1, Plus(CostO(s.post, n), CostTest(s.cond, !s.testFirst, n))), Cost(3, 0, 2, 0, true))
  }

  lemma BothTests(c: Option<Expr>, first: bool, n: nat)
    ensures Plus(CostTest(c, first, n), CostTest(c, !first, n))
            == Cost(SizeTest(c, first) + SizeTest(c, !first), LabelsO(c), if c.Some? then FixupsE(c.value) + 1 else 0,
              0, CallsO(c, n))
  {
    hide SizeE, LabelsE, FixupsE, CallsE, Plus;
    PlusIs(CostTest(c, first, n), CostTest(c, !first, n));
    if c.Some? {
      PlusIs(CostE(c.value, 0, n), Cost(2, 0, 1, 0, true));
    }
  }

  lemma CostLoop(s: Stmt, ks: set<Key>, nb: nat, nc: nat, n: nat)
    requires s.Loop?
    ensures nb < MAX_NEST && nc < MAX_NEST ==>
              CostS(s, ks, nb, nc, n) == Plus(Cost(0, 3, 0, 0, true), LoopCost(s, ks, nb + 1, nc + 1, n))
    ensures nb >= MAX_NEST || nc >= MAX_NEST ==> !CostS(s, ks, nb, nc, n).ok
  {
    hide SizeTest, SizeO, LabelsO, CallsO, FixupsO, CostTest;
    BothTests(s.cond, s.testFirst, n);
  }

  lemma UseLoopSteps(a: ES, v: Env, s: Stmt, cs: map<Key, int>, top: int, nb: nat, nc: nat) returns (b: ES)
    requires s.Loop? && Standing(a, 0) && Nested(a, nb, nc)
    ensures var s1 := Here(a, top);
            var s2 := Here(EmitS(EmitTest(s1, v, s.cond, s.testFirst, top + 2), v, s.body, cs), top + 1);
            var s3 := EmitTest(EmitO(s2, v, s.post), v, s.cond, !s.testFirst, top + 2);
            b == Here(Jump(FuelCheck(s3, v), v, Always, top), top + 2)
    ensures Uses(a, b, v, LoopCost(s, cs.Keys, nb, nc, |v.fn|))
    decreases s, 0
  {
    hide Uses, Here, EmitTest, EmitO, EmitS, Jump, FuelCheck, CostS, CostTest, CostO, Standing, Nested;
    var n, s1 := |v.fn|, Here(a, top);
    UseHere(a, v, top);
    Stays(a, s1, v, NOTHING, nb, nc);
    var t1 := EmitTest(s1, v, s.cond, s.testFirst, top + 2);
    UseTest(s1, v, s.cond, s.testFirst, top + 2);
    LevelPieces(s.cond, s.testFirst, s.post, n);
    var y1 := CostTest(s.cond, s.testFirst, n);
    Then(a, s1, t1, v, NOTHING, y1);
    assert Plus(NOTHING, y1) == y1;
    Stays(a, t1, v, y1, nb, nc);
    var t2 := EmitS(t1, v, s.body, cs);
    UseS(t1, v, s.body, cs, nb, nc);
    LevelStmtCost(s.body, cs.Keys, nb, nc, n);
    var y2 := Plus(y1, CostS(s.body, cs.Keys, nb, nc, n));
    Then(a, t1, t2, v, y1, CostS(s.body, cs.Keys, nb, nc, n));
    ThenHere(a, t2, v, y2, top + 1);
    var s2 := Here(t2, top + 1);
    Stays(a, s2, v, y2, nb, nc);
    b := UseLoopEnd(a, s2, v, s, top, y2, nb, nc);
  }

  lemma UseLoopEnd(a: ES, s2: ES, v: Env, s: Stmt, top: int, y2: Cost, nb: nat, nc: nat) returns (b: ES)
    requires s.Loop? && Standing(s2, 0) && Nested(s2, nb, nc) && Uses(a, s2, v, y2)
    ensures var s3 := EmitTest(EmitO(s2, v, s.post), v, s.cond, !s.testFirst, top + 2);
            b == Here(Jump(FuelCheck(s3, v), v, Always, top), top + 2)
    ensures Uses(a, b, v, Plus(Plus(y2, Plus(CostO(s.post, |v.fn|), CostTest(s.cond, !s.testFirst, |v.fn|))),
            Cost(3, 0, 2, 0, true)))
  {
    hide Uses, Here, EmitTest, EmitO, Jump, FuelCheck, CostTest, CostO, Standing, Nested;
    var n := |v.fn|;
    var o := EmitO(s2, v, s.post);
    UseO(s2, v, s.post);
    LevelPieces(s.cond, !s.testFirst, s.post, n);
    Stays(s2, o, v, CostO(s.post, n), nb, nc);
    var s3 := EmitTest(o, v, s.cond, !s.testFirst, top + 2);
    UseTest(o, v, s.cond, !s.testFirst, top + 2);
    var y3 := Plus(CostO(s.post, n), CostTest(s.cond, !s.testFirst, n));
    Then(s2, o, s3, v, CostO(s.post, n), CostTest(s.cond, !s.testFirst, n));
    Then(a, s2, s3, v, y2, y3);
    UseFuel(s3, v);
    Then(a, s3, FuelCheck(s3, v), v, Plus(y2, y3), Cost(2, 0, 1, 0, true));
    var y4 := Plus(Plus(y2, y3), Cost(2, 0, 1, 0, true));
    ThenJump(a, FuelCheck(s3, v), v, y4, Always, top);
    b := Here(Jump(FuelCheck(s3, v), v, Always, top), top + 2);
    ThenHere(a, Jump(FuelCheck(s3, v), v, Always, top), v, Plus(y4, JUMP), top + 2);
    assert Plus(y4, JUMP) == Plus(Plus(y2, y3), Cost(3, 0, 2, 0, true));
  }

  lemma LevelPieces(c: Option<Expr>, when: bool, p: Option<Expr>, n: nat)
    ensures CostTest(c, when, n).d == 0 && CostO(p, n).d == 0
  {
  }

  lemma UseSwitch(st: ES, v: Env, s: Stmt, cs: map<Key, int>, nb: nat, nc: nat)
    requires !st.fails && s.Switch? && Standing(st, 0) && Nested(st, nb, nc)
    ensures Uses(st, EmitS(st, v, s, cs), v, CostS(s, cs.Keys, nb, nc, |v.fn|))
    decreases s, 0
  {
    hide Uses, NewLabel, CaseLabels, CostS, Here, EmitE, EmitChain, Jump, LabelMap;
    var n := |v.fn|;
    CostSwitch(s, cs.Keys, nb, nc, n);
    if nb >= MAX_NEST {
      Refused(st, v, CostS(s, cs.Keys, nb, nc, n));
    } else {
      var lend := |st.lab|;
      var s4 := UseSwitchHead(st, v, s, nb, nc);
      var x4 := SwitchHeadCost(s, n);
      Stays(st, s4, v, x4, nb, nc);
      var ls := LabelMap(s.keys, s.dflt, lend + 1);
      LabelKeys(s.keys, s.dflt, lend + 1);
      var a := Nest(s4, st.brk + [lend], st.cont);
      NestedMore(s4, st.brk + [lend], st.cont, nb + 1, nc);
      var s5 := EmitS(a, v, s.body, ls);
      UseS(a, v, s.body, ls, nb + 1, nc);
      var y := CostS(s.body, SwitchKeys(s.keys, s.dflt), nb + 1, nc, n);
      UseInside(st, s4, s5, v, st.brk + [lend], st.cont, x4, y);
      ThenHere(st, Nest(s5, st.brk, st.cont), v, Plus(x4, y), lend);
    }
  }

  function SwitchHeadCost(s: Stmt, n: nat): Cost
    requires s.Switch?
  {
    Plus(Cost(3 * |s.keys| + 1, 1 + |s.keys| + (if s.dflt then 1 else 0), |s.keys| + 1, 0, true), CostE(s.c, 0, n))
  }

  lemma CostSwitch(s: Stmt, ks: set<Key>, nb: nat, nc: nat, n: nat)
    requires s.Switch? && nc <= MAX_NEST
    ensures nb < MAX_NEST ==>
              CostS(s, ks, nb, nc, n) == Plus(SwitchHeadCost(s, n), CostS(s.body, SwitchKeys(s.keys, s.dflt), nb + 1,
                nc, n))
    ensures nb >= MAX_NEST ==> !CostS(s, ks, nb, nc, n).ok
  {
    hide SizeE, LabelsE, FixupsE, CallsE, SwitchKeys;
  }

  lemma UseSwitchHead(st: ES, v: Env, s: Stmt, nb: nat, nc: nat) returns (s4: ES)
    requires !st.fails && s.Switch? && Standing(st, 0) && Nested(st, nb, nc)
    ensures var lend := |st.lab|;
            var s1 := CaseLabels(NewLabel(st), s.keys);
            var s3 := EmitChain(EmitE(if s.dflt then NewLabel(s1) else s1, v, s.c), v, s.keys, lend + 1);
            s4 == Jump(s3, v, Always, if s.dflt then lend + 1 + |s.keys| else lend)
    ensures Uses(st, s4, v, SwitchHeadCost(s, |v.fn|))
  {
    hide Uses, NewLabel, CaseLabels, EmitE, EmitChain, Jump, CostE, Standing, Nested;
    var n, lend := |v.fn|, |st.lab|;
    UseNew(st, v);
    var s1 := CaseLabels(NewLabel(st), s.keys);
    UseCases(NewLabel(st), v, s.keys);
    var x1 := Plus(LABEL, Cost(0, |s.keys|, 0, 0, true));
    Then(st, NewLabel(st), s1, v, LABEL, Cost(0, |s.keys|, 0, 0, true));
    var t1 := if s.dflt then NewLabel(s1) else s1;
    var p := if s.dflt then LABEL else NOTHING;
    UseNew(s1, v);
    UseNothing(s1, v);
    Then(st, s1, t1, v, x1, p);
    var x2 := Plus(x1, p);
    Stays(st, t1, v, x2, nb, nc);
    var s2 := EmitE(t1, v, s.c);
    UseE(t1, v, s.c, 0);
    Then(st, t1, s2, v, x2, CostE(s.c, 0, n));
    var x3 := Plus(x2, CostE(s.c, 0, n));
    var s3 := EmitChain(s2, v, s.keys, lend + 1);
    UseChain(s2, v, s.keys, lend + 1);
    var ch := Cost(3 * |s.keys|, 0, |s.keys|, 0, true);
    Then(st, s2, s3, v, x3, ch);
    var to := if s.dflt then lend + 1 + |s.keys| else lend;
    s4 := Jump(s3, v, Always, to);
    ThenJump(st, s3, v, Plus(x3, ch), Always, to);
    assert Plus(Plus(x3, ch), JUMP) == SwitchHeadCost(s, n);
  }

  // ---- functions -------------------------------------------------------------------------------

  /** Like Uses, for steps between functions, where depth and exits start anew. */
  predicate Spends(a: ES, b: ES, v: Env, c: Cost) {
    Within(a, v) ==>
      && (!b.fails <==> !a.fails && c.ok && Room(a, v, c))
      && (!b.fails ==>
           |b.items| == |a.items| + c.n && |b.lab| == |a.lab| + c.l && b.nfix == a.nfix + c.f && Within(b, v))
  }

  lemma UsesSpends(a: ES, b: ES, v: Env, c: Cost)
    requires Uses(a, b, v, c)
    ensures Spends(a, b, v, c)
  {
  }

  lemma SpendThen(a: ES, b: ES, c: ES, v: Env, x: Cost, y: Cost)
    requires Spends(a, b, v, x) && Spends(b, c, v, y) && (b.fails ==> c.fails)
    ensures Spends(a, c, v, Plus(x, y))
  {
  }

  lemma {:induction false} UseParams(st: ES, v: Env, ps: seq<Param>, i: nat)
    ensures Uses(st, EmitParams(st, v, ps, i), v, Items(3 * |ps|))
    decreases |ps|
  {
    hide Uses, Puts;
    if ps == [] {
      UseNothing(st, v);
    } else {
      var c := [MovRaxArg(ArgReg(i)), LeaRdiRbp(ps[0].off), StoreRdi(ps[0].w)];
      UsePuts(st, v, c);
      UseParams(Puts(st, v, c), v, ps[1..], i + 1);
      Then(st, Puts(st, v, c), EmitParams(st, v, ps, i), v, Items(3), Items(3 * (|ps| - 1)));
    }
  }

  lemma {:induction false} LenParams(ps: seq<Param>, i: nat)
    ensures |ParamCode(ps, i)| == 3 * |ps|
    decreases |ps|
  {
    if ps != [] {
      LenParams(ps[1..], i + 1);
    }
  }

  lemma LenHead(f: Func, at: int, k: Links)
    ensures |Prologue(f, at, k)| == 6 + (if f.frame > 0 then 1 else 0) + 3 * |f.params|
  {
    hide ParamCode;
    LenParams(f.params, 0);
  }

  function HeadCost(f: Func): Cost {
    Cost(6 + (if f.frame > 0 then 1 else 0) + 3 * |f.params|, 0, 2, 0, true)
  }

  lemma UsePrologue(st: ES, v: Env, f: Func)
    ensures Uses(st, EmitPrologue(st, v, f), v, HeadCost(f))
  {
    hide Uses, Puts, Put1, FuelCheck, Jump, EmitParams, Plus;
    var s1, pad, test := Puts(st, v, [PushRbp, MovRbpRsp]), f.frame > 0, Cost(2, 0, 1, 0, true);
    UsePuts(st, v, [PushRbp, MovRbpRsp]);
    ThenPad(st, s1, v, Items(2), pad, SubRsp(f.frame));
    var s2 := if pad then Put1(s1, v, SubRsp(f.frame)) else s1;
    var x1 := Plus(Items(2), PadCost(pad));
    UseFuel(s2, v);
    Then(st, s2, FuelCheck(s2, v), v, x1, test);
    var x2 := Plus(x1, test);
    ThenTest(st, FuelCheck(s2, v), v, x2, CmpRspLimit, B, v.stack);
    var s3 := Jump(Put1(FuelCheck(s2, v), v, CmpRspLimit), v, B, v.stack);
    var x3 := Plus(x2, test);
    UseParams(s3, v, f.params, 0);
    Then(st, s3, EmitParams(s3, v, f.params, 0), v, x3, Items(3 * |f.params|));
    PlusIs(Items(2), PadCost(pad));
    PlusIs(x1, test);
    PlusIs(x2, test);
    PlusIs(x3, Items(3 * |f.params|));
  }

  /** A function's needs: its epilogue label, two jumps of its own, and its body's. */
  function FuncCost(f: Func, n: nat): Cost {
    Cost(SizeF(f), 1 + LabelsS(f.body), 2 + FixupsS(f.body), 0, CostS(f.body, {}, 0, 0, n).ok)
  }

  lemma FreshSpends(st: ES, v: Env, entry: int)
    ensures var s0 := NewLabel(Fresh(Here(st, entry)));
            Spends(st, s0, v, LABEL) && Standing(s0, 0) && Nested(s0, 0, 0)
  {
  }

  lemma SpendF(st: ES, v: Env, f: Func, entry: int)
    ensures Spends(st, EmitF(st, v, f, entry), v, FuncCost(f, |v.fn|))
  {
    hide Spends, Uses, Here, NewLabel, Fresh, EmitPrologue, EmitS, Put1, Puts, CostS, Plus, SizeS, LabelsS, FixupsS;
    var w, n := v.(epi := |st.lab|), |v.fn|;
    var s0 := NewLabel(Fresh(Here(st, entry)));
    FreshSpends(st, w, entry);
    var s1 := EmitPrologue(s0, w, f);
    UsePrologue(s0, w, f);
    Stays(s0, s1, w, HeadCost(f), 0, 0);
    var none: map<Key, int> := map[];
    assert none.Keys == {};
    var s2 := EmitS(s1, w, f.body, none);
    UseS(s1, w, f.body, none, 0, 0);
    var b := CostS(f.body, {}, 0, 0, n);
    Then(s0, s1, s2, w, HeadCost(f), b);
    var x1 := Plus(HeadCost(f), b);
    ThenPut(s0, s2, w, x1, XorEax);
    ThenHere(s0, Put1(s2, w, XorEax), w, Plus(x1, ITEM), w.epi);
    var fin := [MovRspRbp, PopRbp, Ret];
    ThenPuts(s0, Here(Put1(s2, w, XorEax), w.epi), w, Plus(x1, ITEM), fin);
    var x2 := Plus(Plus(x1, ITEM), Items(|fin|));
    var r := EmitF(st, v, f, entry);
    UsesSpends(s0, r, w, x2);
    SpendThen(st, s0, r, w, LABEL, x2);
    LenHead(f, 0, Links(0, 0, []));
    PlusIs(HeadCost(f), b);
    PlusIs(x1, ITEM);
    PlusIs(Plus(x1, ITEM), Items(|fin|));
    PlusIs(LABEL, x2);
    BodyCost(f, n);
    OtherEpi(st, r, v, w, FuncCost(f, n));
  }

  lemma BodyCost(f: Func, n: nat)
    ensures var b := CostS(f.body, {}, 0, 0, n);
            b.n == SizeS(f.body) && b.l == LabelsS(f.body) && b.f == FixupsS(f.body) && b.d == 0
  {
    hide SizeS, LabelsS, FixupsS, Closed;
  }

  lemma OtherEpi(a: ES, b: ES, v: Env, w: Env, c: Cost)
    requires Spends(a, b, w, c) && w == v.(epi := w.epi)
    ensures Spends(a, b, v, c)
  {
  }

  function FuncsCost(fs: seq<Func>, n: nat): Cost
    decreases |fs|
  {
    if fs == [] then NOTHING else Plus(FuncCost(fs[0], n), FuncsCost(fs[1..], n))
  }

  lemma {:induction false} SpendFs(st: ES, v: Env, fs: seq<Func>, i: nat)
    requires i <= |fs| && |v.fn| == |fs|
    ensures Spends(st, EmitFs(st, v, fs, i), v, FuncsCost(fs[i..], |fs|))
    decreases |fs| - i
  {
    hide EmitF, FuncCost;
    if i < |fs| {
      var s1 := EmitF(st, v, fs[i], v.fn[i]);
      SpendF(st, v, fs[i], v.fn[i]);
      SpendFs(s1, v, fs, i + 1);
      assert fs[i..][0] == fs[i] && fs[i..][1..] == fs[i + 1..];
      SpendThen(st, s1, EmitFs(s1, v, fs, i + 1), v, FuncCost(fs[i], |fs|), FuncsCost(fs[i + 1..], |fs|));
    }
  }

  // ---- the unit ----------------------------------------------------------------------------------

  lemma {:induction false} UseLabels(st: ES, v: Env, n: nat)
    ensures Uses(st, NewLabels(st, n), v, Cost(0, n, 0, 0, true))
    decreases n
  {
    hide Uses, NewLabel;
    if n == 0 {
      UseNothing(st, v);
    } else {
      UseNew(st, v);
      UseLabels(NewLabel(st), v, n - 1);
      Then(st, NewLabel(st), NewLabels(st, n), v, LABEL, Cost(0, n - 1, 0, 0, true));
    }
  }

  lemma UseAbort(st: ES, v: Env, cause: int, here: int, done: int)
    ensures Uses(st, EmitAbort(st, v, cause, here, done), v, Cost(3, 0, 1, 0, true))
  {
    hide Uses, Here, Puts, Jump, Plus;
    var c := [SetAborted(cause), XorEax];
    UseHere(st, v, here);
    ThenPuts(st, Here(st, here), v, NOTHING, c);
    ThenJump(st, Puts(Here(st, here), v, c), v, Plus(NOTHING, Items(2)), Always, done);
    PlusIs(NOTHING, Items(2));
    PlusIs(Items(2), JUMP);
  }

  /** Labels and jumps of all functions. */
  function SumLabels(fs: seq<Func>): nat {
    if fs == [] then 0 else 1 + LabelsS(fs[0].body) + SumLabels(fs[1..])
  }

  function SumFixups(fs: seq<Func>): nat {
    if fs == [] then 0 else 2 + FixupsS(fs[0].body) + SumFixups(fs[1..])
  }

  /** A function the generator has no objection to: everything in it belongs to
      something, and its loops and switches nest no deeper than the stacks. */
  predicate FuncOk(f: Func, n: nat) {
    Closed(f.body, false, false, {}, n) && BreakDepth(f.body) <= MAX_NEST && ContinueDepth(f.body) <= MAX_NEST
  }

  /** What a unit needs, against what there is. */
  predicate UnitFits(fs: seq<Func>, entry: nat, cap: nat) {
    && (forall i :: 0 <= i < |fs| ==> FuncOk(fs[i], |fs|))
    && |GenUnit(fs, entry)| <= cap
    && |fs| + 3 + SumLabels(fs) <= MAX_LABELS
    && 3 + SumFixups(fs) <= MAX_FIXUPS
  }

  lemma {:induction false} FuncsNeed(fs: seq<Func>, n: nat)
    ensures var c := FuncsCost(fs, n);
            && c.n == SizeFs(fs) && c.l == SumLabels(fs) && c.f == SumFixups(fs) && c.d == 0
            && (c.ok <==> forall i :: 0 <= i < |fs| ==> FuncOk(fs[i], n))
    decreases |fs|
  {
    hide SizeF, LabelsS, FixupsS, Closed, BreakDepth, ContinueDepth;
    if fs != [] {
      FuncsNeed(fs[1..], n);
      assert FuncCost(fs[0], n).ok == FuncOk(fs[0], n);
      OkRest(fs, n);
    }
  }

  lemma OkRest(fs: seq<Func>, n: nat)
    requires fs != []
    ensures (forall i :: 0 <= i < |fs| ==> FuncOk(fs[i], n)) <==>
            FuncOk(fs[0], n) && forall i :: 0 <= i < |fs[1..]| ==> FuncOk(fs[1..][i], n)
  {
    hide FuncOk;
    if forall i :: 0 <= i < |fs[1..]| ==> FuncOk(fs[1..][i], n) {
      forall i | 1 <= i < |fs|
        ensures FuncOk(fs[i], n)
      {
        assert fs[i] == fs[1..][i - 1];
      }
    }
  }

  lemma UnitSize(fs: seq<Func>, entry: nat)
    ensures |GenUnit(fs, entry)| == 11 + SizeFs(fs)
  {
    hide GenFs, SizeFs, Places;
    SizeOfFs(fs, 5, Layout(fs));
  }

  /** The generator refuses a unit exactly when something in it belongs to nothing,
      or its code, its labels, its jumps or its nesting exceed what there is. */
  lemma EmitsIff(fs: seq<Func>, entry: nat, cap: nat)
    requires entry < |fs|
    ensures !EmitUnit(fs, entry, cap).fails <==> UnitFits(fs, entry, cap)
  {
    hide Uses, Spends, Here, Puts, RelTo, EmitFs, EmitAbort, NewLabels, GenUnit, FuncOk, SumLabels, SumFixups, Plus,
      FuncsCost;
    var v, done, none := UnitEnv(fs, cap), |fs| + 2, ES([], [], 0, 0, [], [], false);
    var s0 := NewLabels(none, |fs| + 3);
    var t1 := RelTo(Puts(s0, v, [SaveKrsp, LoadPrsp]), v, CallRel(0), entry);
    var t2 := Puts(Here(t1, done), v, [LoadKrsp, Halt]);
    var s2 := EmitFs(t2, v, fs, 0);
    var s3 := EmitAbort(s2, v, 1, |fs|, done);
    var r := EmitAbort(s3, v, 2, |fs| + 1, done);
    assert r == EmitUnit(fs, entry, cap);
    UseStart(fs, entry, v, none, s0, t1, t2);
    UsesSpends(none, t2, v, Cost(5, |fs| + 3, 1, 0, true));
    var c, a := FuncsCost(fs, |fs|), Cost(3, 0, 1, 0, true);
    SpendFs(t2, v, fs, 0);
    assert fs[0..] == fs;
    SpendThen(none, t2, s2, v, Cost(5, |fs| + 3, 1, 0, true), c);
    var x := Plus(Cost(5, |fs| + 3, 1, 0, true), c);
    UseAbort(s2, v, 1, |fs|, done);
    UsesSpends(s2, s3, v, a);
    SpendThen(none, s2, s3, v, x, a);
    UseAbort(s3, v, 2, |fs| + 1, done);
    UsesSpends(s3, r, v, a);
    SpendThen(none, s3, r, v, Plus(x, a), a);
    PlusIs(Cost(5, |fs| + 3, 1, 0, true), c);
    PlusIs(x, a);
    PlusIs(Plus(x, a), a);
    FuncsNeed(fs, |fs|);
    UnitSize(fs, entry);
    FromNothing(none, r, v, Plus(Plus(x, a), a));
  }

  lemma FromNothing(none: ES, r: ES, v: Env, c: Cost)
    requires none == ES([], [], 0, 0, [], [], false) && Spends(none, r, v, c)
    ensures !r.fails <==> c.ok && c.n <= v.cap && c.l <= MAX_LABELS && c.f <= MAX_FIXUPS
  {
  }

  lemma UseStart(fs: seq<Func>, entry: nat, v: Env, none: ES, s0: ES, t1: ES, t2: ES)
    requires s0 == NewLabels(none, |fs| + 3) && t1 == RelTo(Puts(s0, v, [SaveKrsp, LoadPrsp]), v, CallRel(0), entry)
    requires t2 == Puts(Here(t1, |fs| + 2), v, [LoadKrsp, Halt])
    ensures Uses(none, t2, v, Cost(5, |fs| + 3, 1, 0, true))
  {
    hide Uses, Here, Puts, RelTo, NewLabels, Plus;
    var x0 := Cost(0, |fs| + 3, 0, 0, true);
    UseLabels(none, v, |fs| + 3);
    var a, b := [SaveKrsp, LoadPrsp], [LoadKrsp, Halt];
    ThenPuts(none, s0, v, x0, a);
    var x1 := Plus(x0, Items(|a|));
    UseRel(Puts(s0, v, a), v, CallRel(0), entry);
    Then(none, Puts(s0, v, a), t1, v, x1, JUMP);
    var x2 := Plus(x1, JUMP);
    ThenHere(none, t1, v, x2, |fs| + 2);
    ThenPuts(none, Here(t1, |fs| + 2), v, x2, b);
    PlusIs(x0, Items(|a|));
    PlusIs(x1, JUMP);
    PlusIs(x2, Items(|b|));
  }

  // ---- what the parser hands over is closed --------------------------------------------------------

  lemma {:induction false} TypedCallsE(w: World, e: Expr)
    requires WellTyped(w, e)
    ensures CallsE(e, |w.funcs|)
    decreases e
  {
    match e
    case Num(_, _) =>
    case Load(_, lv) => TypedCallsL(w, lv);
    case Addr(lv) => TypedCallsL(w, lv);
    case Assign(_, lv, rhs) =>
      TypedCallsL(w, lv);
      TypedCallsE(w, rhs);
    case Cast(_, x) => TypedCallsE(w, x);
    case Bin(_, _, l, r) =>
      TypedCallsE(w, l);
      TypedCallsE(w, r);
    case Cmp(_, l, r) =>
      TypedCallsE(w, l);
      TypedCallsE(w, r);
    case Not(x) => TypedCallsE(w, x);
    case BitNot(_, x) => TypedCallsE(w, x);
    case LogAnd(l, r) =>
      TypedCallsE(w, l);
      TypedCallsE(w, r);
    case LogOr(l, r) =>
      TypedCallsE(w, l);
      TypedCallsE(w, r);
    case Cond(_, c, t, f) =>
      TypedCallsE(w, c);
      TypedCallsE(w, t);
      TypedCallsE(w, f);
    case Comma(l, r) =>
      TypedCallsE(w, l);
      TypedCallsE(w, r);
    case Call(_, _, args) => TypedCallsA(w, args);
  }

  lemma {:induction false} TypedCallsL(w: World, lv: LVal)
    requires WellTypedL(w, lv)
    ensures CallsL(lv, |w.funcs|)
    decreases lv
  {
    match lv
    case Local(_) =>
    case Global(_) =>
    case Deref(e) => TypedCallsE(w, e);
    case Member(x, _) => TypedCallsL(w, x);
    case CommaL(e, x) =>
      TypedCallsE(w, e);
      TypedCallsL(w, x);
  }

  lemma {:induction false} TypedCallsA(w: World, args: Args)
    requires WellTypedA(w, args)
    ensures CallsA(args, |w.funcs|)
    decreases args
  {
    match args
    case NoArgs =>
    case Arg(e, rest) =>
      TypedCallsE(w, e);
      TypedCallsA(w, rest);
  }

  lemma {:induction false} WellFormedClosed(w: World, s: Stmt, ret: Ty, brk: bool, cont: bool, ks: set<Key>)
    requires WellFormed(w, s, ret, brk, cont) && Cases(s) <= ks
    ensures Closed(s, brk, cont, ks, |w.funcs|)
    decreases s
  {
    hide WellTyped, CallsE, ETy, Fits, DistinctCases;
    match s
    case Nop =>
    case Seq(a, b) =>
      WellFormedClosed(w, a, ret, brk, cont, ks);
      WellFormedClosed(w, b, ret, brk, cont, ks);
    case Eval(e) => TypedCallsE(w, e);
    case MemZero(_, _) =>
    case Return(r) =>
      if r.Some? {
        TypedCallsE(w, r.value);
      }
    case If(c, t, f) =>
      TypedCallsE(w, c);
      WellFormedClosed(w, t, ret, brk, cont, ks);
      if f.Some? {
        WellFormedClosed(w, f.value, ret, brk, cont, ks);
      }
    case Loop(c, _, p, b) =>
      if c.Some? {
        TypedCallsE(w, c.value);
      }
      if p.Some? {
        TypedCallsE(w, p.value);
      }
      WellFormedClosed(w, b, ret, true, true, ks);
    case Break =>
    case Continue =>
    case Case(_, b) => WellFormedClosed(w, b, ret, brk, cont, ks);
    case Switch(c, keys, dflt, b) =>
      TypedCallsE(w, c);
      CasesListed(w, s, ret, brk, cont);
      WellFormedClosed(w, b, ret, true, cont, SwitchKeys(keys, dflt));
  }

  lemma CasesListed(w: World, s: Stmt, ret: Ty, brk: bool, cont: bool)
    requires s.Switch? && WellFormed(w, s, ret, brk, cont)
    ensures Cases(s.body) <= SwitchKeys(s.keys, s.dflt)
  {
    hide WellTyped, ETy, Fits, DistinctCases, Cases;
    forall k | k in Cases(s.body)
      ensures k in SwitchKeys(s.keys, s.dflt)
    {
      if k.CaseOf? {
        var i :| 0 <= i < |s.keys| && s.keys[i] == k.v;
        assert k == CaseOf(s.keys[i]);
      }
    }
  }

  /** A well-formed unit is refused for its size alone. */
  lemma FormedFits(w: World, entry: nat, cap: nat)
    requires WellFormedUnit(w) && entry < |w.funcs|
    ensures !EmitUnit(w.funcs, entry, cap).fails <==>
            && |GenUnit(w.funcs, entry)| <= cap
            && |w.funcs| + 3 + SumLabels(w.funcs) <= MAX_LABELS && 3 + SumFixups(w.funcs) <= MAX_FIXUPS
            && forall i :: 0 <= i < |w.funcs| ==>
                 BreakDepth(w.funcs[i].body) <= MAX_NEST && ContinueDepth(w.funcs[i].body) <= MAX_NEST
  {
    hide EmitUnit, GenUnit, SumLabels, SumFixups, BreakDepth, ContinueDepth, Closed, WellFormed, Cases;
    EmitsIff(w.funcs, entry, cap);
    forall i | 0 <= i < |w.funcs|
      ensures Closed(w.funcs[i].body, false, false, {}, |w.funcs|)
    {
      assert WellFormedFunc(w, w.funcs[i]);
      WellFormedClosed(w, w.funcs[i].body, w.funcs[i].ret, false, false, {});
    }
  }
}
