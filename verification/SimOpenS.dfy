// One level of the code and of the meaning of each statement.

module SimOpenS {
  import opened Basics
  import opened Words
  import opened CTree
  import opened X64
  import opened Gen
  import opened SimBase
  import opened SimSizes

  // ---- code, with the lengths of its parts -----------------------------------

  lemma CodeSeq(s: Stmt, at: int, k: Links, x: Exits) returns (c1: seq<Instr>, c2: seq<Instr>)
    requires s.Seq?
    ensures c1 == GenS(s.s1, at, k, x) && c2 == GenS(s.s2, at + SizeS(s.s1), k, x)
    ensures GenS(s, at, k, x) == c1 + c2 && |c1| == SizeS(s.s1) && |c2| == SizeS(s.s2)
    ensures SizeS(s) == SizeS(s.s1) + SizeS(s.s2) && Weight(s) == Weight(s.s1) + Weight(s.s2)
  {
    c1 := GenS(s.s1, at, k, x);
    c2 := GenS(s.s2, at + SizeS(s.s1), k, x);
    SizeOfS(s.s1, at, k, x);
    SizeOfS(s.s2, at + SizeS(s.s1), k, x);
  }

  lemma CodeReturn(s: Stmt, at: int, k: Links, x: Exits) returns (c1: seq<Instr>)
    requires s.Return?
    ensures c1 == GenO(s.ret, at, k) && |c1| == SizeO(s.ret)
    ensures GenS(s, at, k, x) == c1 + [Far(Always, x.epi, at + |c1|)]
    ensures Weight(s) == |c1| + 1
  {
    hide GenO, SizeO;
    c1 := GenO(s.ret, at, k);
    SizeOfO(s.ret, at, k);
  }

  lemma CodeIf(s: Stmt, at: int, k: Links, x: Exits)
    returns (c1: seq<Instr>, c2: seq<Instr>, c3: seq<Instr>)
    requires s.If? && s.f.Some?
    ensures c1 == GenE(s.c, 0, at, k) && |c1| == SizeE(s.c, 0)
    ensures c2 == GenS(s.t, at + |c1| + 2, k, x) && |c2| == SizeS(s.t)
    ensures c3 == GenS(s.f.value, at + |c1| + 2 + |c2| + 1, k, x) && |c3| == SizeS(s.f.value)
    ensures GenS(s, at, k, x) == c1 + [TestRax, J(Z, |c2| + 1)] + c2 + [J(Always, |c3|)] + c3
    ensures SizeS(s) == |c1| + 2 + |c2| + 1 + |c3|
    ensures Weight(s) == |c1| + 2 + Weight(s.t) + 1 + Weight(s.f.value)
  {
    hide GenE, SizeE;
    SizeOfE(s.c, 0, at, k);
    c1 := GenE(s.c, 0, at, k);
    c2 := GenS(s.t, at + |c1| + 2, k, x);
    SizeOfS(s.t, at + |c1| + 2, k, x);
    c3 := GenS(s.f.value, at + |c1| + 2 + |c2| + 1, k, x);
    SizeOfS(s.f.value, at + |c1| + 2 + |c2| + 1, k, x);
  }

  lemma CodeWhen(s: Stmt, at: int, k: Links, x: Exits) returns (c1: seq<Instr>, c2: seq<Instr>)
    requires s.If? && s.f.None?
    ensures c1 == GenE(s.c, 0, at, k) && |c1| == SizeE(s.c, 0)
    ensures c2 == GenS(s.t, at + |c1| + 2, k, x) && |c2| == SizeS(s.t)
    ensures GenS(s, at, k, x) == c1 + [TestRax, J(Z, |c2|)] + c2
    ensures SizeS(s) == |c1| + 2 + |c2| && Weight(s) == |c1| + 2 + Weight(s.t)
  {
    hide GenE, SizeE;
    SizeOfE(s.c, 0, at, k);
    c1 := GenE(s.c, 0, at, k);
    c2 := GenS(s.t, at + |c1| + 2, k, x);
    SizeOfS(s.t, at + |c1| + 2, k, x);
  }

  /** Offsets of the parts of a loop at `at`. */
  datatype Marks = Marks(body: int, cont: int, test: int, back: int, end: int)

  function LoopMarks(s: Stmt, at: int): Marks
    requires s.Loop?
  {
    var a1 := at + SizeTest(s.cond, s.testFirst);
    var lcont := a1 + SizeS(s.body);
    var a2 := lcont + SizeO(s.post);
    Marks(a1, lcont, a2, a2 + SizeTest(s.cond, !s.testFirst), at + SizeS(s))
  }

  lemma CodeLoop(s: Stmt, at: int, k: Links, x: Exits)
    returns (c1: seq<Instr>, c2: seq<Instr>, c3: seq<Instr>, c4: seq<Instr>, c5: seq<Instr>)
    requires s.Loop?
    ensures var m := LoopMarks(s, at);
            && c1 == GenTest(s.cond, s.testFirst, m.end, at, k)
            && c2 == GenS(s.body, m.body, k, Exits(m.end, m.cont, x.epi))
            && c3 == GenO(s.post, m.cont, k)
            && c4 == GenTest(s.cond, !s.testFirst, m.end, m.test, k)
            && c5 == [DecFuel, Far(S, k.fuel, m.back + 1), Far(Always, at, m.back + 2)]
            && at + |c1| == m.body && |c2| == SizeS(s.body) && m.body + |c2| == m.cont && m.cont + |c3| == m.test
            && m.test + |c4| == m.back && m.back + 3 == m.end
            && Weight(s) == |c1| + Weight(s.body) + |c3| + |c4| + 3
    ensures GenS(s, at, k, x) == c1 + c2 + c3 + c4 + c5
  {
    hide GenTest, GenO, SizeTest, SizeO;
    var m := LoopMarks(s, at);
    c1 := GenTest(s.cond, s.testFirst, m.end, at, k);
    c2 := GenS(s.body, m.body, k, Exits(m.end, m.cont, x.epi));
    c3 := GenO(s.post, m.cont, k);
    c4 := GenTest(s.cond, !s.testFirst, m.end, m.test, k);
    c5 := [DecFuel, Far(S, k.fuel, m.back + 1), Far(Always, at, m.back + 2)];
    SizeOfTest(s.cond, s.testFirst, m.end, at, k);
    SizeOfS(s.body, m.body, k, Exits(m.end, m.cont, x.epi));
    SizeOfO(s.post, m.cont, k);
    SizeOfTest(s.cond, !s.testFirst, m.end, m.test, k);
  }

  lemma CodeSwitch(s: Stmt, at: int, k: Links, x: Exits)
    returns (c1: seq<Instr>, c2: seq<Instr>, c4: seq<Instr>)
    requires s.Switch?
    ensures var a2 := at + |c1| + |c2|;
            var lend := a2 + 1 + |c4|;
            && c1 == GenE(s.c, 0, at, k)
            && c2 == Chain(s.keys, s.body, a2 + 1, at + |c1|) && |c2| == 3 * |s.keys|
            && c4 == GenS(s.body, a2 + 1, k, Exits(lend, x.cont, x.epi)) && |c4| == SizeS(s.body)
            && GenS(s, at, k, x)
               == c1 + c2
                  + [Far(Always, if s.dflt then a2 + 1 + CaseOff(s.body, Default) else lend, a2)] + c4
            && SizeS(s) == lend - at
            && Weight(s) == |c1| + |c2| + 1 + Weight(s.body)
  {
    hide GenE, SizeE, Chain, CaseOff;
    SizeOfE(s.c, 0, at, k);
    c1 := GenE(s.c, 0, at, k);
    var a2 := at + |c1| + 3 * |s.keys|;
    c2 := Chain(s.keys, s.body, a2 + 1, at + |c1|);
    SizeOfChain(s.keys, s.body, a2 + 1, at + |c1|);
    var y := Exits(a2 + 1 + SizeS(s.body), x.cont, x.epi);
    c4 := GenS(s.body, a2 + 1, k, y);
    SizeOfS(s.body, a2 + 1, k, y);
  }

  // ---- meaning -----------------------------------------------------------------

  lemma MeanSeq(w: World, s: Stmt, key: Option<Key>, fp: int, sp: int, mem: Mem, fuel: nat)
    returns (x: Out<Flow>, y: Out<Flow>)
    requires s.Seq?
    ensures var inB := key.Some? && !HasCase(s.s1, key.value);
            && x == (if inB then Wild else Exec(w, s.s1, key, fp, sp, mem, fuel))
            && y == (if inB then Exec(w, s.s2, key, fp, sp, mem, fuel)
                     else if x.Ok? && x.v.Next? then Exec(w, s.s2, None, fp, sp, x.mem, x.fuel)
                     else x)
    ensures Exec(w, s, key, fp, sp, mem, fuel) == y
  {
    hide HasCase;
    x := if key.Some? && !HasCase(s.s1, key.value) then Wild else Exec(w, s.s1, key, fp, sp, mem, fuel);
    y := Exec(w, s, key, fp, sp, mem, fuel);
  }

  lemma MeanIf(w: World, s: Stmt, fp: int, sp: int, mem: Mem, fuel: nat) returns (b: Out<int>, x: Out<Flow>)
    requires s.If?
    ensures b == EvalE(w, s.c, fp, sp, mem, fuel)
    ensures x == if !b.Ok? then Wild
                 else if b.v != 0 then Exec(w, s.t, None, fp, sp, b.mem, b.fuel)
                 else if s.f.Some? then Exec(w, s.f.value, None, fp, sp, b.mem, b.fuel)
                 else Ok(Next, b.mem, b.fuel)
    ensures Exec(w, s, None, fp, sp, mem, fuel) == if !b.Ok? then b.Fail() else x
  {
    hide EvalE;
    b := EvalE(w, s.c, fp, sp, mem, fuel);
    x := if !b.Ok? then Wild
         else if b.v != 0 then Exec(w, s.t, None, fp, sp, b.mem, b.fuel)
         else if s.f.Some? then Exec(w, s.f.value, None, fp, sp, b.mem, b.fuel)
         else Ok(Next, b.mem, b.fuel);
  }

  lemma MeanIfCase(w: World, s: Stmt, key: Key, fp: int, sp: int, mem: Mem, fuel: nat)
    requires s.If? && HasCase(s, key)
    ensures Exec(w, s, Some(key), fp, sp, mem, fuel)
            == if HasCase(s.t, key) then Exec(w, s.t, Some(key), fp, sp, mem, fuel)
               else if s.f.Some? then Exec(w, s.f.value, Some(key), fp, sp, mem, fuel) else Wild
    ensures !HasCase(s.t, key) ==> s.f.Some? && HasCase(s.f.value, key)
    ensures CaseOff(s, key)
            == SizeE(s.c, 0) + 2
               + (if HasCase(s.t, key) || s.f.None? then CaseOff(s.t, key)
                  else SizeS(s.t) + 1 + CaseOff(s.f.value, key))
  {
    hide EvalE, SizeE;
  }

  lemma MeanSwitch(w: World, s: Stmt, key: Option<Key>, fp: int, sp: int, mem: Mem, fuel: nat)
    returns (v: Out<int>, x: Out<Flow>, to: Key)
    requires s.Switch?
    ensures v == EvalE(w, s.c, fp, sp, mem, fuel)
    ensures to == if v.Ok? && v.v in s.keys then CaseOf(v.v) else Default
    ensures x == if v.Ok? then Exec(w, s.body, Some(to), fp, sp, v.mem, v.fuel) else Wild
    ensures Exec(w, s, key, fp, sp, mem, fuel)
            == if !v.Ok? then v.Fail()
               else if v.v !in s.keys && !s.dflt then Ok(Next, v.mem, v.fuel)
               else if x.Ok? && x.v.Brk? then Ok(Next, x.mem, x.fuel) else x
  {
    hide EvalE;
    v := EvalE(w, s.c, fp, sp, mem, fuel);
    to := if v.Ok? && v.v in s.keys then CaseOf(v.v) else Default;
    x := if v.Ok? then Exec(w, s.body, Some(to), fp, sp, v.mem, v.fuel) else Wild;
  }

  lemma SwitchLabels(w: World, s: Stmt, ret: Ty, brk: bool, cont: bool, v: int)
    requires s.Switch? && WellFormed(w, s, ret, brk, cont)
    ensures WellTyped(w, s.c) && ETy(s.c).Int? && WellFormed(w, s.body, ret, true, cont)
    ensures v in s.keys ==> HasCase(s.body, CaseOf(v))
    ensures s.dflt ==> HasCase(s.body, Default)
    ensures forall u :: u in s.keys ==> Fits(u, ETy(s.c).w, ETy(s.c).uns)
  {
    hide Fits;
  }

  lemma MeanIterate(w: World, s: Stmt, key: Option<Key>, fp: int, sp: int, mem: Mem, fuel: nat)
    returns (t: Out<int>, b: Out<Flow>)
    requires s.Loop?
    ensures t == if s.testFirst && key.None? then EvalO(w, s.cond, fp, sp, mem, fuel) else Ok(1, mem, fuel)
    ensures b == if t.Ok? && t.v != 0 then Exec(w, s.body, key, fp, sp, t.mem, t.fuel) else Wild
    ensures Exec(w, s, key, fp, sp, mem, fuel)
            == if !t.Ok? then t.Fail() else if t.v == 0 then Ok(Next, t.mem, t.fuel)
               else if !b.Ok? || b.v.Gone? then b
               else if b.v.Brk? then Ok(Next, b.mem, b.fuel)
               else Tail(w, s, fp, sp, b.mem, b.fuel)
  {
    hide EvalE, Tail;
    t := if s.testFirst && key.None? then EvalO(w, s.cond, fp, sp, mem, fuel) else Ok(1, mem, fuel);
    b := if t.Ok? && t.v != 0 then Exec(w, s.body, key, fp, sp, t.mem, t.fuel) else Wild;
  }

  lemma MeanTail(w: World, s: Stmt, fp: int, sp: int, mem: Mem, fuel: nat) returns (p: Out<int>, u: Out<int>)
    requires s.Loop?
    ensures p == EvalO(w, s.post, fp, sp, mem, fuel)
    ensures u == if !p.Ok? then Wild
                 else if s.testFirst then Ok(1, p.mem, p.fuel)
                 else EvalO(w, s.cond, fp, sp, p.mem, p.fuel)
    ensures Tail(w, s, fp, sp, mem, fuel)
            == if !p.Ok? then p.Fail() else if !u.Ok? then u.Fail()
               else if u.v == 0 then Ok(Next, u.mem, u.fuel)
               else if u.fuel == 0 then NoFuel(u.mem)
               else Exec(w, s, None, fp, sp, u.mem, u.fuel - 1)
  {
    hide EvalE, EvalO;
    p := EvalO(w, s.post, fp, sp, mem, fuel);
    u := if !p.Ok? then Wild
         else if s.testFirst then Ok(1, p.mem, p.fuel)
         else EvalO(w, s.cond, fp, sp, p.mem, p.fuel);
  }

  lemma LoopTyped(w: World, s: Stmt, ret: Ty, brk: bool, cont: bool)
    requires s.Loop? && WellFormed(w, s, ret, brk, cont)
    ensures s.cond.Some? ==> WellTyped(w, s.cond.value) && ETy(s.cond.value).Int?
    ensures s.post.Some? ==> WellTyped(w, s.post.value)
    ensures WellFormed(w, s.body, ret, true, true)
  {
    hide WellTyped, ETy;
  }

  lemma IfTyped(w: World, s: Stmt, ret: Ty, brk: bool, cont: bool)
    requires s.If? && WellFormed(w, s, ret, brk, cont)
    ensures WellTyped(w, s.c) && ETy(s.c).Int? && WellFormed(w, s.t, ret, brk, cont)
    ensures s.f.Some? ==> WellFormed(w, s.f.value, ret, brk, cont)
  {
    hide WellTyped, ETy;
  }

  /** Where running `s` starts: its beginning, or a label in it. */
  function Entry(s: Stmt, key: Option<Key>): nat {
    if key.Some? then CaseOff(s, key.value) else 0
  }

  predicate Enters(s: Stmt, key: Option<Key>) {
    key.Some? ==> HasCase(s, key.value)
  }

  lemma SeqEntry(s: Stmt, key: Option<Key>)
    requires s.Seq? && Enters(s, key)
    ensures key.Some? && !HasCase(s.s1, key.value) ==>
              Enters(s.s2, key) && Entry(s, key) == SizeS(s.s1) + Entry(s.s2, key)
    ensures !(key.Some? && !HasCase(s.s1, key.value)) ==>
              Enters(s.s1, key) && Entry(s, key) == Entry(s.s1, key)
  {
    hide SizeS;
  }

  lemma LoopEntry(s: Stmt, key: Option<Key>)
    requires s.Loop? && Enters(s, key)
    ensures Enters(s.body, key)
    ensures key.Some? ==> Entry(s, key) == SizeTest(s.cond, s.testFirst) + Entry(s.body, key)
  {
    hide SizeTest;
  }

  lemma CaseEntry(s: Stmt, key: Option<Key>)
    requires s.Case? && Enters(s, key)
    ensures var inner := if key == Some(s.key) then None else key;
            Enters(s.body, inner) && Entry(s, key) == Entry(s.body, inner)
  {
  }
}
