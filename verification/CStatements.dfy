// Statements and functions as written, with compound assignments anywhere in
// them: the trees the parser builds with hidden temporaries mean the same.

module CStatements {
  import opened Basics
  import opened Words
  import opened CTree
  import opened CFence
  import opened CUpdate
  import opened CLowers

  /** An expression of a statement, and how many temporaries were taken when it was
      parsed. */
  datatype Part = Part(e: Src, n: nat)

  datatype SrcS =
    | TNop
    | TSeq(s1: SrcS, s2: SrcS)
    | TEval(p: Part)
    | TZero(off: int, size: nat)
    | TReturn(ret: Option<Part>)
    | TIf(c: Part, t: SrcS, f: Option<SrcS>)
    | TLoop(cond: Option<Part>, testFirst: bool, post: Option<Part>, body: SrcS)
    | TBreak
    | TContinue
    | TCase(key: Key, body: SrcS)
    | TSwitch(c: Part, keys: seq<int>, dflt: bool, body: SrcS)

  datatype SrcF = SrcF(params: seq<Param>, frame: nat, ret: Ty, body: SrcS)

  // ---- the trees ---------------------------------------------------------------------------

  function LowerP(p: Part): Expr { Lower(p.e, p.n).0 }

  function LowerO(p: Option<Part>): Option<Expr> { if p.Some? then Some(LowerP(p.value)) else None }

  function LowerS(s: SrcS): Stmt {
    match s
    case TNop => Nop
    case TSeq(a, b) => Seq(LowerS(a), LowerS(b))
    case TEval(p) => Eval(LowerP(p))
    case TZero(off, n) => MemZero(off, n)
    case TReturn(r) => Return(LowerO(r))
    case TIf(c, t, f) => If(LowerP(c), LowerS(t), if f.Some? then Some(LowerS(f.value)) else None)
    case TLoop(c, first, p, b) => Loop(LowerO(c), first, LowerO(p), LowerS(b))
    case TBreak => Break
    case TContinue => Continue
    case TCase(k, b) => Case(k, LowerS(b))
    case TSwitch(c, keys, dflt, b) => Switch(LowerP(c), keys, dflt, LowerS(b))
  }

  function LowerF(f: SrcF): Func { Func(f.params, f.frame, f.ret, LowerS(f.body)) }

  /** No expression needs more temporaries than there are. */
  predicate FitsP(p: Part) { Lower(p.e, p.n).1 <= SLOTS }

  predicate FitsO(p: Option<Part>) { p.Some? ==> FitsP(p.value) }

  predicate FitsS(s: SrcS) {
    match s
    case TSeq(a, b) => FitsS(a) && FitsS(b)
    case TEval(p) => FitsP(p)
    case TReturn(r) => FitsO(r)
    case TIf(c, t, f) => FitsP(c) && FitsS(t) && (f.Some? ==> FitsS(f.value))
    case TLoop(c, _, p, b) => FitsO(c) && FitsO(p) && FitsS(b)
    case TCase(_, b) => FitsS(b)
    case TSwitch(c, _, _, b) => FitsP(c) && FitsS(b)
    case _ => true
  }

  // ---- the meaning as written ------------------------------------------------------------------

  predicate HasLabel(s: SrcS, k: Key) { HasCase(LowerS(s), k) }

  function MeanO(w: World, c: Option<Part>, fp: int, sp: int, mem: Mem, fuel: nat): (r: Out<int>)
    ensures r.Ok? ==> r.fuel <= fuel
  {
    if c.Some? then MeanE(w, c.value.e, fp, sp, mem, fuel) else Ok(1, mem, fuel)
  }

  function MeanS(w: World, s: SrcS, k: Option<Key>, fp: int, sp: int, mem: Mem, fuel: nat): (r: Out<Flow>)
    ensures r.Ok? ==> r.fuel <= fuel
    decreases fuel, s, 1
  {
    match s
    case TNop => Ok(Next, mem, fuel)
    case TSeq(a, b) =>
      if k.Some? && !HasLabel(a, k.value) then MeanS(w, b, k, fp, sp, mem, fuel)
      else
        var x := MeanS(w, a, k, fp, sp, mem, fuel);
        if x.Ok? && x.v.Next? then MeanS(w, b, None, fp, sp, x.mem, x.fuel) else x
    case TEval(p) =>
      var v := MeanE(w, p.e, fp, sp, mem, fuel);
      if !v.Ok? then v.Fail() else Ok(Next, v.mem, v.fuel)
    case TZero(off, size) => Exec(w, MemZero(off, size), None, fp, sp, mem, fuel)
    case TReturn(r) =>
      if r.None? then Ok(Gone(0), mem, fuel) else
      var v := MeanE(w, r.value.e, fp, sp, mem, fuel);
      if !v.Ok? then v.Fail() else Ok(Gone(v.v), v.mem, v.fuel)
    case TIf(c, t, f) =>
      if k.Some? then
        if HasLabel(t, k.value) then MeanS(w, t, k, fp, sp, mem, fuel)
        else if f.Some? then MeanS(w, f.value, k, fp, sp, mem, fuel)
        else Wild
      else
        var b := MeanE(w, c.e, fp, sp, mem, fuel);
        if !b.Ok? then b.Fail()
        else if b.v != 0 then MeanS(w, t, None, fp, sp, b.mem, b.fuel)
        else if f.Some? then MeanS(w, f.value, None, fp, sp, b.mem, b.fuel)
        else Ok(Next, b.mem, b.fuel)
    case TLoop(_, _, _, _) => MeanLoop(w, s, k, fp, sp, mem, fuel)
    case TBreak => Ok(Brk, mem, fuel)
    case TContinue => Ok(Cont, mem, fuel)
    case TCase(key, b) => MeanS(w, b, if k == Some(key) then None else k, fp, sp, mem, fuel)
    case TSwitch(c, keys, dflt, b) =>
      var v := MeanE(w, c.e, fp, sp, mem, fuel);
      if !v.Ok? then v.Fail()
      else if v.v !in keys && !dflt then Ok(Next, v.mem, v.fuel)
      else
        var x := MeanS(w, b, Some(if v.v in keys then CaseOf(v.v) else Default), fp, sp, v.mem, v.fuel);
        if x.Ok? && x.v.Brk? then Ok(Next, x.mem, x.fuel) else x
  }

  function MeanLoop(w: World, s: SrcS, k: Option<Key>, fp: int, sp: int, mem: Mem, fuel: nat): (r: Out<Flow>)
    requires s.TLoop?
    ensures r.Ok? ==> r.fuel <= fuel
    decreases fuel, s, 0
  {
    var t := if s.testFirst && k.None? then MeanO(w, s.cond, fp, sp, mem, fuel) else Ok(1, mem, fuel);
    if !t.Ok? then t.Fail() else if t.v == 0 then Ok(Next, t.mem, t.fuel) else
    var b := MeanS(w, s.body, k, fp, sp, t.mem, t.fuel);
    if !b.Ok? || b.v.Gone? then b else if b.v.Brk? then Ok(Next, b.mem, b.fuel)
    else MeanTail(w, s, fp, sp, b.mem, b.fuel)
  }

  function MeanTail(w: World, s: SrcS, fp: int, sp: int, mem: Mem, fuel: nat): (r: Out<Flow>)
    requires s.TLoop?
    ensures r.Ok? ==> r.fuel <= fuel
    decreases fuel, s, 0, 0
  {
    var p := MeanO(w, s.post, fp, sp, mem, fuel);
    if !p.Ok? then p.Fail() else
    var u := if s.testFirst then Ok(1, p.mem, p.fuel) else MeanO(w, s.cond, fp, sp, p.mem, p.fuel);
    if !u.Ok? then u.Fail() else if u.v == 0 then Ok(Next, u.mem, u.fuel)
    else if u.fuel == 0 then NoFuel(u.mem)
    else MeanLoop(w, s, None, fp, sp, u.mem, u.fuel - 1)
  }

  /** A function as written: entry, parameters, body. */
  function MeanF(w: World, f: SrcF, vs: seq<int>, top: int, mem: Mem, fuel: nat): Out<int> {
    var fp := top - 16;
    if fuel == 0 then NoFuel(mem)
    else if fp - f.frame < w.limit then NoStack(mem, fuel - 1)
    else
      var p := PutParams(w, f.params, vs, fp, mem, fuel - 1);
      if !p.Ok? then p else
      var b := MeanS(w, f.body, None, fp, fp - f.frame, p.mem, fuel - 1);
      match b
      case Ok(Gone(v), m, n) => Ok(v, m, n)
      case Ok(Next, m, n) => Ok(0, m, n)
      case Ok(_, _, _) => Wild
      case _ => b.Fail()
  }

  // ---- the two agree ---------------------------------------------------------------------------

  /** As Fine, over all the temporaries. */
  predicate Agree<T(==)>(w: World, r1: Out<T>, r2: Out<T>, m: Mem, fp: int) { Fine(w, r1, r2, m, fp, 0, SLOTS) }

  lemma AgreeLater<T>(w: World, r1: Out<T>, r2: Out<T>, m: Mem, later: Mem, fp: int)
    requires Spared(w, m, later, fp, 0, SLOTS) && Agree(w, r1, r2, later, fp)
    ensures Agree(w, r1, r2, m, fp)
  {
    hide Fine, Spared;
    FineLater(w, r1, r2, m, later, fp, 0, SLOTS, 0, SLOTS, 0, SLOTS);
  }

  lemma AgreeNow<T>(w: World, v: T, m1: Mem, m2: Mem, fuel: nat, fp: int)
    requires Near(w, m1, m2)
    ensures Agree(w, Ok(v, m1, fuel), Ok(v, m2, fuel), m2, fp)
  {
    hide Near, Fine;
    FineNow(w, v, m1, m2, fuel, fp, 0);
    FineWider(w, Ok(v, m1, fuel), Ok(v, m2, fuel), m2, fp, 0, 0, 0, SLOTS);
  }

  lemma AgreeFacts<T>(w: World, r1: Out<T>, r2: Out<T>, m: Mem, fp: int)
    requires Agree(w, r1, r2, m, fp) && r1.Ok? && Home(w, fp, m)
    ensures r2.Ok? && r2.v == r1.v && r2.fuel == r1.fuel && Near(w, r1.mem, r2.mem)
    ensures Spared(w, m, r2.mem, fp, 0, SLOTS) && Home(w, fp, r2.mem)
  {
  }

  lemma PartMeans(w: World, p: Part, fp: int, sp: int, m1: Mem, m2: Mem, fuel: nat)
    requires Blind(w) && Home(w, fp, m2) && Near(w, m1, m2) && FitsP(p)
    ensures Agree(w, MeanE(w, p.e, fp, sp, m1, fuel), EvalE(Bare(w), LowerP(p), fp, sp, m2, fuel), m2, fp)
  {
    hide MeanE, EvalE, Lower, Near, Home, Blind, Fine;
    LowersE(w, p.e, p.n, fp, sp, m1, m2, fuel);
    FineWider(w, MeanE(w, p.e, fp, sp, m1, fuel), EvalE(Bare(w), LowerP(p), fp, sp, m2, fuel), m2, fp,
      p.n, Lower(p.e, p.n).1, 0, SLOTS);
  }

  lemma OptionMeans(w: World, c: Option<Part>, fp: int, sp: int, m1: Mem, m2: Mem, fuel: nat)
    requires Blind(w) && Home(w, fp, m2) && Near(w, m1, m2) && FitsO(c)
    ensures Agree(w, MeanO(w, c, fp, sp, m1, fuel), EvalO(Bare(w), LowerO(c), fp, sp, m2, fuel), m2, fp)
  {
    hide MeanE, EvalE, LowerP, Near, Home, Blind, Agree, FitsP;
    if c.Some? {
      PartMeans(w, c.value, fp, sp, m1, m2, fuel);
    } else {
      AgreeNow(w, 1, m1, m2, fuel, fp);
    }
  }

  lemma {:induction false} LowersS(w: World, s: SrcS, k: Option<Key>, fp: int, sp: int, m1: Mem, m2: Mem, fuel: nat)
    requires Blind(w) && Home(w, fp, m2) && Near(w, m1, m2) && FitsS(s)
    ensures Agree(w, MeanS(w, s, k, fp, sp, m1, fuel), Exec(Bare(w), LowerS(s), k, fp, sp, m2, fuel), m2, fp)
    decreases fuel, s, 2
  {
    hide MeanS, Exec, LowerS, Near, Home, Blind, Agree, FitsS;
    match s
    case TSeq(_, _) => LowersSeq(w, s, k, fp, sp, m1, m2, fuel);
    case TIf(_, _, _) => LowersIf(w, s, k, fp, sp, m1, m2, fuel);
    case TLoop(_, _, _, _) => LowersLoop(w, s, k, fp, sp, m1, m2, fuel);
    case TSwitch(_, _, _, _) => LowersSwitch(w, s, k, fp, sp, m1, m2, fuel);
    case TCase(_, _) => LowersCase(w, s, k, fp, sp, m1, m2, fuel);
    case _ => LowersSimple(w, s, k, fp, sp, m1, m2, fuel);
  }

  lemma LowersSimple(w: World, s: SrcS, k: Option<Key>, fp: int, sp: int, m1: Mem, m2: Mem, fuel: nat)
    requires !s.TSeq? && !s.TIf? && !s.TLoop? && !s.TSwitch? && !s.TCase?
    requires Blind(w) && Home(w, fp, m2) && Near(w, m1, m2) && FitsS(s)
    ensures Agree(w, MeanS(w, s, k, fp, sp, m1, fuel), Exec(Bare(w), LowerS(s), k, fp, sp, m2, fuel), m2, fp)
    decreases fuel, s, 1
  {
    hide MeanE, EvalE, LowerP, FitsP, Near, Home, Blind, Agree;
    match s
    case TEval(p) =>
      PartMeans(w, p, fp, sp, m1, m2, fuel);
      ThenFlow(w, p, Next, false, fp, sp, m1, m2, fuel);
    case TReturn(r) =>
      if r.Some? {
        PartMeans(w, r.value, fp, sp, m1, m2, fuel);
        ThenFlow(w, r.value, Next, true, fp, sp, m1, m2, fuel);
      } else {
        AgreeNow(w, Gone(0), m1, m2, fuel, fp);
      }
    case TZero(off, n) => ZeroAgrees(w, off, n, k, fp, sp, m1, m2, fuel);
    case TNop => AgreeNow(w, Next, m1, m2, fuel, fp);
    case TBreak => AgreeNow(w, Brk, m1, m2, fuel, fp);
    case TContinue => AgreeNow(w, Cont, m1, m2, fuel, fp);
  }

  /** An expression's outcome turned into a statement's. */
  function Flowed(v: Out<int>, flow: Flow, gone: bool): Out<Flow> {
    if !v.Ok? then v.Fail() else Ok(if gone then Gone(v.v) else flow, v.mem, v.fuel)
  }

  lemma ThenFlow(w: World, p: Part, flow: Flow, gone: bool, fp: int, sp: int, m1: Mem, m2: Mem, fuel: nat)
    requires Agree(w, MeanE(w, p.e, fp, sp, m1, fuel), EvalE(Bare(w), LowerP(p), fp, sp, m2, fuel), m2, fp)
    ensures Agree(w, Flowed(MeanE(w, p.e, fp, sp, m1, fuel), flow, gone),
                  Flowed(EvalE(Bare(w), LowerP(p), fp, sp, m2, fuel), flow, gone), m2, fp)
  {
    hide MeanE, EvalE, LowerP, Near, Spared;
  }

  lemma ZeroAgrees(w: World, off: int, n: nat, k: Option<Key>, fp: int, sp: int, m1: Mem, m2: Mem, fuel: nat)
    requires Blind(w) && Near(w, m1, m2)
    ensures Agree(w, Exec(w, MemZero(off, n), None, fp, sp, m1, fuel), Exec(Bare(w), MemZero(off, n), k, fp, sp, m2,
            fuel), m2, fp)
  {
    hide ZeroFill, Enc, Near, Blind, Fine, Same;
    BlindS(w, MemZero(off, n), k, fp, sp, m1, m2, fuel);
    var r1, r2 := Exec(w, MemZero(off, n), None, fp, sp, m1, fuel), Exec(Bare(w), MemZero(off, n), k, fp, sp, m2, fuel);
    FromSame(w, r1, r2, m2, fp, 0, SLOTS);
  }

  lemma LowersCase(w: World, s: SrcS, k: Option<Key>, fp: int, sp: int, m1: Mem, m2: Mem, fuel: nat)
    requires s.TCase? && Blind(w) && Home(w, fp, m2) && Near(w, m1, m2) && FitsS(s)
    ensures Agree(w, MeanS(w, s, k, fp, sp, m1, fuel), Exec(Bare(w), LowerS(s), k, fp, sp, m2, fuel), m2, fp)
    decreases fuel, s, 1
  {
    hide Near, Home, Blind, Agree;
    LowersS(w, s.body, if k == Some(s.key) then None else k, fp, sp, m1, m2, fuel);
  }

  lemma LowersSeq(w: World, s: SrcS, k: Option<Key>, fp: int, sp: int, m1: Mem, m2: Mem, fuel: nat)
    requires s.TSeq? && Blind(w) && Home(w, fp, m2) && Near(w, m1, m2) && FitsS(s)
    ensures Agree(w, MeanS(w, s, k, fp, sp, m1, fuel), Exec(Bare(w), LowerS(s), k, fp, sp, m2, fuel), m2, fp)
    decreases fuel, s, 1
  {
    hide HasCase, Near, Home, Blind, Spared;
    var b := Bare(w);
    if k.Some? && !HasLabel(s.s1, k.value) {
      LowersS(w, s.s2, k, fp, sp, m1, m2, fuel);
    } else {
      LowersS(w, s.s1, k, fp, sp, m1, m2, fuel);
      var x1, x2 := MeanS(w, s.s1, k, fp, sp, m1, fuel), Exec(b, LowerS(s.s1), k, fp, sp, m2, fuel);
      if x1.Ok? && x1.v.Next? {
        AgreeFacts(w, x1, x2, m2, fp);
        LowersS(w, s.s2, None, fp, sp, x1.mem, x2.mem, x1.fuel);
        AgreeLater(w, MeanS(w, s.s2, None, fp, sp, x1.mem, x1.fuel), Exec(b, LowerS(s.s2), None, fp, sp, x2.mem,
          x2.fuel), m2, x2.mem, fp);
      }
    }
  }

  lemma LowersIf(w: World, s: SrcS, k: Option<Key>, fp: int, sp: int, m1: Mem, m2: Mem, fuel: nat)
    requires s.TIf? && Blind(w) && Home(w, fp, m2) && Near(w, m1, m2) && FitsS(s)
    ensures Agree(w, MeanS(w, s, k, fp, sp, m1, fuel), Exec(Bare(w), LowerS(s), k, fp, sp, m2, fuel), m2, fp)
    decreases fuel, s, 1
  {
    hide MeanE, EvalE, LowerP, FitsP, HasCase, Near, Home, Blind, Spared;
    var b := Bare(w);
    if k.Some? {
      if HasLabel(s.t, k.value) {
        LowersS(w, s.t, k, fp, sp, m1, m2, fuel);
      } else if s.f.Some? {
        LowersS(w, s.f.value, k, fp, sp, m1, m2, fuel);
      }
    } else {
      PartMeans(w, s.c, fp, sp, m1, m2, fuel);
      var c1, c2 := MeanE(w, s.c.e, fp, sp, m1, fuel), EvalE(b, LowerP(s.c), fp, sp, m2, fuel);
      if c1.Ok? {
        AgreeFacts(w, c1, c2, m2, fp);
        if c1.v != 0 || s.f.Some? {
          var x := if c1.v != 0 then s.t else s.f.value;
          LowersS(w, x, None, fp, sp, c1.mem, c2.mem, c1.fuel);
          AgreeLater(w, MeanS(w, x, None, fp, sp, c1.mem, c1.fuel), Exec(b, LowerS(x), None, fp, sp, c2.mem, c2.fuel),
            m2, c2.mem, fp);
        }
      }
    }
  }

  lemma LowersSwitch(w: World, s: SrcS, k: Option<Key>, fp: int, sp: int, m1: Mem, m2: Mem, fuel: nat)
    requires s.TSwitch? && Blind(w) && Home(w, fp, m2) && Near(w, m1, m2) && FitsS(s)
    ensures Agree(w, MeanS(w, s, k, fp, sp, m1, fuel), Exec(Bare(w), LowerS(s), k, fp, sp, m2, fuel), m2, fp)
    decreases fuel, s, 1
  {
    hide MeanE, EvalE, LowerP, FitsP, Near, Home, Blind, Spared;
    var b := Bare(w);
    PartMeans(w, s.c, fp, sp, m1, m2, fuel);
    var v1, v2 := MeanE(w, s.c.e, fp, sp, m1, fuel), EvalE(b, LowerP(s.c), fp, sp, m2, fuel);
    if v1.Ok? {
      AgreeFacts(w, v1, v2, m2, fp);
      if v1.v in s.keys || s.dflt {
        var to := Some(if v1.v in s.keys then CaseOf(v1.v) else Default);
        LowersS(w, s.body, to, fp, sp, v1.mem, v2.mem, v1.fuel);
        AgreeLater(w, MeanS(w, s.body, to, fp, sp, v1.mem, v1.fuel), Exec(b, LowerS(s.body), to, fp, sp, v2.mem,
          v2.fuel), m2, v2.mem, fp);
      }
    }
  }

  lemma LowersLoop(w: World, s: SrcS, k: Option<Key>, fp: int, sp: int, m1: Mem, m2: Mem, fuel: nat)
    requires s.TLoop? && Blind(w) && Home(w, fp, m2) && Near(w, m1, m2) && FitsS(s)
    ensures Agree(w, MeanS(w, s, k, fp, sp, m1, fuel), Exec(Bare(w), LowerS(s), k, fp, sp, m2, fuel), m2, fp)
    decreases fuel, s, 1
  {
    hide MeanO, EvalO, LowerO, FitsO, Tail, MeanTail, Near, Home, Blind, Spared;
    var b, q := Bare(w), LowerS(s);
    OptionMeans(w, s.cond, fp, sp, m1, m2, fuel);
    AgreeNow(w, 1, m1, m2, fuel, fp);
    var test := s.testFirst && k.None?;
    var t1 := if test then MeanO(w, s.cond, fp, sp, m1, fuel) else Ok(1, m1, fuel);
    var t2 := if test then EvalO(b, q.cond, fp, sp, m2, fuel) else Ok(1, m2, fuel);
    if t1.Ok? {
      AgreeFacts(w, t1, t2, m2, fp);
      if t1.v != 0 {
        LowersS(w, s.body, k, fp, sp, t1.mem, t2.mem, t1.fuel);
        var x1, x2 := MeanS(w, s.body, k, fp, sp, t1.mem, t1.fuel), Exec(b, q.body, k, fp, sp, t2.mem, t2.fuel);
        AgreeLater(w, x1, x2, m2, t2.mem, fp);
        if x1.Ok? && !x1.v.Gone? && !x1.v.Brk? {
          AgreeFacts(w, x1, x2, m2, fp);
          LowersTail(w, s, fp, sp, x1.mem, x2.mem, x1.fuel);
          AgreeLater(w, MeanTail(w, s, fp, sp, x1.mem, x1.fuel), Tail(b, q, fp, sp, x2.mem, x2.fuel), m2, x2.mem, fp);
        }
      }
    }
  }

  lemma LowersTail(w: World, s: SrcS, fp: int, sp: int, m1: Mem, m2: Mem, fuel: nat)
    requires s.TLoop? && Blind(w) && Home(w, fp, m2) && Near(w, m1, m2) && FitsS(s)
    ensures Agree(w, MeanTail(w, s, fp, sp, m1, fuel), Tail(Bare(w), LowerS(s), fp, sp, m2, fuel), m2, fp)
    decreases fuel, s, 0
  {
    hide MeanO, EvalO, LowerO, FitsO, Iterate, MeanLoop, Near, Home, Blind, Spared;
    var b, q := Bare(w), LowerS(s);
    OptionMeans(w, s.post, fp, sp, m1, m2, fuel);
    var p1, p2 := MeanO(w, s.post, fp, sp, m1, fuel), EvalO(b, q.post, fp, sp, m2, fuel);
    if p1.Ok? {
      AgreeFacts(w, p1, p2, m2, fp);
      OptionMeans(w, s.cond, fp, sp, p1.mem, p2.mem, p1.fuel);
      AgreeNow(w, 1, p1.mem, p2.mem, p1.fuel, fp);
      var u1 := if s.testFirst then Ok(1, p1.mem, p1.fuel) else MeanO(w, s.cond, fp, sp, p1.mem, p1.fuel);
      var u2 := if s.testFirst then Ok(1, p2.mem, p2.fuel) else EvalO(b, q.cond, fp, sp, p2.mem, p2.fuel);
      AgreeLater(w, u1, u2, m2, p2.mem, fp);
      if u1.Ok? {
        AgreeFacts(w, u1, u2, m2, fp);
        if u1.v != 0 && u1.fuel > 0 {
          LowersS(w, s, None, fp, sp, u1.mem, u2.mem, u1.fuel - 1);
          LoopMeans(w, s, fp, sp, u1.mem, u1.fuel - 1);
          LoopIs(b, q, fp, sp, u2.mem, u2.fuel - 1);
          AgreeLater(w, MeanLoop(w, s, None, fp, sp, u1.mem, u1.fuel - 1),
            Iterate(b, q, None, fp, sp, u2.mem, u2.fuel - 1), m2, u2.mem, fp);
        }
      }
    }
  }

  lemma LoopMeans(w: World, s: SrcS, fp: int, sp: int, mem: Mem, fuel: nat)
    requires s.TLoop?
    ensures MeanS(w, s, None, fp, sp, mem, fuel) == MeanLoop(w, s, None, fp, sp, mem, fuel)
  {
    hide MeanLoop;
  }

  /** A whole function, called with its frame where the fence is: as written and as
      the parser leaves it, the same result, the same fuel, and the same memory but
      for its own sixteen temporaries, which lie in the frame it gives up. */
  lemma FunctionMeans(w: World, f: SrcF, vs: seq<int>, top: int, mem: Mem, fuel: nat)
    requires Blind(w) && Home(w, top - 16, mem) && FitsS(f.body)
    ensures Agree(w, MeanF(w, f, vs, top, mem, fuel), RunFunc(Bare(w), LowerF(f), vs, top, mem, fuel), mem, top - 16)
  {
    hide PutParams, Exec, MeanS, LowerS, Near, Home, Blind, Spared, FitsS;
    var b, fp := Bare(w), top - 16;
    NearNow(w, mem);
    SparedNow(w, mem, fp);
    if fuel > 0 && fp - f.frame >= w.limit {
      BlindParams(w, f.params, vs, fp, mem, mem, fuel - 1);
      var p1, p2 := PutParams(w, f.params, vs, fp, mem, fuel - 1), PutParams(b, f.params, vs, fp, mem, fuel - 1);
      FromSame(w, p1, p2, mem, fp, 0, SLOTS);
      if p1.Ok? {
        AgreeFacts(w, p1, p2, mem, fp);
        LowersS(w, f.body, None, fp, fp - f.frame, p1.mem, p2.mem, fuel - 1);
        var r1, r2 := MeanS(w, f.body, None, fp, fp - f.frame, p1.mem, fuel - 1),
          Exec(b, LowerS(f.body), None, fp, fp - f.frame, p2.mem, fuel - 1);
        AgreeLater(w, r1, r2, mem, p2.mem, fp);
      }
    }
  }

  lemma NearNow(w: World, m: Mem)
    ensures Near(w, m, m)
  {
  }

  lemma SparedNow(w: World, m: Mem, fp: int)
    ensures Spared(w, m, m, fp, 0, SLOTS)
  {
  }
}
