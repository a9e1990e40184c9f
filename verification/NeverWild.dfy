// With nothing fenced off, a well-formed unit never reaches the outcome that
// stands for "no meaning": every program ends in a value, a trap or an abort.

module NeverWild {
  import opened Basics
  import opened Words
  import opened CTree
  import opened Gen
  import opened SimOpen
  import opened SimOpenS

  predicate Open(w: World) { w.lo >= w.hi && WellFormedUnit(w) }

  lemma GetPut(w: World, a: nat, ty: Ty, v: int, mem: Mem, fuel: nat)
    requires w.lo >= w.hi && ty.Int?
    ensures !Get(w, a, ty, mem, fuel).Wild? && !Put(w, a, ty, v, mem, fuel).Wild?
  {
  }

  lemma {:induction false} ParamsTame(w: World, ps: seq<Param>, vs: seq<int>, fp: int, mem: Mem, fuel: nat)
    requires w.lo >= w.hi
    ensures !PutParams(w, ps, vs, fp, mem, fuel).Wild?
    decreases |ps|
  {
    hide Put;
    if ps != [] && vs != [] {
      GetPut(w, Enc(fp + ps[0].off), Int(ps[0].w, true), vs[0], mem, fuel);
      var p := Put(w, Enc(fp + ps[0].off), Int(ps[0].w, true), vs[0], mem, fuel);
      if p.Ok? {
        ParamsTame(w, ps[1..], vs[1..], fp, p.mem, fuel);
      }
    }
  }

  lemma {:induction false} TameE(w: World, e: Expr, fp: int, sp: int, mem: Mem, fuel: nat)
    requires Open(w) && WellTyped(w, e)
    ensures !EvalE(w, e, fp, sp, mem, fuel).Wild?
    decreases fuel, e, 1
  {
    hide EvalE, EvalL, EvalA, WellTyped, WellTypedL, WellTypedA, ETy, Get, Put, Invoke, BinTraps, BinVal, CmpVal, Fits,
      As,
      UnaryVal, Truth;
    if e.Num? {
      TameNum(w, e, fp, sp, mem, fuel);
    } else if e.Load? || e.Addr? {
      var a := MeanLoad(w, e, fp, sp, mem, fuel);
      TameL(w, e.lv, fp, sp, mem, fuel);
      if a.Ok? && e.Load? {
        GetPut(w, a.v, e.ty, 0, a.mem, a.fuel);
      }
    } else if e.Assign? {
      var a, v := MeanAssign(w, e, fp, sp, mem, fuel);
      TameL(w, e.lv, fp, sp, mem, fuel);
      if a.Ok? {
        TameE(w, e.rhs, fp, sp - 8, a.mem, a.fuel);
        if v.Ok? {
          GetPut(w, a.v, e.ty, v.v, v.mem, v.fuel);
        }
      }
    } else if e.Cast? || e.Not? || e.BitNot? {
      var v := MeanUnary(w, e, fp, sp, mem, fuel);
      TameE(w, e.e, fp, sp, mem, fuel);
    } else {
      TameMore(w, e, fp, sp, mem, fuel);
    }
  }

  lemma TameNum(w: World, e: Expr, fp: int, sp: int, mem: Mem, fuel: nat)
    requires e.Num?
    ensures !EvalE(w, e, fp, sp, mem, fuel).Wild?
  {
  }

  lemma TameMore(w: World, e: Expr, fp: int, sp: int, mem: Mem, fuel: nat)
    requires Open(w) && WellTyped(w, e)
    requires e.Bin? || e.Cmp? || e.LogAnd? || e.LogOr? || e.Cond? || e.Comma? || e.Call?
    ensures !EvalE(w, e, fp, sp, mem, fuel).Wild?
    decreases fuel, e, 0
  {
    hide EvalE, EvalL, EvalA, WellTyped, WellTypedL, WellTypedA, ETy, Get, Put, Invoke, BinTraps, BinVal, CmpVal, Fits,
      As,
      UnaryVal, Truth;
    if e.Bin? {
      var y, x := MeanBin(w, e, fp, sp, mem, fuel);
      TameE(w, e.r, fp, sp, mem, fuel);
      if y.Ok? {
        TameE(w, e.l, fp, sp - 8, y.mem, y.fuel);
      }
    } else if e.Cmp? {
      var y, x := MeanCmp(w, e, fp, sp, mem, fuel);
      TameE(w, e.r, fp, sp, mem, fuel);
      if y.Ok? {
        TameE(w, e.l, fp, sp - 8, y.mem, y.fuel);
      }
    } else if e.LogAnd? || e.LogOr? {
      var x, y := MeanLog(w, e, fp, sp, mem, fuel);
      TameE(w, e.l, fp, sp, mem, fuel);
      if x.Ok? {
        TameE(w, e.r, fp, sp, x.mem, x.fuel);
      }
    } else if e.Cond? {
      var b, x := MeanCond(w, e, fp, sp, mem, fuel);
      TameE(w, e.c, fp, sp, mem, fuel);
      if b.Ok? {
        TameE(w, e.t, fp, sp, b.mem, b.fuel);
        TameE(w, e.f, fp, sp, b.mem, b.fuel);
      }
    } else if e.Comma? {
      var x, y := MeanComma(w, e, fp, sp, mem, fuel);
      TameE(w, e.l, fp, sp, mem, fuel);
      if x.Ok? {
        TameE(w, e.r, fp, sp, x.mem, x.fuel);
      }
    } else if e.Call? {
      var a, v := MeanCall(w, e, fp, sp, mem, fuel);
      TameA(w, e.args, fp, sp, mem, fuel);
      if a.Ok? && a.fuel > 0 {
        TameCall(w, e.callee, a.v, sp - sp % 16, a.mem, a.fuel - 1);
      }
    }
  }

  lemma {:induction false} TameL(w: World, lv: LVal, fp: int, sp: int, mem: Mem, fuel: nat)
    requires Open(w) && WellTypedL(w, lv)
    ensures !EvalL(w, lv, fp, sp, mem, fuel).Wild?
    decreases fuel, lv, 1
  {
    hide EvalE, WellTyped, ETy, Enc;
    match lv
    case Local(_) =>
    case Global(_) =>
    case Deref(e) => TameE(w, e, fp, sp, mem, fuel);
    case Member(x, _) => TameL(w, x, fp, sp, mem, fuel);
    case CommaL(e, x) =>
      TameE(w, e, fp, sp, mem, fuel);
      var v := EvalE(w, e, fp, sp, mem, fuel);
      if v.Ok? {
        TameL(w, x, fp, sp, v.mem, v.fuel);
      }
  }

  lemma {:induction false} TameA(w: World, args: Args, fp: int, sp: int, mem: Mem, fuel: nat)
    requires Open(w) && WellTypedA(w, args)
    ensures !EvalA(w, args, fp, sp, mem, fuel).Wild?
    decreases fuel, args, 1
  {
    hide EvalE, WellTyped, ETy;
    if args.Arg? {
      TameE(w, args.e, fp, sp, mem, fuel);
      var v := EvalE(w, args.e, fp, sp, mem, fuel);
      if v.Ok? {
        TameA(w, args.rest, fp, sp - 8, v.mem, v.fuel);
      }
    }
  }

  lemma TameCall(w: World, callee: Callee, vs: seq<int>, top: int, mem: Mem, fuel: nat)
    requires Open(w) && (callee.Unit? ==> callee.index < |w.funcs|)
    ensures !Invoke(w, callee, vs, top, mem, fuel).Wild?
    decreases fuel, 1
  {
    hide RunFunc;
    if callee.Unit? {
      TameF(w, callee.index, vs, top, mem, fuel);
    }
  }

  lemma TameF(w: World, i: nat, vs: seq<int>, top: int, mem: Mem, fuel: nat)
    requires Open(w) && i < |w.funcs|
    ensures !RunFunc(w, w.funcs[i], vs, top, mem, fuel).Wild?
    decreases fuel, 0
  {
    hide PutParams, Exec, WellFormed, Cases;
    var f := w.funcs[i];
    if fuel > 0 {
      ParamsTame(w, f.params, vs, top - 16, mem, fuel - 1);
      var p := PutParams(w, f.params, vs, top - 16, mem, fuel - 1);
      if p.Ok? {
        TameS(w, f.body, None, top - 16, top - 16 - f.frame, p.mem, fuel - 1, f.ret, false, false);
      }
    }
  }

  /** Also: a break or continue only gets out to where one is allowed. */
  ghost predicate Tame(r: Out<Flow>, brk: bool, cont: bool) {
    !r.Wild? && (r.Ok? ==> (r.v.Brk? ==> brk) && (r.v.Cont? ==> cont))
  }

  lemma {:induction false} TameS(w: World, s: Stmt, key: Option<Key>, fp: int, sp: int, mem: Mem, fuel: nat,
                                 ret: Ty, brk: bool, cont: bool)
    requires Open(w) && WellFormed(w, s, ret, brk, cont) && Enters(s, key)
    ensures Tame(Exec(w, s, key, fp, sp, mem, fuel), brk, cont)
    decreases fuel, s, 2
  {
    hide EvalE, WellTyped, ETy, HasCase, CaseOff, Enc, ZeroFill;
    match s
    case Nop =>
    case Break =>
    case Continue =>
    case MemZero(_, _) =>
    case Eval(e) => TameE(w, e, fp, sp, mem, fuel);
    case Return(r) =>
      if r.Some? {
        TameE(w, r.value, fp, sp, mem, fuel);
      }
    case Case(k, b) =>
      CaseEntry(s, key);
      TameS(w, b, if key == Some(k) then None else key, fp, sp, mem, fuel, ret, brk, cont);
    case Seq(_, _) => TameSeq(w, s, key, fp, sp, mem, fuel, ret, brk, cont);
    case If(_, _, _) => TameIf(w, s, key, fp, sp, mem, fuel, ret, brk, cont);
    case Loop(_, _, _, _) => TameLoop(w, s, key, fp, sp, mem, fuel, ret, brk, cont);
    case Switch(_, _, _, _) => TameSwitch(w, s, key, fp, sp, mem, fuel, ret, brk, cont);
  }

  lemma TameSeq(w: World, s: Stmt, key: Option<Key>, fp: int, sp: int, mem: Mem, fuel: nat,
                ret: Ty, brk: bool, cont: bool)
    requires s.Seq? && Open(w) && WellFormed(w, s, ret, brk, cont) && Enters(s, key)
    ensures Tame(Exec(w, s, key, fp, sp, mem, fuel), brk, cont)
    decreases fuel, s, 1
  {
    hide Exec, HasCase, CaseOff, Enters, Entry;
    SeqEntry(s, key);
    var x, y := MeanSeq(w, s, key, fp, sp, mem, fuel);
    if key.Some? && !HasCase(s.s1, key.value) {
      TameS(w, s.s2, key, fp, sp, mem, fuel, ret, brk, cont);
    } else {
      TameS(w, s.s1, key, fp, sp, mem, fuel, ret, brk, cont);
      if x.Ok? && x.v.Next? {
        NoKey(s.s2);
        TameS(w, s.s2, None, fp, sp, x.mem, x.fuel, ret, brk, cont);
      }
    }
  }

  lemma NoKey(s: Stmt)
    ensures Enters(s, None)
  {
  }

  lemma TameIf(w: World, s: Stmt, key: Option<Key>, fp: int, sp: int, mem: Mem, fuel: nat,
               ret: Ty, brk: bool, cont: bool)
    requires s.If? && Open(w) && WellFormed(w, s, ret, brk, cont) && Enters(s, key)
    ensures Tame(Exec(w, s, key, fp, sp, mem, fuel), brk, cont)
    decreases fuel, s, 1
  {
    hide Exec, HasCase, CaseOff, WellFormed, WellTyped, EvalE, ETy;
    IfTyped(w, s, ret, brk, cont);
    if key.Some? {
      MeanIfCase(w, s, key.value, fp, sp, mem, fuel);
      if HasCase(s.t, key.value) {
        TameS(w, s.t, key, fp, sp, mem, fuel, ret, brk, cont);
      } else {
        TameS(w, s.f.value, key, fp, sp, mem, fuel, ret, brk, cont);
      }
    } else {
      var b, x := MeanIf(w, s, fp, sp, mem, fuel);
      TameE(w, s.c, fp, sp, mem, fuel);
      if b.Ok? {
        TameS(w, s.t, None, fp, sp, b.mem, b.fuel, ret, brk, cont);
        if s.f.Some? {
          TameS(w, s.f.value, None, fp, sp, b.mem, b.fuel, ret, brk, cont);
        }
      }
    }
  }

  lemma TameO(w: World, c: Option<Expr>, fp: int, sp: int, mem: Mem, fuel: nat)
    requires Open(w) && (c.Some? ==> WellTyped(w, c.value))
    ensures !EvalO(w, c, fp, sp, mem, fuel).Wild?
    decreases fuel, c, 1
  {
    hide EvalE, WellTyped;
    if c.Some? {
      TameE(w, c.value, fp, sp, mem, fuel);
    }
  }

  lemma TameLoop(w: World, s: Stmt, key: Option<Key>, fp: int, sp: int, mem: Mem, fuel: nat,
                 ret: Ty, brk: bool, cont: bool)
    requires s.Loop? && Open(w) && WellFormed(w, s, ret, brk, cont) && Enters(s, key)
    ensures Tame(Exec(w, s, key, fp, sp, mem, fuel), brk, cont)
    decreases fuel, s, 1
  {
    hide Exec, HasCase, CaseOff, WellFormed, WellTyped, EvalE, EvalO, ETy, Enters, Entry, Tail;
    LoopTyped(w, s, ret, brk, cont);
    LoopEntry(s, key);
    var t, b := MeanIterate(w, s, key, fp, sp, mem, fuel);
    TameO(w, s.cond, fp, sp, mem, fuel);
    if t.Ok? && t.v != 0 {
      TameS(w, s.body, key, fp, sp, t.mem, t.fuel, ret, true, true);
      if b.Ok? {
        TameTail(w, s, fp, sp, b.mem, b.fuel, ret, brk, cont);
      }
    }
  }

  lemma TameTail(w: World, s: Stmt, fp: int, sp: int, mem: Mem, fuel: nat, ret: Ty, brk: bool, cont: bool)
    requires s.Loop? && Open(w) && WellFormed(w, s, ret, brk, cont)
    ensures Tame(Tail(w, s, fp, sp, mem, fuel), brk, cont)
    decreases fuel, s, 0
  {
    hide Exec, WellFormed, WellTyped, EvalE, EvalO, ETy, Tail;
    LoopTyped(w, s, ret, brk, cont);
    var p, u := MeanTail(w, s, fp, sp, mem, fuel);
    TameO(w, s.post, fp, sp, mem, fuel);
    if p.Ok? {
      TameO(w, s.cond, fp, sp, p.mem, p.fuel);
      if u.Ok? && u.fuel > 0 {
        TameS(w, s, None, fp, sp, u.mem, u.fuel - 1, ret, brk, cont);
      }
    }
  }

  lemma TameSwitch(w: World, s: Stmt, key: Option<Key>, fp: int, sp: int, mem: Mem, fuel: nat,
                   ret: Ty, brk: bool, cont: bool)
    requires s.Switch? && Open(w) && WellFormed(w, s, ret, brk, cont)
    ensures Tame(Exec(w, s, key, fp, sp, mem, fuel), brk, cont)
    decreases fuel, s, 1
  {
    hide Exec, HasCase, CaseOff, WellFormed, WellTyped, EvalE, ETy, Fits;
    var v, x, to := MeanSwitch(w, s, key, fp, sp, mem, fuel);
    SwitchLabels(w, s, ret, brk, cont, if v.Ok? then v.v else 0);
    TameE(w, s.c, fp, sp, mem, fuel);
    if v.Ok? && (v.v in s.keys || s.dflt) {
      TameS(w, s.body, Some(to), fp, sp, v.mem, v.fuel, ret, true, cont);
    }
  }
}
