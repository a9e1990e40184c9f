// A fenced region and the world without the fence: as long as the fenced run
// makes no access to the region, the open run does the same thing, whatever the
// region holds, and leaves the region alone.

module CFence {
  import opened Basics
  import opened Words
  import opened CTree

  function Bare(w: World): World { w.(lo := 0, hi := 0) }

  predicate In(w: World, i: int) { w.lo <= i < w.hi }

  /** Equal outside the fence. */
  predicate Near(w: World, m1: Mem, m2: Mem) {
    |m1| == |m2| && forall i :: 0 <= i < |m1| && !In(w, i) ==> m1[i] == m2[i]
  }

  /** Equal inside the fence. */
  predicate Kept(w: World, m: Mem, r: Mem) {
    |m| == |r| && forall i :: 0 <= i < |m| && In(w, i) ==> m[i] == r[i]
  }

  /** Kernel functions neither look into the fenced region nor write to it. */
  ghost predicate Blind(w: World) {
    forall addr: Word, args: seq<Word>, m1: Mem, m2: Mem, fuel: int :: Near(w, m1, m2) ==>
      var k1, k2 := w.kern(addr, args, m1, fuel), w.kern(addr, args, m2, fuel);
      k1.v == k2.v && Near(w, k1.mem, k2.mem) && Kept(w, m2, k2.mem)
  }

  /** `r1`, from the fenced run, and `r2`, from the open run started in `m`, agree. */
  predicate Same<T(==)>(w: World, r1: Out<T>, r2: Out<T>, m: Mem) {
    match r1
    case Ok(v, m1, f) => r2.Ok? && r2.v == v && r2.fuel == f && Near(w, m1, r2.mem) && Kept(w, m, r2.mem)
    case Trap => r2.Trap?
    case NoFuel(m1) => r2.NoFuel? && Near(w, m1, r2.mem) && Kept(w, m, r2.mem)
    case NoStack(m1, f) => r2.NoStack? && r2.fuel == f && Near(w, m1, r2.mem) && Kept(w, m, r2.mem)
    case Wild => true
  }


  /** Agreement from a later memory is agreement from the first. */
  lemma SameLater<T>(w: World, r1: Out<T>, r2: Out<T>, m: Mem, later: Mem)
    requires Kept(w, m, later) && Same(w, r1, r2, later)
    ensures Same(w, r1, r2, m)
  {
  }

  lemma SameNow<T>(w: World, v: T, m1: Mem, m2: Mem, fuel: nat)
    requires Near(w, m1, m2)
    ensures Same(w, Ok(v, m1, fuel), Ok(v, m2, fuel), m2)
  {
  }

  // ---- single accesses -----------------------------------------------------------------

  lemma BlindGet(w: World, a: nat, ty: Ty, m1: Mem, m2: Mem, fuel: nat)
    requires Near(w, m1, m2)
    ensures Same(w, Get(w, a, ty, m1, fuel), Get(Bare(w), a, ty, m2, fuel), m2)
  {
    if ty.Int? && a + ty.w.Bytes() <= |m1| && !Fenced(w, a, ty.w.Bytes()) {
      LoadCong(m1, m2, a, ty.w.Bytes());
    }
  }

  lemma {:induction false} StoreNear(w: World, m1: Mem, m2: Mem, a: nat, v: int, n: nat)
    requires Near(w, m1, m2) && a + n <= |m1| && (forall i :: a <= i < a + n ==> !In(w, i))
    ensures Near(w, StoreLE(m1, a, v, n), StoreLE(m2, a, v, n)) && Kept(w, m2, StoreLE(m2, a, v, n))
    decreases n
  {
    if n > 0 {
      StoreNear(w, m1[a := v % 256], m2[a := v % 256], a + 1, v / 256, n - 1);
    }
  }

  lemma BlindPut(w: World, a: nat, ty: Ty, v: int, m1: Mem, m2: Mem, fuel: nat)
    requires Near(w, m1, m2)
    ensures Same(w, Put(w, a, ty, v, m1, fuel), Put(Bare(w), a, ty, v, m2, fuel), m2)
  {
    if ty.Int? && a + ty.w.Bytes() <= |m1| && !Fenced(w, a, ty.w.Bytes()) {
      StoreNear(w, m1, m2, a, v, ty.w.Bytes());
    }
  }

  lemma {:induction false} ZeroNear(w: World, m1: Mem, m2: Mem, a: nat, n: nat)
    requires Near(w, m1, m2) && a + n <= |m1| && (forall i :: a <= i < a + n ==> !In(w, i))
    ensures Near(w, ZeroFill(m1, a, n), ZeroFill(m2, a, n)) && Kept(w, m2, ZeroFill(m2, a, n))
    decreases n
  {
    if n > 0 {
      ZeroNear(w, m1[a := 0], m2[a := 0], a + 1, n - 1);
    }
  }

  lemma {:induction false} BlindParams(w: World, ps: seq<Param>, vs: seq<int>, fp: int, m1: Mem, m2: Mem, fuel: nat)
    requires Near(w, m1, m2)
    ensures Same(w, PutParams(w, ps, vs, fp, m1, fuel), PutParams(Bare(w), ps, vs, fp, m2, fuel), m2)
    decreases |ps|
  {
    hide Put, Near, Kept, Enc;
    if ps == [] || vs == [] {
      SameNow(w, 0, m1, m2, fuel);
    } else {
      var a, ty := Enc(fp + ps[0].off), Int(ps[0].w, true);
      BlindPut(w, a, ty, vs[0], m1, m2, fuel);
      var p1, p2 := Put(w, a, ty, vs[0], m1, fuel), Put(Bare(w), a, ty, vs[0], m2, fuel);
      if p1.Ok? {
        BlindParams(w, ps[1..], vs[1..], fp, p1.mem, p2.mem, fuel);
        SameLater(w, PutParams(w, ps[1..], vs[1..], fp, p1.mem, fuel), PutParams(Bare(w), ps[1..], vs[1..], fp, p2.mem,
          fuel), m2, p2.mem);
      }
    }
  }

  // ---- expressions --------------------------------------------------------------------------

  lemma {:induction false} BlindE(w: World, e: Expr, fp: int, sp: int, m1: Mem, m2: Mem, fuel: nat)
    requires Blind(w) && Near(w, m1, m2)
    ensures Same(w, EvalE(w, e, fp, sp, m1, fuel), EvalE(Bare(w), e, fp, sp, m2, fuel), m2)
    decreases fuel, e, 1
  {
    hide EvalE, Near, Kept, Blind;
    if e.Num? {
      BlindNum(w, e, fp, sp, m1, m2, fuel);
    } else if e.Load? || e.Addr? || e.Assign? {
      BlindAccess(w, e, fp, sp, m1, m2, fuel);
    } else if e.Cast? || e.Not? || e.BitNot? {
      BlindUnary(w, e, fp, sp, m1, m2, fuel);
    } else if e.Bin? || e.Cmp? {
      BlindBinary(w, e, fp, sp, m1, m2, fuel);
    } else if e.LogAnd? || e.LogOr? || e.Comma? {
      BlindLogical(w, e, fp, sp, m1, m2, fuel);
    } else if e.Cond? {
      BlindCond(w, e, fp, sp, m1, m2, fuel);
    } else {
      BlindCall(w, e, fp, sp, m1, m2, fuel);
    }
  }

  lemma BlindNum(w: World, e: Expr, fp: int, sp: int, m1: Mem, m2: Mem, fuel: nat)
    requires e.Num? && Near(w, m1, m2)
    ensures Same(w, EvalE(w, e, fp, sp, m1, fuel), EvalE(Bare(w), e, fp, sp, m2, fuel), m2)
  {
  }

  lemma BlindAccess(w: World, e: Expr, fp: int, sp: int, m1: Mem, m2: Mem, fuel: nat)
    requires (e.Load? || e.Addr? || e.Assign?) && Blind(w) && Near(w, m1, m2)
    ensures Same(w, EvalE(w, e, fp, sp, m1, fuel), EvalE(Bare(w), e, fp, sp, m2, fuel), m2)
    decreases fuel, e, 0
  {
    hide EvalL, Get, Put, Near, Kept, Blind;
    var b := Bare(w);
    BlindL(w, e.lv, fp, sp, m1, m2, fuel);
    var a1, a2 := EvalL(w, e.lv, fp, sp, m1, fuel), EvalL(b, e.lv, fp, sp, m2, fuel);
    if a1.Ok? && e.Load? {
      BlindGet(w, a1.v, e.ty, a1.mem, a2.mem, a1.fuel);
      SameLater(w, Get(w, a1.v, e.ty, a1.mem, a1.fuel), Get(b, a2.v, e.ty, a2.mem, a2.fuel), m2, a2.mem);
    } else if a1.Ok? && e.Assign? {
      BlindE(w, e.rhs, fp, sp - 8, a1.mem, a2.mem, a1.fuel);
      var v1, v2 := EvalE(w, e.rhs, fp, sp - 8, a1.mem, a1.fuel), EvalE(b, e.rhs, fp, sp - 8, a2.mem, a2.fuel);
      SameLater(w, v1, v2, m2, a2.mem);
      if v1.Ok? {
        BlindPut(w, a1.v, e.ty, v1.v, v1.mem, v2.mem, v1.fuel);
        SameLater(w, Put(w, a1.v, e.ty, v1.v, v1.mem, v1.fuel), Put(b, a2.v, e.ty, v2.v, v2.mem, v2.fuel), m2, v2.mem);
      }
    }
  }

  lemma BlindUnary(w: World, e: Expr, fp: int, sp: int, m1: Mem, m2: Mem, fuel: nat)
    requires (e.Cast? || e.Not? || e.BitNot?) && Blind(w) && Near(w, m1, m2)
    ensures Same(w, EvalE(w, e, fp, sp, m1, fuel), EvalE(Bare(w), e, fp, sp, m2, fuel), m2)
    decreases fuel, e, 0
  {
    hide Near, Kept, Blind, As, Truth;
    BlindE(w, e.e, fp, sp, m1, m2, fuel);
  }

  lemma BlindBinary(w: World, e: Expr, fp: int, sp: int, m1: Mem, m2: Mem, fuel: nat)
    requires (e.Bin? || e.Cmp?) && Blind(w) && Near(w, m1, m2)
    ensures Same(w, EvalE(w, e, fp, sp, m1, fuel), EvalE(Bare(w), e, fp, sp, m2, fuel), m2)
    decreases fuel, e, 0
  {
    hide Near, Kept, Blind, BinTraps, BinVal, CmpVal;
    var b := Bare(w);
    BlindE(w, e.r, fp, sp, m1, m2, fuel);
    var y1, y2 := EvalE(w, e.r, fp, sp, m1, fuel), EvalE(b, e.r, fp, sp, m2, fuel);
    if y1.Ok? {
      BlindE(w, e.l, fp, sp - 8, y1.mem, y2.mem, y1.fuel);
      SameLater(w, EvalE(w, e.l, fp, sp - 8, y1.mem, y1.fuel), EvalE(b, e.l, fp, sp - 8, y2.mem, y2.fuel), m2, y2.mem);
    }
  }

  lemma BlindLogical(w: World, e: Expr, fp: int, sp: int, m1: Mem, m2: Mem, fuel: nat)
    requires (e.LogAnd? || e.LogOr? || e.Comma?) && Blind(w) && Near(w, m1, m2)
    ensures Same(w, EvalE(w, e, fp, sp, m1, fuel), EvalE(Bare(w), e, fp, sp, m2, fuel), m2)
    decreases fuel, e, 0
  {
    hide Near, Kept, Blind, Truth;
    var b := Bare(w);
    BlindE(w, e.l, fp, sp, m1, m2, fuel);
    var x1, x2 := EvalE(w, e.l, fp, sp, m1, fuel), EvalE(b, e.l, fp, sp, m2, fuel);
    if x1.Ok? {
      BlindE(w, e.r, fp, sp, x1.mem, x2.mem, x1.fuel);
      SameLater(w, EvalE(w, e.r, fp, sp, x1.mem, x1.fuel), EvalE(b, e.r, fp, sp, x2.mem, x2.fuel), m2, x2.mem);
    }
  }

  lemma BlindCond(w: World, e: Expr, fp: int, sp: int, m1: Mem, m2: Mem, fuel: nat)
    requires e.Cond? && Blind(w) && Near(w, m1, m2)
    ensures Same(w, EvalE(w, e, fp, sp, m1, fuel), EvalE(Bare(w), e, fp, sp, m2, fuel), m2)
    decreases fuel, e, 0
  {
    hide Near, Kept, Blind;
    var b := Bare(w);
    BlindE(w, e.c, fp, sp, m1, m2, fuel);
    var c1, c2 := EvalE(w, e.c, fp, sp, m1, fuel), EvalE(b, e.c, fp, sp, m2, fuel);
    if c1.Ok? {
      var x := if c1.v != 0 then e.t else e.f;
      BlindE(w, x, fp, sp, c1.mem, c2.mem, c1.fuel);
      SameLater(w, EvalE(w, x, fp, sp, c1.mem, c1.fuel), EvalE(b, x, fp, sp, c2.mem, c2.fuel), m2, c2.mem);
    }
  }

  lemma BlindCall(w: World, e: Expr, fp: int, sp: int, m1: Mem, m2: Mem, fuel: nat)
    requires e.Call? && Blind(w) && Near(w, m1, m2)
    ensures Same(w, EvalE(w, e, fp, sp, m1, fuel), EvalE(Bare(w), e, fp, sp, m2, fuel), m2)
    decreases fuel, e, 0
  {
    hide Near, Kept, Blind, As, EvalA, Invoke;
    var b := Bare(w);
    BlindA(w, e.args, fp, sp, m1, m2, fuel);
    var a1, a2 := EvalA(w, e.args, fp, sp, m1, fuel), EvalA(b, e.args, fp, sp, m2, fuel);
    if a1.Ok? && a1.fuel > 0 {
      var top := sp - sp % 16;
      BlindInvoke(w, e.callee, a1.v, top, a1.mem, a2.mem, a1.fuel - 1);
      SameLater(w, Invoke(w, e.callee, a1.v, top, a1.mem, a1.fuel - 1),
        Invoke(b, e.callee, a2.v, top, a2.mem, a2.fuel - 1), m2, a2.mem);
    }
  }

  lemma {:induction false} BlindL(w: World, lv: LVal, fp: int, sp: int, m1: Mem, m2: Mem, fuel: nat)
    requires Blind(w) && Near(w, m1, m2)
    ensures Same(w, EvalL(w, lv, fp, sp, m1, fuel), EvalL(Bare(w), lv, fp, sp, m2, fuel), m2)
    decreases fuel, lv, 1
  {
    hide EvalE, Near, Kept, Blind, Enc;
    var b := Bare(w);
    match lv
    case Local(off) => SameNow(w, Enc(fp + off) as int, m1, m2, fuel);
    case Global(a) => SameNow(w, Enc(a) as int, m1, m2, fuel);
    case Deref(e) => BlindE(w, e, fp, sp, m1, m2, fuel);
    case Member(x, _) => BlindL(w, x, fp, sp, m1, m2, fuel);
    case CommaL(e, x) =>
      BlindE(w, e, fp, sp, m1, m2, fuel);
      var v1, v2 := EvalE(w, e, fp, sp, m1, fuel), EvalE(b, e, fp, sp, m2, fuel);
      if v1.Ok? {
        BlindL(w, x, fp, sp, v1.mem, v2.mem, v1.fuel);
        SameLater(w, EvalL(w, x, fp, sp, v1.mem, v1.fuel), EvalL(b, x, fp, sp, v2.mem, v2.fuel), m2, v2.mem);
      }
  }

  lemma {:induction false} BlindA(w: World, args: Args, fp: int, sp: int, m1: Mem, m2: Mem, fuel: nat)
    requires Blind(w) && Near(w, m1, m2)
    ensures Same(w, EvalA(w, args, fp, sp, m1, fuel), EvalA(Bare(w), args, fp, sp, m2, fuel), m2)
    decreases fuel, args, 1
  {
    hide EvalE, Near, Kept, Blind;
    var b := Bare(w);
    if args.NoArgs? {
      var none: seq<int> := [];
      SameNow(w, none, m1, m2, fuel);
    } else {
      BlindE(w, args.e, fp, sp, m1, m2, fuel);
      var v1, v2 := EvalE(w, args.e, fp, sp, m1, fuel), EvalE(b, args.e, fp, sp, m2, fuel);
      if v1.Ok? {
        BlindA(w, args.rest, fp, sp - 8, v1.mem, v2.mem, v1.fuel);
        SameLater(w, EvalA(w, args.rest, fp, sp - 8, v1.mem, v1.fuel),
          EvalA(b, args.rest, fp, sp - 8, v2.mem, v2.fuel), m2, v2.mem);
      }
    }
  }

  lemma BlindInvoke(w: World, callee: Callee, vs: seq<int>, top: int, m1: Mem, m2: Mem, fuel: nat)
    requires Blind(w) && Near(w, m1, m2)
    ensures Same(w, Invoke(w, callee, vs, top, m1, fuel), Invoke(Bare(w), callee, vs, top, m2, fuel), m2)
    decreases fuel, 1
  {
    hide RunFunc, Near, Kept, Encs;
    if callee.Unit? {
      if callee.index < |w.funcs| {
        BlindFunc(w, w.funcs[callee.index], vs, top, m1, m2, fuel);
      }
    } else {
      var k1, k2 := w.kern(callee.addr, Encs(vs), m1, fuel), w.kern(callee.addr, Encs(vs), m2, fuel);
      assert k1.v == k2.v && Near(w, k1.mem, k2.mem) && Kept(w, m2, k2.mem);
    }
  }

  // ---- functions and statements ------------------------------------------------------------------

  lemma BlindFunc(w: World, f: Func, vs: seq<int>, top: int, m1: Mem, m2: Mem, fuel: nat)
    requires Blind(w) && Near(w, m1, m2)
    ensures Same(w, RunFunc(w, f, vs, top, m1, fuel), RunFunc(Bare(w), f, vs, top, m2, fuel), m2)
    decreases fuel, 0
  {
    hide PutParams, Exec, Near, Kept, Blind;
    var b, fp := Bare(w), top - 16;
    KeptNow(w, m2);
    if fuel > 0 && fp - f.frame >= w.limit {
      BlindParams(w, f.params, vs, fp, m1, m2, fuel - 1);
      var p1, p2 := PutParams(w, f.params, vs, fp, m1, fuel - 1), PutParams(b, f.params, vs, fp, m2, fuel - 1);
      if p1.Ok? {
        BlindS(w, f.body, None, fp, fp - f.frame, p1.mem, p2.mem, fuel - 1);
        SameLater(w, Exec(w, f.body, None, fp, fp - f.frame, p1.mem, fuel - 1),
          Exec(b, f.body, None, fp, fp - f.frame, p2.mem, fuel - 1), m2, p2.mem);
      }
    }
  }

  lemma KeptNow(w: World, m: Mem)
    ensures Kept(w, m, m)
  {
  }

  lemma {:induction false} BlindS(w: World, s: Stmt, k: Option<Key>, fp: int, sp: int, m1: Mem, m2: Mem, fuel: nat)
    requires Blind(w) && Near(w, m1, m2)
    ensures Same(w, Exec(w, s, k, fp, sp, m1, fuel), Exec(Bare(w), s, k, fp, sp, m2, fuel), m2)
    decreases fuel, s, 2
  {
    hide Exec, Near, Kept, Blind;
    match s
    case Seq(_, _) => BlindSeq(w, s, k, fp, sp, m1, m2, fuel);
    case If(_, _, _) => BlindIf(w, s, k, fp, sp, m1, m2, fuel);
    case Loop(_, _, _, _) => BlindLoop(w, s, k, fp, sp, m1, m2, fuel);
    case Switch(_, _, _, _) => BlindSwitch(w, s, k, fp, sp, m1, m2, fuel);
    case Case(_, _) => BlindCase(w, s, k, fp, sp, m1, m2, fuel);
    case _ => BlindSimple(w, s, k, fp, sp, m1, m2, fuel);
  }

  lemma BlindSimple(w: World, s: Stmt, k: Option<Key>, fp: int, sp: int, m1: Mem, m2: Mem, fuel: nat)
    requires !s.Seq? && !s.If? && !s.Loop? && !s.Switch? && !s.Case? && Blind(w) && Near(w, m1, m2)
    ensures Same(w, Exec(w, s, k, fp, sp, m1, fuel), Exec(Bare(w), s, k, fp, sp, m2, fuel), m2)
    decreases fuel, s, 1
  {
    hide EvalE, Blind, Enc, ZeroFill;
    match s
    case Eval(e) => BlindE(w, e, fp, sp, m1, m2, fuel);
    case Return(r) =>
      if r.Some? {
        BlindE(w, r.value, fp, sp, m1, m2, fuel);
      }
    case MemZero(off, n) =>
      var a := Enc(fp + off);
      if n > 0 && a + n <= |m1| && !Fenced(w, a, n) {
        ZeroNear(w, m1, m2, a, n);
      }
    case _ =>
  }

  lemma BlindCase(w: World, s: Stmt, k: Option<Key>, fp: int, sp: int, m1: Mem, m2: Mem, fuel: nat)
    requires s.Case? && Blind(w) && Near(w, m1, m2)
    ensures Same(w, Exec(w, s, k, fp, sp, m1, fuel), Exec(Bare(w), s, k, fp, sp, m2, fuel), m2)
    decreases fuel, s, 1
  {
    hide EvalE, Near, Kept, Blind;
    BlindS(w, s.body, if k == Some(s.key) then None else k, fp, sp, m1, m2, fuel);
  }

  lemma BlindSeq(w: World, s: Stmt, k: Option<Key>, fp: int, sp: int, m1: Mem, m2: Mem, fuel: nat)
    requires s.Seq? && Blind(w) && Near(w, m1, m2)
    ensures Same(w, Exec(w, s, k, fp, sp, m1, fuel), Exec(Bare(w), s, k, fp, sp, m2, fuel), m2)
    decreases fuel, s, 1
  {
    hide EvalE, HasCase, Near, Kept, Blind;
    var b := Bare(w);
    if k.Some? && !HasCase(s.s1, k.value) {
      BlindS(w, s.s2, k, fp, sp, m1, m2, fuel);
    } else {
      BlindS(w, s.s1, k, fp, sp, m1, m2, fuel);
      var x1, x2 := Exec(w, s.s1, k, fp, sp, m1, fuel), Exec(b, s.s1, k, fp, sp, m2, fuel);
      if x1.Ok? && x1.v.Next? {
        BlindS(w, s.s2, None, fp, sp, x1.mem, x2.mem, x1.fuel);
        SameLater(w, Exec(w, s.s2, None, fp, sp, x1.mem, x1.fuel), Exec(b, s.s2, None, fp, sp, x2.mem, x2.fuel), m2,
          x2.mem);
      }
    }
  }

  lemma BlindIf(w: World, s: Stmt, k: Option<Key>, fp: int, sp: int, m1: Mem, m2: Mem, fuel: nat)
    requires s.If? && Blind(w) && Near(w, m1, m2)
    ensures Same(w, Exec(w, s, k, fp, sp, m1, fuel), Exec(Bare(w), s, k, fp, sp, m2, fuel), m2)
    decreases fuel, s, 1
  {
    hide EvalE, HasCase, Near, Kept, Blind;
    var b := Bare(w);
    if k.Some? {
      if HasCase(s.t, k.value) {
        BlindS(w, s.t, k, fp, sp, m1, m2, fuel);
      } else if s.f.Some? {
        BlindS(w, s.f.value, k, fp, sp, m1, m2, fuel);
      }
    } else {
      BlindE(w, s.c, fp, sp, m1, m2, fuel);
      var c1, c2 := EvalE(w, s.c, fp, sp, m1, fuel), EvalE(b, s.c, fp, sp, m2, fuel);
      if c1.Ok? && (c1.v != 0 || s.f.Some?) {
        var x := if c1.v != 0 then s.t else s.f.value;
        BlindS(w, x, None, fp, sp, c1.mem, c2.mem, c1.fuel);
        SameLater(w, Exec(w, x, None, fp, sp, c1.mem, c1.fuel), Exec(b, x, None, fp, sp, c2.mem, c2.fuel), m2, c2.mem);
      }
    }
  }

  lemma BlindO(w: World, c: Option<Expr>, fp: int, sp: int, m1: Mem, m2: Mem, fuel: nat)
    requires Blind(w) && Near(w, m1, m2)
    ensures Same(w, EvalO(w, c, fp, sp, m1, fuel), EvalO(Bare(w), c, fp, sp, m2, fuel), m2)
    decreases fuel, c, 1
  {
    hide EvalE, Near, Kept, Blind;
    if c.Some? {
      BlindE(w, c.value, fp, sp, m1, m2, fuel);
    } else {
      SameNow(w, 1, m1, m2, fuel);
    }
  }

  lemma BlindLoop(w: World, s: Stmt, k: Option<Key>, fp: int, sp: int, m1: Mem, m2: Mem, fuel: nat)
    requires s.Loop? && Blind(w) && Near(w, m1, m2)
    ensures Same(w, Exec(w, s, k, fp, sp, m1, fuel), Exec(Bare(w), s, k, fp, sp, m2, fuel), m2)
    decreases fuel, s, 1
  {
    hide EvalE, EvalO, Tail, Near, Kept, Blind;
    var b := Bare(w);
    BlindO(w, s.cond, fp, sp, m1, m2, fuel);
    SameNow(w, 1, m1, m2, fuel);
    var test := s.testFirst && k.None?;
    var t1 := if test then EvalO(w, s.cond, fp, sp, m1, fuel) else Ok(1, m1, fuel);
    var t2 := if test then EvalO(b, s.cond, fp, sp, m2, fuel) else Ok(1, m2, fuel);
    if t1.Ok? && t1.v != 0 {
      BlindS(w, s.body, k, fp, sp, t1.mem, t2.mem, t1.fuel);
      var x1, x2 := Exec(w, s.body, k, fp, sp, t1.mem, t1.fuel), Exec(b, s.body, k, fp, sp, t2.mem, t2.fuel);
      SameLater(w, x1, x2, m2, t2.mem);
      if x1.Ok? && !x1.v.Gone? && !x1.v.Brk? {
        BlindTail(w, s, fp, sp, x1.mem, x2.mem, x1.fuel);
        SameLater(w, Tail(w, s, fp, sp, x1.mem, x1.fuel), Tail(b, s, fp, sp, x2.mem, x2.fuel), m2, x2.mem);
      }
    }
  }

  lemma BlindTail(w: World, s: Stmt, fp: int, sp: int, m1: Mem, m2: Mem, fuel: nat)
    requires s.Loop? && Blind(w) && Near(w, m1, m2)
    ensures Same(w, Tail(w, s, fp, sp, m1, fuel), Tail(Bare(w), s, fp, sp, m2, fuel), m2)
    decreases fuel, s, 0
  {
    hide EvalE, EvalO, Iterate, Near, Kept, Blind;
    var b := Bare(w);
    BlindO(w, s.post, fp, sp, m1, m2, fuel);
    var p1, p2 := EvalO(w, s.post, fp, sp, m1, fuel), EvalO(b, s.post, fp, sp, m2, fuel);
    if p1.Ok? {
      BlindO(w, s.cond, fp, sp, p1.mem, p2.mem, p1.fuel);
      SameNow(w, 1, p1.mem, p2.mem, p1.fuel);
      var u1 := if s.testFirst then Ok(1, p1.mem, p1.fuel) else EvalO(w, s.cond, fp, sp, p1.mem, p1.fuel);
      var u2 := if s.testFirst then Ok(1, p2.mem, p2.fuel) else EvalO(b, s.cond, fp, sp, p2.mem, p2.fuel);
      SameLater(w, u1, u2, m2, p2.mem);
      if u1.Ok? && u1.v != 0 && u1.fuel > 0 {
        BlindS(w, s, None, fp, sp, u1.mem, u2.mem, u1.fuel - 1);
        LoopIs(w, s, fp, sp, u1.mem, u1.fuel - 1);
        LoopIs(b, s, fp, sp, u2.mem, u2.fuel - 1);
        SameLater(w, Iterate(w, s, None, fp, sp, u1.mem, u1.fuel - 1),
          Iterate(b, s, None, fp, sp, u2.mem, u2.fuel - 1), m2, u2.mem);
      }
    }
  }

  lemma LoopIs(w: World, s: Stmt, fp: int, sp: int, mem: Mem, fuel: nat)
    requires s.Loop?
    ensures Exec(w, s, None, fp, sp, mem, fuel) == Iterate(w, s, None, fp, sp, mem, fuel)
  {
    hide Iterate;
  }

  lemma BlindSwitch(w: World, s: Stmt, k: Option<Key>, fp: int, sp: int, m1: Mem, m2: Mem, fuel: nat)
    requires s.Switch? && Blind(w) && Near(w, m1, m2)
    ensures Same(w, Exec(w, s, k, fp, sp, m1, fuel), Exec(Bare(w), s, k, fp, sp, m2, fuel), m2)
    decreases fuel, s, 1
  {
    hide EvalE, Near, Kept, Blind;
    var b := Bare(w);
    BlindE(w, s.c, fp, sp, m1, m2, fuel);
    var v1, v2 := EvalE(w, s.c, fp, sp, m1, fuel), EvalE(b, s.c, fp, sp, m2, fuel);
    if v1.Ok? && (v1.v in s.keys || s.dflt) {
      var to := Some(if v1.v in s.keys then CaseOf(v1.v) else Default);
      BlindS(w, s.body, to, fp, sp, v1.mem, v2.mem, v1.fuel);
      SameLater(w, Exec(w, s.body, to, fp, sp, v1.mem, v1.fuel), Exec(b, s.body, to, fp, sp, v2.mem, v2.fuel), m2,
        v2.mem);
    }
  }
}
