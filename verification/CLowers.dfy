// The form with hidden temporaries means what was written: the lvalue is
// evaluated once, nested compound assignments do not disturb each other, and
// nothing but the temporaries differs in memory.

module CLowers {
  import opened Basics
  import opened Words
  import opened CTree
  import opened CFence
  import opened CUpdate

  /** The fence is this frame's sixteen temporaries. */
  predicate Home(w: World, fp: int, m: Mem) { w.lo == fp - 8 * SLOTS && w.hi == fp && 8 * SLOTS <= fp <= |m| }

  /** Of the temporaries only those from `n` up to `n2` may have changed. */
  predicate Spared(w: World, m: Mem, r: Mem, fp: int, n: nat, n2: nat) {
    |m| == |r| && forall i :: 0 <= i < |m| && In(w, i) && !(fp - 8 * n2 <= i < fp - 8 * n) ==> m[i] == r[i]
  }

  /** The outcome as written and the outcome of the lowered form agree. */
  predicate Fine<T(==)>(w: World, r1: Out<T>, r2: Out<T>, m: Mem, fp: int, n: nat, n2: nat) {
    match r1
    case Ok(v, m1, f) => r2.Ok? && r2.v == v && r2.fuel == f && Near(w, m1, r2.mem) && Spared(w, m, r2.mem, fp, n, n2)
    case Trap => r2.Trap?
    case NoFuel(m1) => r2.NoFuel? && Near(w, m1, r2.mem) && Spared(w, m, r2.mem, fp, n, n2)
    case NoStack(m1, f) => r2.NoStack? && r2.fuel == f && Near(w, m1, r2.mem) && Spared(w, m, r2.mem, fp, n, n2)
    case Wild => true
  }

  lemma FromSame<T>(w: World, r1: Out<T>, r2: Out<T>, m: Mem, fp: int, n: nat, n2: nat)
    requires Same(w, r1, r2, m) && n <= n2
    ensures Fine(w, r1, r2, m, fp, n, n2)
  {
  }

  lemma FineNow<T>(w: World, v: T, m1: Mem, m2: Mem, fuel: nat, fp: int, n: nat)
    requires Near(w, m1, m2)
    ensures Fine(w, Ok(v, m1, fuel), Ok(v, m2, fuel), m2, fp, n, n)
  {
  }

  /** First temporaries a..b, then c..d: together some of n..n2. */
  lemma FineLater<T>(w: World, r1: Out<T>, r2: Out<T>, m: Mem, later: Mem, fp: int, a: nat, b: nat, c: nat, d: nat,
                     n: nat, n2: nat)
    requires Spared(w, m, later, fp, a, b) && Fine(w, r1, r2, later, fp, c, d)
    requires n <= a <= b <= n2 && n <= c <= d <= n2
    ensures Fine(w, r1, r2, m, fp, n, n2)
  {
  }

  lemma FineWider<T>(w: World, r1: Out<T>, r2: Out<T>, m: Mem, fp: int, a: nat, b: nat, n: nat, n2: nat)
    requires Fine(w, r1, r2, m, fp, a, b) && n <= a <= b <= n2
    ensures Fine(w, r1, r2, m, fp, n, n2)
  {
  }

  lemma HomeStays(w: World, fp: int, m: Mem, r: Mem)
    requires Home(w, fp, m) && |r| == |m|
    ensures Home(w, fp, r)
  {
  }

  // ---- expressions ---------------------------------------------------------------------------

  lemma {:induction false} LowersE(w: World, e: Src, n: nat, fp: int, sp: int, m1: Mem, m2: Mem, fuel: nat)
    requires Blind(w) && Home(w, fp, m2) && Near(w, m1, m2) && Lower(e, n).1 <= SLOTS
    ensures Fine(w, MeanE(w, e, fp, sp, m1, fuel), EvalE(Bare(w), Lower(e, n).0, fp, sp, m2, fuel), m2, fp, n,
            Lower(e, n).1)
    decreases fuel, e, 1
  {
    hide MeanE, EvalE, Lower, Near, Home, Blind, Spared;
    if e.SNum? {
      LowersNum(w, e, n, fp, sp, m1, m2, fuel);
    } else if e.SLoad? || e.SAddr? {
      LowersLoad(w, e, n, fp, sp, m1, m2, fuel);
    } else if e.SAssign? {
      LowersAssign(w, e, n, fp, sp, m1, m2, fuel);
    } else if e.SUnary? {
      LowersUnary(w, e, n, fp, sp, m1, m2, fuel);
    } else if e.SBin? || e.SCmp? {
      LowersBinary(w, e, n, fp, sp, m1, m2, fuel);
    } else if e.SLog? || e.SComma? {
      LowersLogical(w, e, n, fp, sp, m1, m2, fuel);
    } else if e.SCond? {
      LowersCond(w, e, n, fp, sp, m1, m2, fuel);
    } else if e.SCall? {
      LowersCall(w, e, n, fp, sp, m1, m2, fuel);
    } else {
      LowersUpdate(w, e, n, fp, sp, m1, m2, fuel);
    }
  }

  lemma LowersNum(w: World, e: Src, n: nat, fp: int, sp: int, m1: Mem, m2: Mem, fuel: nat)
    requires e.SNum? && Near(w, m1, m2)
    ensures Fine(w, MeanE(w, e, fp, sp, m1, fuel), EvalE(Bare(w), Lower(e, n).0, fp, sp, m2, fuel), m2, fp, n,
            Lower(e, n).1)
  {
  }

  lemma LowersLoad(w: World, e: Src, n: nat, fp: int, sp: int, m1: Mem, m2: Mem, fuel: nat)
    requires (e.SLoad? || e.SAddr?) && Blind(w) && Home(w, fp, m2) && Near(w, m1, m2) && Lower(e, n).1 <= SLOTS
    ensures Fine(w, MeanE(w, e, fp, sp, m1, fuel), EvalE(Bare(w), Lower(e, n).0, fp, sp, m2, fuel), m2, fp, n,
            Lower(e, n).1)
    decreases fuel, e, 0
  {
    hide MeanL, EvalL, LowerL, Get, Near, Home, Blind, Spared;
    var b, at := Bare(w), LowerL(e.lv, n);
    LowersL(w, e.lv, n, fp, sp, m1, m2, fuel);
    var a1, a2 := MeanL(w, e.lv, fp, sp, m1, fuel), EvalL(b, at.0, fp, sp, m2, fuel);
    if a1.Ok? && e.SLoad? {
      BlindGet(w, a1.v, e.ty, a1.mem, a2.mem, a1.fuel);
      var g1, g2 := Get(w, a1.v, e.ty, a1.mem, a1.fuel), Get(b, a2.v, e.ty, a2.mem, a2.fuel);
      FromSame(w, g1, g2, a2.mem, fp, n, n);
      FineLater(w, g1, g2, m2, a2.mem, fp, n, at.1, n, n, n, at.1);
    }
  }

  lemma LowersAssign(w: World, e: Src, n: nat, fp: int, sp: int, m1: Mem, m2: Mem, fuel: nat)
    requires e.SAssign? && Blind(w) && Home(w, fp, m2) && Near(w, m1, m2) && Lower(e, n).1 <= SLOTS
    ensures Fine(w, MeanE(w, e, fp, sp, m1, fuel), EvalE(Bare(w), Lower(e, n).0, fp, sp, m2, fuel), m2, fp, n,
            Lower(e, n).1)
    decreases fuel, e, 0
  {
    hide MeanL, EvalL, LowerL, Put, Near, Home, Blind;
    var b, at := Bare(w), LowerL(e.lv, n);
    var rhs := Lower(e.rhs, at.1);
    LowersL(w, e.lv, n, fp, sp, m1, m2, fuel);
    var a1, a2 := MeanL(w, e.lv, fp, sp, m1, fuel), EvalL(b, at.0, fp, sp, m2, fuel);
    FineWider(w, a1, a2, m2, fp, n, at.1, n, rhs.1);
    if a1.Ok? {
      HomeStays(w, fp, m2, a2.mem);
      LowersE(w, e.rhs, at.1, fp, sp - 8, a1.mem, a2.mem, a1.fuel);
      var v1, v2 := MeanE(w, e.rhs, fp, sp - 8, a1.mem, a1.fuel), EvalE(b, rhs.0, fp, sp - 8, a2.mem, a2.fuel);
      FineLater(w, v1, v2, m2, a2.mem, fp, n, at.1, at.1, rhs.1, n, rhs.1);
      if v1.Ok? {
        BlindPut(w, a1.v, e.ty, v1.v, v1.mem, v2.mem, v1.fuel);
        var p1, p2 := Put(w, a1.v, e.ty, v1.v, v1.mem, v1.fuel), Put(b, a2.v, e.ty, v2.v, v2.mem, v2.fuel);
        FromSame(w, p1, p2, v2.mem, fp, n, n);
        FineLater(w, p1, p2, m2, v2.mem, fp, n, rhs.1, n, n, n, rhs.1);
      }
    }
  }

  lemma LowersUnary(w: World, e: Src, n: nat, fp: int, sp: int, m1: Mem, m2: Mem, fuel: nat)
    requires e.SUnary? && Blind(w) && Home(w, fp, m2) && Near(w, m1, m2) && Lower(e, n).1 <= SLOTS
    ensures Fine(w, MeanE(w, e, fp, sp, m1, fuel), EvalE(Bare(w), Lower(e, n).0, fp, sp, m2, fuel), m2, fp, n,
            Lower(e, n).1)
    decreases fuel, e, 0
  {
    hide Near, Home, Blind, Spared, As, Truth;
    LowersE(w, e.x, n, fp, sp, m1, m2, fuel);
  }

  lemma LowersBinary(w: World, e: Src, n: nat, fp: int, sp: int, m1: Mem, m2: Mem, fuel: nat)
    requires (e.SBin? || e.SCmp?) && Blind(w) && Home(w, fp, m2) && Near(w, m1, m2) && Lower(e, n).1 <= SLOTS
    ensures Fine(w, MeanE(w, e, fp, sp, m1, fuel), EvalE(Bare(w), Lower(e, n).0, fp, sp, m2, fuel), m2, fp, n,
            Lower(e, n).1)
    decreases fuel, e, 0
  {
    hide Near, Home, Blind, BinTraps, BinVal, CmpVal;
    var b, x := Bare(w), Lower(e.l, n);
    var y := Lower(e.r, x.1);
    LowersE(w, e.r, x.1, fp, sp, m1, m2, fuel);
    var y1, y2 := MeanE(w, e.r, fp, sp, m1, fuel), EvalE(b, y.0, fp, sp, m2, fuel);
    FineWider(w, y1, y2, m2, fp, x.1, y.1, n, y.1);
    if y1.Ok? {
      HomeStays(w, fp, m2, y2.mem);
      LowersE(w, e.l, n, fp, sp - 8, y1.mem, y2.mem, y1.fuel);
      var x1, x2 := MeanE(w, e.l, fp, sp - 8, y1.mem, y1.fuel), EvalE(b, x.0, fp, sp - 8, y2.mem, y2.fuel);
      FineLater(w, x1, x2, m2, y2.mem, fp, x.1, y.1, n, x.1, n, y.1);
    }
  }

  lemma LowersLogical(w: World, e: Src, n: nat, fp: int, sp: int, m1: Mem, m2: Mem, fuel: nat)
    requires (e.SLog? || e.SComma?) && Blind(w) && Home(w, fp, m2) && Near(w, m1, m2) && Lower(e, n).1 <= SLOTS
    ensures Fine(w, MeanE(w, e, fp, sp, m1, fuel), EvalE(Bare(w), Lower(e, n).0, fp, sp, m2, fuel), m2, fp, n,
            Lower(e, n).1)
    decreases fuel, e, 0
  {
    hide Near, Home, Blind, Truth;
    var b, x := Bare(w), Lower(e.l, n);
    var y := Lower(e.r, x.1);
    LowersE(w, e.l, n, fp, sp, m1, m2, fuel);
    var x1, x2 := MeanE(w, e.l, fp, sp, m1, fuel), EvalE(b, x.0, fp, sp, m2, fuel);
    FineWider(w, x1, x2, m2, fp, n, x.1, n, y.1);
    if x1.Ok? {
      HomeStays(w, fp, m2, x2.mem);
      LowersE(w, e.r, x.1, fp, sp, x1.mem, x2.mem, x1.fuel);
      var y1, y2 := MeanE(w, e.r, fp, sp, x1.mem, x1.fuel), EvalE(b, y.0, fp, sp, x2.mem, x2.fuel);
      FineLater(w, y1, y2, m2, x2.mem, fp, n, x.1, x.1, y.1, n, y.1);
    }
  }

  lemma LowersCond(w: World, e: Src, n: nat, fp: int, sp: int, m1: Mem, m2: Mem, fuel: nat)
    requires e.SCond? && Blind(w) && Home(w, fp, m2) && Near(w, m1, m2) && Lower(e, n).1 <= SLOTS
    ensures Fine(w, MeanE(w, e, fp, sp, m1, fuel), EvalE(Bare(w), Lower(e, n).0, fp, sp, m2, fuel), m2, fp, n,
            Lower(e, n).1)
    decreases fuel, e, 0
  {
    hide Near, Home, Blind;
    var b, c := Bare(w), Lower(e.c, n);
    var t := Lower(e.t, c.1);
    var f := Lower(e.f, t.1);
    LowersE(w, e.c, n, fp, sp, m1, m2, fuel);
    var c1, c2 := MeanE(w, e.c, fp, sp, m1, fuel), EvalE(b, c.0, fp, sp, m2, fuel);
    FineWider(w, c1, c2, m2, fp, n, c.1, n, f.1);
    if c1.Ok? {
      HomeStays(w, fp, m2, c2.mem);
      if c1.v != 0 {
        LowersE(w, e.t, c.1, fp, sp, c1.mem, c2.mem, c1.fuel);
        FineLater(w, MeanE(w, e.t, fp, sp, c1.mem, c1.fuel), EvalE(b, t.0, fp, sp, c2.mem, c2.fuel), m2, c2.mem, fp, n,
          c.1, c.1, t.1, n, f.1);
      } else {
        LowersE(w, e.f, t.1, fp, sp, c1.mem, c2.mem, c1.fuel);
        FineLater(w, MeanE(w, e.f, fp, sp, c1.mem, c1.fuel), EvalE(b, f.0, fp, sp, c2.mem, c2.fuel), m2, c2.mem, fp, n,
          c.1, t.1, f.1, n, f.1);
      }
    }
  }

  lemma LowersCall(w: World, e: Src, n: nat, fp: int, sp: int, m1: Mem, m2: Mem, fuel: nat)
    requires e.SCall? && Blind(w) && Home(w, fp, m2) && Near(w, m1, m2) && Lower(e, n).1 <= SLOTS
    ensures Fine(w, MeanE(w, e, fp, sp, m1, fuel), EvalE(Bare(w), Lower(e, n).0, fp, sp, m2, fuel), m2, fp, n,
            Lower(e, n).1)
    decreases fuel, e, 0
  {
    hide Near, Home, Blind, As, MeanA, EvalA, LowerA, Invoke, Spared;
    var b, args := Bare(w), LowerA(e.args, n);
    LowersA(w, e.args, n, fp, sp, m1, m2, fuel);
    var a1, a2 := MeanA(w, e.args, fp, sp, m1, fuel), EvalA(b, args.0, fp, sp, m2, fuel);
    if a1.Ok? && a1.fuel > 0 {
      var top := sp - sp % 16;
      BlindInvoke(w, e.callee, a1.v, top, a1.mem, a2.mem, a1.fuel - 1);
      var v1, v2 := Invoke(w, e.callee, a1.v, top, a1.mem, a1.fuel - 1),
        Invoke(b, e.callee, a2.v, top, a2.mem, a2.fuel - 1);
      FromSame(w, v1, v2, a2.mem, fp, n, n);
      FineLater(w, v1, v2, m2, a2.mem, fp, n, args.1, n, n, n, args.1);
    }
  }

  lemma {:induction false} LowersL(w: World, lv: SrcL, n: nat, fp: int, sp: int, m1: Mem, m2: Mem, fuel: nat)
    requires Blind(w) && Home(w, fp, m2) && Near(w, m1, m2) && LowerL(lv, n).1 <= SLOTS
    ensures Fine(w, MeanL(w, lv, fp, sp, m1, fuel), EvalL(Bare(w), LowerL(lv, n).0, fp, sp, m2, fuel), m2, fp, n,
            LowerL(lv, n).1)
    decreases fuel, lv, 1
  {
    hide MeanE, EvalE, Lower, Near, Home, Blind, Enc;
    var b := Bare(w);
    match lv
    case SLocal(off) => FineNow(w, Enc(fp + off) as int, m1, m2, fuel, fp, n);
    case SGlobal(a) => FineNow(w, Enc(a) as int, m1, m2, fuel, fp, n);
    case SDeref(e) => LowersE(w, e, n, fp, sp, m1, m2, fuel);
    case SMember(x, _) => LowersL(w, x, n, fp, sp, m1, m2, fuel);
    case SCommaL(e, x) =>
      var v := Lower(e, n);
      var a := LowerL(x, v.1);
      LowersE(w, e, n, fp, sp, m1, m2, fuel);
      var v1, v2 := MeanE(w, e, fp, sp, m1, fuel), EvalE(b, v.0, fp, sp, m2, fuel);
      FineWider(w, v1, v2, m2, fp, n, v.1, n, a.1);
      if v1.Ok? {
        HomeStays(w, fp, m2, v2.mem);
        LowersL(w, x, v.1, fp, sp, v1.mem, v2.mem, v1.fuel);
        FineLater(w, MeanL(w, x, fp, sp, v1.mem, v1.fuel), EvalL(b, a.0, fp, sp, v2.mem, v2.fuel), m2, v2.mem, fp, n,
          v.1, v.1, a.1, n, a.1);
      }
  }

  lemma {:induction false} LowersA(w: World, args: SrcA, n: nat, fp: int, sp: int, m1: Mem, m2: Mem, fuel: nat)
    requires Blind(w) && Home(w, fp, m2) && Near(w, m1, m2) && LowerA(args, n).1 <= SLOTS
    ensures Fine(w, MeanA(w, args, fp, sp, m1, fuel), EvalA(Bare(w), LowerA(args, n).0, fp, sp, m2, fuel), m2, fp, n,
            LowerA(args, n).1)
    decreases fuel, args, 1
  {
    hide MeanE, EvalE, Lower, Near, Home, Blind;
    var b := Bare(w);
    if args.SNone? {
      var none: seq<int> := [];
      FineNow(w, none, m1, m2, fuel, fp, n);
    } else {
      var v := Lower(args.e, n);
      var a := LowerA(args.rest, v.1);
      LowersE(w, args.e, n, fp, sp, m1, m2, fuel);
      var v1, v2 := MeanE(w, args.e, fp, sp, m1, fuel), EvalE(b, v.0, fp, sp, m2, fuel);
      FineWider(w, v1, v2, m2, fp, n, v.1, n, a.1);
      if v1.Ok? {
        HomeStays(w, fp, m2, v2.mem);
        LowersA(w, args.rest, v.1, fp, sp - 8, v1.mem, v2.mem, v1.fuel);
        FineLater(w, MeanA(w, args.rest, fp, sp - 8, v1.mem, v1.fuel), EvalA(b, a.0, fp, sp - 8, v2.mem, v2.fuel), m2,
          v2.mem, fp, n, v.1, v.1, a.1, n, a.1);
      }
    }
  }

  // ---- the update itself ------------------------------------------------------------------------

  /** Where temporary `n` lies. */
  function TempAt(fp: int, n: nat): int { fp - 8 * (n + 1) }

  lemma TempInside(w: World, fp: int, n: nat, m: Mem)
    requires Home(w, fp, m) && n < SLOTS
    ensures 0 <= TempAt(fp, n) && TempAt(fp, n) + 8 <= |m| && Enc(fp - 8 * (n + 1)) == TempAt(fp, n)
    ensures forall i :: TempAt(fp, n) <= i < TempAt(fp, n) + 8 ==> In(w, i)
  {
  }

  /** The first half: the address goes into the temporary. */
  lemma SetsTemp(b: World, lv: LVal, n: nat, fp: int, sp: int, m: Mem, fuel: nat, at: nat)
    requires b.lo >= b.hi && at == Enc(fp - 8 * (n + 1)) && at + 8 <= |m|
    requires EvalL(b, lv, fp, sp - 8, m, fuel).Ok? ==> |EvalL(b, lv, fp, sp - 8, m, fuel).mem| == |m|
    ensures var a := EvalL(b, lv, fp, sp - 8, m, fuel);
            EvalE(b, Assign(PTR, Temp(n), Addr(lv)), fp, sp, m, fuel)
            == if a.Ok? then Ok(a.v, StoreLE(a.mem, at, a.v, 8), a.fuel) else a
  {
    hide StoreLE;
    var a := EvalL(b, lv, fp, sp - 8, m, fuel);
    assert EvalE(b, Addr(lv), fp, sp - 8, m, fuel) == a;
    assert EvalL(b, Temp(n), fp, sp, m, fuel) == Ok(at, m, fuel);
  }

  /** Reading it back. */
  lemma ReadsTemp(b: World, n: nat, fp: int, sp: int, m: Mem, fuel: nat, at: nat, a: nat)
    requires b.lo >= b.hi && at == Enc(fp - 8 * (n + 1)) && at + 8 <= |m| && a < 0x1_0000_0000_0000_0000
    requires LoadLE(m, at, 8) == a
    ensures EvalL(b, Deref(Load(PTR, Temp(n))), fp, sp, m, fuel) == Ok(a, m, fuel)
  {
    hide LoadLE;
    assert EvalL(b, Temp(n), fp, sp, m, fuel) == Ok(at, m, fuel);
    assert Get(b, at, PTR, m, fuel) == Ok(a, m, fuel);
    assert EvalE(b, Load(PTR, Temp(n)), fp, sp, m, fuel) == Ok(a, m, fuel);
  }

  /** The second half's value, from the operand's outcome and the old value's. */
  function Joined(up: Up, ty: Ty, x: Out<int>, y: Out<int>): Out<int> {
    if !y.Ok? then y
    else if !x.Ok? then x
    else if !ty.Int? || (up.Arith? && !up.ct.Int?) then Wild
    else
      var v := Updated(up, ty, x.v, y.v);
      if v.None? then Trap else Ok(v.value, x.mem, x.fuel)
  }

  lemma CombinedArith(b: World, up: Up, ty: Ty, was: Expr, rhs: Expr, fp: int, sp: int, m: Mem, fuel: nat, y: Out<int>,
                      x: Out<int>)
    requires up.Arith? && (x.Ok? ==> ty.Int?)
    requires y == EvalE(b, rhs, fp, sp, m, fuel)
    requires x == (if y.Ok? then EvalE(b, was, fp, sp - 8, y.mem, y.fuel) else Wild)
    ensures EvalE(b, Combined(up, ty, was, rhs), fp, sp, m, fuel) == Joined(up, ty, x, y)
  {
    hide BinTraps, BinVal, As;
    var r, l := Cast(up.ct, rhs), Cast(up.ct, was);
    assert EvalE(b, r, fp, sp, m, fuel) == if y.Ok? then Ok(As(y.v, up.ct), y.mem, y.fuel) else y;
    if y.Ok? {
      assert EvalE(b, l, fp, sp - 8, y.mem, y.fuel) == if x.Ok? then Ok(As(x.v, up.ct), x.mem, x.fuel) else x;
    }
  }

  lemma CombinedShift(b: World, up: Up, ty: Ty, was: Expr, rhs: Expr, fp: int, sp: int, m: Mem, fuel: nat, y: Out<int>,
                      x: Out<int>)
    requires up.Shift? && (x.Ok? ==> ty.Int?)
    requires y == EvalE(b, rhs, fp, sp, m, fuel)
    requires x == (if y.Ok? then EvalE(b, was, fp, sp - 8, y.mem, y.fuel) else Wild)
    ensures EvalE(b, Combined(up, ty, was, rhs), fp, sp, m, fuel) == Joined(up, ty, x, y)
  {
    hide BinVal, As;
    assert EvalE(b, Cast(INT, rhs), fp, sp, m, fuel) == if y.Ok? then Ok(As(y.v, INT), y.mem, y.fuel) else y;
  }

  lemma CombinedStep(b: World, up: Up, ty: Ty, was: Expr, rhs: Expr, fp: int, sp: int, m: Mem, fuel: nat, y: Out<int>,
                     x: Out<int>)
    requires up.Step? && (x.Ok? ==> ty.Int?)
    requires y == EvalE(b, rhs, fp, sp - 8, m, fuel)
    requires x == (if y.Ok? then EvalE(b, was, fp, sp - 8, y.mem, y.fuel) else Wild)
    ensures EvalE(b, Combined(up, ty, was, rhs), fp, sp, m, fuel) == Joined(up, ty, x, y)
  {
    hide BinVal, As;
    var size := Num(LONG, up.size);
    var cast := Cast(LONG, rhs);
    assert EvalE(b, size, fp, sp, m, fuel) == Ok(up.size, m, fuel);
    assert EvalE(b, cast, fp, sp - 8, m, fuel) == if y.Ok? then Ok(As(y.v, LONG), y.mem, y.fuel) else y;
    var scaled := Bin(Mul, LONG, cast, size);
    assert EvalE(b, scaled, fp, sp, m, fuel) == if y.Ok? then Ok(BinVal(Mul, LONG, As(y.v, LONG), up.size), y.mem,
      y.fuel) else y;
  }

  /** The whole: with the temporary still holding the address once the operand is
      done, the hidden form is one read-modify-write at that address. */
  lemma HiddenMeans(b: World, up: Up, ty: Ty, lv: LVal, rhs: Expr, n: nat, fp: int, sp: int, m: Mem, fuel: nat,
                    at: nat, a: Out<int>, m3: Mem, y: Out<int>)
    requires b.lo >= b.hi && at == Enc(fp - 8 * (n + 1)) && at + 8 <= |m|
    requires a == EvalL(b, lv, fp, sp - 8, m, fuel) && a.Ok? && |a.mem| == |m| && m3 == StoreLE(a.mem, at, a.v, 8)
    requires y == EvalE(b, rhs, fp, OperandAt(up, sp), m3, a.fuel)
    requires y.Ok? ==> |y.mem| == |m| && LoadLE(y.mem, at, 8) == a.v
    requires LoadLE(m3, at, 8) == a.v
    ensures EvalE(b, Hidden(up, ty, lv, rhs, n), fp, sp, m, fuel) == Modify(b, up, ty, a.v, y)
  {
    hide StoreLE, LoadLE, Combined, Updated, EvalL, Put, Get, Enc;
    var place := Deref(Load(PTR, Temp(n)));
    var was := Load(ty, place);
    var val := Combined(up, ty, was, rhs);
    SetsTemp(b, lv, n, fp, sp, m, fuel, at);
    ReadsTemp(b, n, fp, sp, m3, a.fuel, at, a.v);
    var x := if y.Ok? then EvalE(b, was, fp, sp - 16, y.mem, y.fuel) else Wild;
    if y.Ok? {
      ReadsTemp(b, n, fp, sp - 16, y.mem, y.fuel, at, a.v);
      assert x == Get(b, a.v, ty, y.mem, y.fuel);
      GotInt(b, a.v, ty, y.mem, y.fuel);
    }
    match up {
      case Arith(_, _) => CombinedArith(b, up, ty, was, rhs, fp, sp - 8, m3, a.fuel, y, x);
      case Shift(_) => CombinedShift(b, up, ty, was, rhs, fp, sp - 8, m3, a.fuel, y, x);
      case Step(_, _) => CombinedStep(b, up, ty, was, rhs, fp, sp - 8, m3, a.fuel, y, x);
    }
    var v := EvalE(b, val, fp, sp - 8, m3, a.fuel);
    assert v == Joined(up, ty, x, y);
    assert EvalE(b, Assign(ty, place, val), fp, sp, m3, a.fuel) == if v.Ok? then Put(b, a.v, ty, v.v, v.mem,
      v.fuel) else v;
  }

  lemma BlindModify(w: World, up: Up, ty: Ty, a: nat, y1: Out<int>, y2: Out<int>)
    requires y1.Ok? && y2.Ok? && y1.v == y2.v && y1.fuel == y2.fuel && Near(w, y1.mem, y2.mem)
    ensures Same(w, Modify(w, up, ty, a, y1), Modify(Bare(w), up, ty, a, y2), y2.mem)
  {
    hide Get, Put, Near, Kept, Updated;
    var b := Bare(w);
    BlindGet(w, a, ty, y1.mem, y2.mem, y1.fuel);
    var x1, x2 := Get(w, a, ty, y1.mem, y1.fuel), Get(b, a, ty, y2.mem, y2.fuel);
    if x1.Ok? && !(up.Arith? && !up.ct.Int?) {
      GotInt(w, a, ty, y1.mem, y1.fuel);
      var v := Updated(up, ty, x1.v, y1.v);
      if v.Some? {
        BlindPut(w, a, ty, v.value, x1.mem, x2.mem, x1.fuel);
        SameLater(w, Put(w, a, ty, v.value, x1.mem, x1.fuel), Put(b, a, ty, v.value, x2.mem, x2.fuel), y2.mem, x2.mem);
      }
    }
  }

  lemma GotInt(w: World, a: nat, ty: Ty, m: Mem, fuel: nat)
    ensures Get(w, a, ty, m, fuel).Ok? ==> ty.Int?
  {
  }

  /** Storing into a temporary is invisible from outside the fence, and spares
      the other temporaries. */
  lemma TempStored(w: World, fp: int, n: nat, m1: Mem, m2: Mem, a: nat)
    requires Home(w, fp, m2) && n < SLOTS && Near(w, m1, m2) && a < 0x1_0000_0000_0000_0000
    requires 0 <= TempAt(fp, n) && TempAt(fp, n) + 8 <= |m2|
    ensures var m3 := StoreLE(m2, TempAt(fp, n), a, 8);
            Near(w, m1, m3) && Spared(w, m2, m3, fp, n, n + 1) && Home(w, fp, m3) && LoadLE(m3, TempAt(fp, n), 8) == a
  {
    hide StoreLE, LoadLE;
    var at := TempAt(fp, n);
    var m3 := StoreLE(m2, at, a, 8);
    TempInside(w, fp, n, m2);
    forall i | 0 <= i < |m2| && !(at <= i < at + 8)
      ensures m3[i] == m2[i]
    {
      StoreElsewhere(m2, at, a, 8, i);
    }
    LoadStore(m2, at, a, 8);
    Pow256Eight();
    SmallMod(a, Pow256(8));
  }

  /** Temporaries outside those touched keep what they hold. */
  lemma TempHeld(w: World, fp: int, n: nat, c: nat, d: nat, m: Mem, r: Mem)
    requires Home(w, fp, m) && n < SLOTS && c <= d <= n && Spared(w, m, r, fp, c, d)
    requires 0 <= TempAt(fp, n) && TempAt(fp, n) + 8 <= |m|
    ensures LoadLE(r, TempAt(fp, n), 8) == LoadLE(m, TempAt(fp, n), 8)
  {
    hide LoadLE;
    TempInside(w, fp, n, m);
    LoadCong(r, m, TempAt(fp, n), 8);
  }

  lemma LowersUpdate(w: World, e: Src, n: nat, fp: int, sp: int, m1: Mem, m2: Mem, fuel: nat)
    requires e.SUpdate? && Blind(w) && Home(w, fp, m2) && Near(w, m1, m2) && Lower(e, n).1 <= SLOTS
    ensures Fine(w, MeanE(w, e, fp, sp, m1, fuel), EvalE(Bare(w), Lower(e, n).0, fp, sp, m2, fuel), m2, fp, n,
            Lower(e, n).1)
    decreases fuel, e, 0
  {
    hide MeanE, MeanL, EvalE, EvalL, Lower, LowerL, Near, Home, Blind, Modify, StoreLE, LoadLE, Hidden, Spared, Enc;
    var b, at := Bare(w), LowerL(e.lv, n);
    var rhs := Lower(e.rhs, at.1);
    OpensUpdate(w, e, n, fp, sp, m1, fuel);
    LowersL(w, e.lv, n, fp, sp - 8, m1, m2, fuel);
    var a1, a2 := MeanL(w, e.lv, fp, sp - 8, m1, fuel), EvalL(b, at.0, fp, sp - 8, m2, fuel);
    FineWider(w, a1, a2, m2, fp, n, at.1, n, rhs.1 + 1);
    TempInside(w, fp, rhs.1, m2);
    if a1.Ok? {
      UpdateAfter(w, e, n, fp, sp, m2, fuel, at, rhs, a1, a2);
    } else if !a1.Wild? {
      HiddenFails(b, e.up, e.ty, at.0, rhs.0, rhs.1, fp, sp, m2, fuel, TempAt(fp, rhs.1));
    }
  }

  lemma OpensUpdate(w: World, e: Src, n: nat, fp: int, sp: int, m1: Mem, fuel: nat)
    requires e.SUpdate?
    ensures var at := LowerL(e.lv, n);
            var rhs := Lower(e.rhs, at.1);
            var a := MeanL(w, e.lv, fp, sp - 8, m1, fuel);
            && Lower(e, n) == (Hidden(e.up, e.ty, at.0, rhs.0, rhs.1), rhs.1 + 1)
            && MeanE(w, e, fp, sp, m1, fuel)
               == if !a.Ok? then a else Modify(w, e.up, e.ty, a.v, MeanE(w, e.rhs, fp, OperandAt(e.up, sp), a.mem,
                 a.fuel))
  {
    hide Hidden, Modify;
  }

  lemma HiddenFails(b: World, up: Up, ty: Ty, lv: LVal, rhs: Expr, n: nat, fp: int, sp: int, m: Mem, fuel: nat, at: nat)
    requires b.lo >= b.hi && at == Enc(fp - 8 * (n + 1)) && at + 8 <= |m| && !EvalL(b, lv, fp, sp - 8, m, fuel).Ok?
    ensures EvalE(b, Hidden(up, ty, lv, rhs, n), fp, sp, m, fuel) == EvalL(b, lv, fp, sp - 8, m, fuel)
  {
    hide Combined, EvalL, StoreLE;
    SetsTemp(b, lv, n, fp, sp, m, fuel, at);
  }

  /** From the address on. */
  lemma UpdateAfter(w: World, e: Src, n: nat, fp: int, sp: int, m2: Mem, fuel: nat, at: (LVal, nat), rhs: (Expr, nat),
                    a1: Out<int>, a2: Out<int>)
    requires e.SUpdate? && Blind(w) && Home(w, fp, m2) && at == LowerL(e.lv, n) && rhs == Lower(e.rhs, at.1)
    requires rhs.1 < SLOTS
    requires a1.Ok? && a1.fuel <= fuel && 0 <= a1.v < 0x1_0000_0000_0000_0000
    requires a2 == EvalL(Bare(w), at.0, fp, sp - 8, m2, fuel) && Fine(w, a1, a2, m2, fp, n, at.1)
    ensures Fine(w, Modify(w, e.up, e.ty, a1.v, MeanE(w, e.rhs, fp, OperandAt(e.up, sp), a1.mem, a1.fuel)),
                 EvalE(Bare(w), Hidden(e.up, e.ty, at.0, rhs.0, rhs.1), fp, sp, m2, fuel), m2, fp, n, rhs.1 + 1)
    decreases fuel, e, 0, 0
  {
    hide MeanE, EvalE, EvalL, Lower, LowerL, Near, Home, Blind, Modify, StoreLE, LoadLE, Hidden, Spared, Enc;
    var b, slot := Bare(w), rhs.1;
    SparedLength(w, m2, a2.mem, fp, n, at.1);
    HomeStays(w, fp, m2, a2.mem);
    TempInside(w, fp, slot, m2);
    TempInside(w, fp, slot, a2.mem);
    TempStored(w, fp, slot, a1.mem, a2.mem, a1.v);
    var m3 := StoreLE(a2.mem, TempAt(fp, slot), a2.v, 8);
    SparedJoin(w, m2, a2.mem, m3, fp, n, at.1, slot, slot + 1, n, slot + 1);
    LowersE(w, e.rhs, at.1, fp, OperandAt(e.up, sp), a1.mem, m3, a1.fuel);
    var y1 := MeanE(w, e.rhs, fp, OperandAt(e.up, sp), a1.mem, a1.fuel);
    var y2 := EvalE(b, rhs.0, fp, OperandAt(e.up, sp), m3, a1.fuel);
    UpdateEnds(w, e, n, fp, sp, m2, fuel, at, rhs, a2, m3, y1, y2);
  }

  lemma SparedLength(w: World, m: Mem, r: Mem, fp: int, n: nat, n2: nat)
    requires Spared(w, m, r, fp, n, n2)
    ensures |m| == |r|
  {
  }

  lemma SparedJoin(w: World, x: Mem, y: Mem, z: Mem, fp: int, a: nat, b: nat, c: nat, d: nat, n: nat, n2: nat)
    requires Spared(w, x, y, fp, a, b) && Spared(w, y, z, fp, c, d) && n <= a <= b <= n2 && n <= c <= d <= n2
    ensures Spared(w, x, z, fp, n, n2)
  {
  }

  lemma UpdateEnds(w: World, e: Src, n: nat, fp: int, sp: int, m2: Mem, fuel: nat, at: (LVal, nat), rhs: (Expr, nat),
                   a2: Out<int>, m3: Mem, y1: Out<int>, y2: Out<int>)
    requires e.SUpdate? && Home(w, fp, m2) && Home(w, fp, m3) && n <= at.1 <= rhs.1 < SLOTS
    requires a2 == EvalL(Bare(w), at.0, fp, sp - 8, m2, fuel) && a2.Ok? && |a2.mem| == |m2|
    requires 0 <= a2.v < 0x1_0000_0000_0000_0000
    requires 0 <= TempAt(fp, rhs.1) && TempAt(fp, rhs.1) + 8 <= |m2|
    requires m3 == StoreLE(a2.mem, TempAt(fp, rhs.1), a2.v, 8)
    requires Spared(w, m2, m3, fp, n, rhs.1 + 1) && LoadLE(m3, TempAt(fp, rhs.1), 8) == a2.v
    requires y2 == EvalE(Bare(w), rhs.0, fp, OperandAt(e.up, sp), m3, a2.fuel) && Fine(w, y1, y2, m3, fp, at.1, rhs.1)
    ensures Fine(w, Modify(w, e.up, e.ty, a2.v, y1), EvalE(Bare(w), Hidden(e.up, e.ty, at.0, rhs.0, rhs.1), fp, sp, m2,
            fuel), m2, fp, n, rhs.1 + 1)
  {
    hide EvalE, EvalL, Near, Home, StoreLE, LoadLE, Hidden, Spared, Enc, Get, Put, Updated, Modify;
    var b, slot := Bare(w), rhs.1;
    TempInside(w, fp, slot, m2);
    if !y1.Wild? {
      if y1.Ok? {
        SparedLength(w, m3, y2.mem, fp, at.1, slot);
        TempHeld(w, fp, slot, at.1, slot, m3, y2.mem);
      }
      HiddenMeans(b, e.up, e.ty, at.0, rhs.0, slot, fp, sp, m2, fuel, TempAt(fp, slot), a2, m3, y2);
      ModifyLater(w, e.up, e.ty, a2.v, y1, y2, m2, m3, fp, n, at.1, slot);
    } else {
      ModifyWild(w, e.up, e.ty, a2.v);
    }
  }

  lemma ModifyWild(w: World, up: Up, ty: Ty, a: nat)
    ensures Modify(w, up, ty, a, Wild) == Wild
  {
  }

  lemma ModifyLater(w: World, up: Up, ty: Ty, a: nat, y1: Out<int>, y2: Out<int>, m2: Mem, m3: Mem, fp: int, n: nat,
                    c: nat, slot: nat)
    requires Fine(w, y1, y2, m3, fp, c, slot) && Spared(w, m2, m3, fp, n, slot + 1) && n <= c <= slot && !y1.Wild?
    ensures Fine(w, Modify(w, up, ty, a, y1), Modify(Bare(w), up, ty, a, y2), m2, fp, n, slot + 1)
  {
    hide Near, Spared, Get, Put, Updated;
    FineLater(w, y1, y2, m2, m3, fp, n, slot + 1, c, slot, n, slot + 1);
    if y1.Ok? {
      BlindModify(w, up, ty, a, y1, y2);
      var r1, r2 := Modify(w, up, ty, a, y1), Modify(Bare(w), up, ty, a, y2);
      FromSame(w, r1, r2, y2.mem, fp, n, n);
      FineLater(w, r1, r2, m2, y2.mem, fp, n, slot + 1, n, n, n, slot + 1);
    }
  }
}
