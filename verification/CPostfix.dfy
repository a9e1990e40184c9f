// v++ and v--: the tree the parser builds for them, and what it gives.

module CPostfix {
  import opened Basics
  import opened Words
  import opened CTree
  import opened CTypes
  import opened CFence
  import opened CUpdate

  /** `(v += 1) - 1`, or with the signs the other way round; the variable's place is
      found once, by the update. */
  function Postfix(t: Ty, lv: SrcL, up: bool): Src
    requires t.Int?
  {
    var ct := Common(t, INT);
    var one := SNum(INT, 1);
    SBin(if up then BinOp.Sub else BinOp.Add, ct,
      SUnary(ToType(ct), SUpdate(Up.Arith(if up then BinOp.Add else BinOp.Sub, ct), t, lv, one)),
      SUnary(ToType(ct), one))
  }

  /** The value the variable is left with. */
  function Stepped(t: Ty, up: bool, x: int): int
    requires t.Int?
  {
    var ct := Common(t, INT);
    As(BinVal(if up then BinOp.Add else BinOp.Sub, ct, As(x, ct), 1), t)
  }

  lemma OneStays(t: Ty)
    requires t.Int?
    ensures As(1, Common(t, INT)) == 1
  {
    CommonWide(t, INT);
  }

  /** The update alone: one read, one write of the stepped value. */
  lemma StepMeans(w: World, t: Ty, lv: SrcL, up: bool, fp: int, sp: int, mem: Mem, fuel: nat)
    requires t.Int?
    ensures var ct := Common(t, INT);
            var a := MeanL(w, lv, fp, sp - 8, mem, fuel);
            MeanE(w, SUpdate(Up.Arith(if up then BinOp.Add else BinOp.Sub, ct), t, lv, SNum(INT, 1)), fp, sp, mem, fuel)
            == if !a.Ok? then a else
               var x := Get(w, a.v, t, a.mem, a.fuel);
               if !x.Ok? then x else Put(w, a.v, t, Stepped(t, up, x.v), x.mem, x.fuel)
  {
    hide MeanL, Get, Put, BinVal, As, Common;
    var ct, op := Common(t, INT), if up then BinOp.Add else BinOp.Sub;
    OneStays(t);
    var a := MeanL(w, lv, fp, sp - 8, mem, fuel);
    if a.Ok? {
      assert MeanE(w, SNum(INT, 1), fp, OperandAt(Up.Arith(op, ct), sp), a.mem, a.fuel) == Ok(1, a.mem, a.fuel);
      var x := Get(w, a.v, t, a.mem, a.fuel);
      assert !BinTraps(op, ct, As(if x.Ok? then x.v else 0, ct), 1);
    }
  }

  /** The whole tree: the variable is read once and written once, and what comes out
      is the value PostfixVal computes from the one read. */
  lemma PostfixMeans(w: World, t: Ty, lv: SrcL, up: bool, fp: int, sp: int, mem: Mem, fuel: nat)
    requires t.Int?
    ensures var a := MeanL(w, lv, fp, sp - 16, mem, fuel);
            MeanE(w, Postfix(t, lv, up), fp, sp, mem, fuel)
            == if !a.Ok? then a else
               var x := Get(w, a.v, t, a.mem, a.fuel);
               if !x.Ok? then x else
               var p := Put(w, a.v, t, Stepped(t, up, x.v), x.mem, x.fuel);
               if !p.Ok? then p else Ok(PostfixVal(t, up, x.v), p.mem, p.fuel)
  {
    hide MeanL, Get, Put, BinVal, As, Common;
    var ct, back := Common(t, INT), if up then BinOp.Sub else BinOp.Add;
    var inc := SUpdate(Up.Arith(if up then BinOp.Add else BinOp.Sub, ct), t, lv, SNum(INT, 1));
    OneStays(t);
    assert MeanE(w, SUnary(ToType(ct), SNum(INT, 1)), fp, sp, mem, fuel) == Ok(1, mem, fuel);
    StepMeans(w, t, lv, up, fp, sp - 8, mem, fuel);
    var v := MeanE(w, inc, fp, sp - 8, mem, fuel);
    assert MeanE(w, SUnary(ToType(ct), inc), fp, sp - 8, mem, fuel)
        == if v.Ok? then Ok(As(v.v, ct), v.mem, v.fuel) else v;
    if v.Ok? {
      var a := MeanL(w, lv, fp, sp - 16, mem, fuel);
      var x := Get(w, a.v, t, a.mem, a.fuel);
      PutGives(w, a.v, t, Stepped(t, up, x.v), x.mem, x.fuel);
      assert !BinTraps(back, ct, As(v.v, ct), 1);
    }
  }

  lemma PutGives(w: World, a: nat, t: Ty, v: int, mem: Mem, fuel: nat)
    ensures Put(w, a, t, v, mem, fuel).Ok? ==> Put(w, a, t, v, mem, fuel).v == v
  {
    hide StoreLE;
  }

  /** Read from memory, the old value comes out exactly unless a one- or two-byte
      variable wrapped. */
  lemma PostfixGivesOld(w: World, t: Ty, lv: SrcL, up: bool, fp: int, sp: int, mem: Mem, fuel: nat)
    requires t.Int?
    ensures var a := MeanL(w, lv, fp, sp - 16, mem, fuel);
            var r := MeanE(w, Postfix(t, lv, up), fp, sp, mem, fuel);
            r.Ok? ==>
              && a.Ok? && Get(w, a.v, t, a.mem, a.fuel).Ok?
              && var x := Get(w, a.v, t, a.mem, a.fuel).v;
                 r.v == x <==> !(t.w.Bytes() < 4 && x == if up then Highest(t) else Lowest(t))
  {
    hide MeanE, MeanL, Put, PostfixVal, Stepped, Postfix, Get;
    PostfixMeans(w, t, lv, up, fp, sp, mem, fuel);
    var a := MeanL(w, lv, fp, sp - 16, mem, fuel);
    if a.Ok? {
      var g := Get(w, a.v, t, a.mem, a.fuel);
      if g.Ok? {
        GetFits(w, a.v, t, a.mem, a.fuel);
        PostfixIff(t, up, g.v);
      }
    }
  }

  lemma GetFits(w: World, a: nat, t: Ty, mem: Mem, fuel: nat)
    requires t.Int?
    ensures var g := Get(w, a, t, mem, fuel); g.Ok? ==> Fits(g.v, t.w, t.uns)
  {
    hide Fits, LoadLE;
    if a + t.w.Bytes() <= |mem| {
      ConvFits(LoadLE(mem, a, t.w.Bytes()), t.w, t.uns);
    }
  }

  // ---- pointers ------------------------------------------------------------------------------

  /** `(p += 1) - 1` on a pointer to things of `size` bytes: both steps are scaled. */
  function PointerPostfix(lv: SrcL, size: int, up: bool): Src {
    SBin(if up then BinOp.Sub else BinOp.Add, PTR, SUpdate(Up.Step(!up, size), PTR, lv, SNum(INT, 1)), Scaled(size))
  }

  function Scaled(size: int): Src { SBin(BinOp.Mul, LONG, SUnary(ToType(LONG), SNum(INT, 1)), SNum(LONG, size)) }

  /** The pointer moved on or back by one thing, around the end of the address space. */
  function Moved(x: int, size: int, up: bool): int { Conv(if up then x + size else x - size, B8, true) }

  lemma MovedIs(x: int, size: int, up: bool)
    requires 0 < size < 0x8000_0000
    ensures Updated(Up.Step(!up, size), PTR, x, 1) == Some(Moved(x, size, up))
    ensures BinVal(BinOp.Mul, LONG, 1, size) == size && As(1, LONG) == 1
  {
    hide Conv;
    ConvOfFitting(size, B8, false);
    ConvOfFitting(1, B8, false);
    var y := if up then x + size else x - size;
    ConvFits(y, B8, true);
    ConvOfFitting(Conv(y, B8, true), B8, true);
  }

  lemma ScaledMeans(w: World, size: int, fp: int, sp: int, mem: Mem, fuel: nat)
    requires 0 < size < 0x8000_0000
    ensures MeanE(w, Scaled(size), fp, sp, mem, fuel) == Ok(size, mem, fuel)
  {
    hide BinVal, As;
    MovedIs(0, size, true);
    assert MeanE(w, SNum(LONG, size), fp, sp, mem, fuel) == Ok(size, mem, fuel);
    assert MeanE(w, SNum(INT, 1), fp, sp - 8, mem, fuel) == Ok(1, mem, fuel);
    assert MeanE(w, SUnary(ToType(LONG), SNum(INT, 1)), fp, sp - 8, mem, fuel) == Ok(1, mem, fuel);
    assert !BinTraps(BinOp.Mul, LONG, 1, size);
  }

  lemma MoveMeans(w: World, lv: SrcL, size: int, up: bool, fp: int, sp: int, mem: Mem, fuel: nat)
    requires 0 < size < 0x8000_0000
    ensures var a := MeanL(w, lv, fp, sp - 8, mem, fuel);
            MeanE(w, SUpdate(Up.Step(!up, size), PTR, lv, SNum(INT, 1)), fp, sp, mem, fuel)
            == if !a.Ok? then a else
               var x := Get(w, a.v, PTR, a.mem, a.fuel);
               if !x.Ok? then x else Put(w, a.v, PTR, Moved(x.v, size, up), x.mem, x.fuel)
  {
    hide MeanL, Get, Put, Updated, Moved;
    var a := MeanL(w, lv, fp, sp - 8, mem, fuel);
    if a.Ok? {
      assert MeanE(w, SNum(INT, 1), fp, sp - 16, a.mem, a.fuel) == Ok(1, a.mem, a.fuel);
      var x := Get(w, a.v, PTR, a.mem, a.fuel);
      if x.Ok? {
        MovedIs(x.v, size, up);
      }
    }
  }

  /** p++ and p-- read the pointer once, leave it moved by one thing, and give what
      it was, also where it wraps. */
  lemma PointerGivesOld(w: World, lv: SrcL, size: int, up: bool, fp: int, sp: int, mem: Mem, fuel: nat)
    requires 0 < size < 0x8000_0000
    ensures var a := MeanL(w, lv, fp, sp - 16, mem, fuel);
            MeanE(w, PointerPostfix(lv, size, up), fp, sp, mem, fuel)
            == if !a.Ok? then a else
               var x := Get(w, a.v, PTR, a.mem, a.fuel);
               if !x.Ok? then x else
               var p := Put(w, a.v, PTR, Moved(x.v, size, up), x.mem, x.fuel);
               if !p.Ok? then p else Ok(x.v, p.mem, p.fuel)
  {
    hide MeanL, Get, Put, Moved, BinVal, Scaled;
    var back := if up then BinOp.Sub else BinOp.Add;
    var inc := SUpdate(Up.Step(!up, size), PTR, lv, SNum(INT, 1));
    ScaledMeans(w, size, fp, sp, mem, fuel);
    MoveMeans(w, lv, size, up, fp, sp - 8, mem, fuel);
    var v := MeanE(w, inc, fp, sp - 8, mem, fuel);
    assert MeanE(w, PointerPostfix(lv, size, up), fp, sp, mem, fuel)
        == if v.Ok? then Ok(BinVal(back, PTR, v.v, size), v.mem, v.fuel) else v;
    if v.Ok? {
      var a := MeanL(w, lv, fp, sp - 16, mem, fuel);
      var x := Get(w, a.v, PTR, a.mem, a.fuel);
      PutGives(w, a.v, PTR, Moved(x.v, size, up), x.mem, x.fuel);
      GetFits(w, a.v, PTR, a.mem, a.fuel);
      MovedBack(x.v, size, up);
    }
  }

  lemma MovedBack(x: int, size: int, up: bool)
    requires Fits(x, B8, true)
    ensures BinVal(if up then BinOp.Sub else BinOp.Add, PTR, Moved(x, size, up), size) == x
  {
    var m := B8.Mod();
    var y := if up then x + size else x - size;
    var q := y / m;
    assert Moved(x, size, up) == y - m * q;
    AddMultiple(x, -q, m);
    ConvOfFitting(x, B8, true);
  }
}
