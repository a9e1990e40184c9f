// The operators: what the few instructions of an operator, and the
// re-normalisation after them, leave in rax.

module SimOps {
  import opened Words
  import opened CTree
  import opened X64
  import opened Gen
  import opened SimBase

  /** Only registers other than rsp and rbp, and flags, changed. */
  predicate OnlyRegs(s: State, t: State) {
    && t.status == s.status && t.rsp == s.rsp && t.rbp == s.rbp && t.mem == s.mem && t.stk == s.stk
    && t.fuel == s.fuel && t.rt == s.rt
  }

  /** `t` is `s` a few instructions further on with `v` encoded in rax. */
  predicate Holding(s: State, t: State, size: int, v: int) {
    OnlyRegs(s, t) && t.pc == s.pc + size && t.rax == Enc(v)
  }

  // ---- arithmetic --------------------------------------------------------

  lemma LowOfOp(z: int, w: Width)
    ensures (z % OpMod(w == B8)) % w.Mod() == z % w.Mod()
  {
    var big, m := OpMod(w == B8), w.Mod();
    var k, q := big / m, z / big;
    assert big == m * k;
    assert z % big == z + m * -(k * q) by {
      assert z == big * q + z % big;
      assert big * q == m * (k * q);
    }
    AddMultiple(z, -(k * q), m);
  }

  lemma EncConvWide(v: int, uns: bool)
    ensures Enc(Conv(v, B8, uns)) == Enc(v)
  {
  }

  lemma QuotientBound(x: int, y: int)
    requires 0 <= x && y > 0
    ensures 0 <= x / y <= x
  {
    var q := x / y;
    assert x == y * q + x % y;
    MulNonNeg(y - 1, q);
    assert y * q == q + (y - 1) * q;
  }

  lemma MulNonNeg(a: int, b: int)
    requires a >= 0 && b >= 0
    ensures a * b >= 0
  {
  }

  /** cdq/cqo sign-fills rdx, so rdx:rax is the signed left operand again. */
  lemma SignFill(r: int, wide: bool)
    requires 0 <= r < OpMod(wide)
    ensures var m := OpMod(wide);
            var hi := if r < m / 2 then 0 else m - 1;
            Signed(hi % m, m) * m + r == Signed(r, m)
  {
  }

  lemma CountMask(y: int, wide: bool)
    ensures Enc(y) % OpBits(wide) == y % OpBits(wide)
  {
  }

  lemma SumLow(x: int, y: int, w: Width)
    ensures (Enc(x) + Enc(y)) % w.Mod() == (x + y) % w.Mod()
    ensures (Enc(x) - Enc(y)) % w.Mod() == (x - y) % w.Mod()
  {
    var m := w.Mod();
    var p, q := x / W64, y / W64;
    var c := W64 / m;
    assert W64 == m * c by {
      match w
      case B1 =>
      case B2 =>
      case B4 =>
      case B8 =>
    }
    assert x == Enc(x) + m * (c * p) && y == Enc(y) + m * (c * q);
    AddMultiple(Enc(x) + Enc(y), c * p + c * q, m);
    AddMultiple(Enc(x) - Enc(y), c * p - c * q, m);
    assert x + y == (Enc(x) + Enc(y)) + m * (c * p + c * q);
    assert x - y == (Enc(x) - Enc(y)) + m * (c * p - c * q);
  }

  lemma ProductLow(x: int, y: int, w: Width)
    ensures (Enc(x) * Enc(y)) % w.Mod() == (x * y) % w.Mod()
  {
    EncLow(x, w);
    EncLow(y, w);
    MulMod(Enc(x), Enc(y), x, y, w.Mod());
  }

  lemma ShiftedLow(x: int, p: int, w: Width)
    ensures (Enc(x) * p) % w.Mod() == (x * p) % w.Mod()
  {
    EncLow(x, w);
    MulMod(Enc(x), p, x, p, w.Mod());
  }

  lemma NotLow(v: int, w: Width)
    ensures (OpMod(w == B8) - 1 - Enc(v) % OpMod(w == B8)) % w.Mod() == (-v - 1) % w.Mod()
  {
    var m := OpMod(w == B8);
    EncLowOp(v, w == B8);
    var c := m / w.Mod();
    assert m == w.Mod() * c by {
      match w
      case B1 =>
      case B2 =>
      case B4 =>
      case B8 =>
    }
    assert -v - 1 == (m - 1 - v % m) + w.Mod() * (-c - c * (v / m)) by {
      assert v == m * (v / m) + v % m;
      assert w.Mod() * (c * (v / m)) == m * (v / m);
    }
    AddMultiple(m - 1 - v % m, -c - c * (v / m), w.Mod());
  }

  // ---- normalisation -----------------------------------------------------

  /** Re-establishing the invariant: rax agrees with `exact` in the type's bits. */
  lemma NormRun(w: World, s: State, ty: Ty, exact: int)
    requires s.status == Running && ty.Int? && s.rax % ty.w.Mod() == exact % ty.w.Mod()
    ensures Holding(s, All(w, Norm(ty), s), |Norm(ty)|, Conv(exact, ty.w, ty.uns))
  {
    hide Conv, Enc;
    if ty.w == B8 {
      EncConvWide(exact, ty.uns);
      EncIsLow(exact);
      assert Enc(exact) == s.rax;
    } else {
      ConvCong(s.rax, exact, ty.w, ty.uns);
      All1(w, Ext(ty.w, ty.uns), s);
    }
  }

  lemma EncIsLow(v: int)
    ensures Enc(v) == v % B8.Mod()
  {
  }

  // ---- division ----------------------------------------------------------

  /** xor edx,edx; div. */
  lemma UnsignedDivide(s: State, ty: Ty, x: int, y: int)
    requires ty.Int? && ty.uns && Fits(x, ty.w, true) && Fits(y, ty.w, true)
    requires s.rax == Enc(x) && s.r.rdi == Enc(y) && s.r.rdx == 0
    ensures var t := DivStep(s, Wide(ty));
            if y == 0 then t == s.(status := Trapped)
            else t == s.(rax := Enc(TDiv(x, y)), r := s.r.(rdx := Enc(TMod(x, y))))
                 && 0 <= TDiv(x, y) < OpMod(Wide(ty)) && 0 <= TMod(x, y) < OpMod(Wide(ty))
  {
    hide Enc;
    DecodeFits(x, ty.w, true, Wide(ty));
    DecodeFits(y, ty.w, true, Wide(ty));
    if y != 0 {
      QuotientBound(x, y);
      assert TMod(x, y) == x % y;
    }
  }

  /** cdq; idiv. */
  lemma SignedDivide(s: State, ty: Ty, x: int, y: int)
    requires ty.Int? && !ty.uns && Fits(x, ty.w, false) && Fits(y, ty.w, false)
    requires s.rax == Enc(x) && s.r.rdi == Enc(y)
    requires s.r.rdx == if s.rax % OpMod(Wide(ty)) < OpMod(Wide(ty)) / 2 then 0 else OpMod(Wide(ty)) - 1
    ensures var m := OpMod(Wide(ty));
            var t := IDivStep(s, Wide(ty));
            if BinTraps(Div, ty, x, y) then t == s.(status := Trapped)
            else t == s.(rax := TDiv(x, y) % m, r := s.r.(rdx := TMod(x, y) % m))
  {
    hide Enc, TDiv, TMod;
    DecodeFits(x, ty.w, false, Wide(ty));
    DecodeFits(y, ty.w, false, Wide(ty));
    SignFill(Enc(x) % OpMod(Wide(ty)), Wide(ty));
  }

  /** The quotient in rax and the remainder in rdx, or a divide error. */
  lemma DivPair(w: World, s: State, ty: Ty, x: int, y: int) returns (t: State)
    requires ty.Int? && Fits(x, ty.w, ty.uns) && Fits(y, ty.w, ty.uns)
    requires s.status == Running && s.rax == Enc(x) && s.r.rdi == Enc(y)
    ensures t == All(w, BinCode(Div, ty), s)
    ensures if BinTraps(Div, ty, x, y) then t.status == Trapped
            else
              && OnlyRegs(s, t) && t.pc == s.pc + 2
              && t.rax == TDiv(x, y) % OpMod(Wide(ty))
              && t.r.rdx == TMod(x, y) % OpMod(Wide(ty))
  {
    hide Enc, TDiv, TMod, DivStep, IDivStep, Fits, Data;
    var wide := Wide(ty);
    var s0 := s.(pc := s.pc + 1);
    if ty.uns {
      All2(w, XorEdx, DivRdi(wide), s);
      DataOther(w, XorEdx, s0);
      var s1 := s.(pc := s.pc + 1, r := s.r.(rdx := 0));
      All1(w, DivRdi(wide), s1);
      DataOther(w, DivRdi(wide), s1.(pc := s1.pc + 1));
      UnsignedDivide(s1.(pc := s1.pc + 1), ty, x, y);
      t := DivStep(s1.(pc := s1.pc + 1), wide);
      if y != 0 {
        EncSmall(TDiv(x, y), wide);
        EncSmall(TMod(x, y), wide);
      }
    } else {
      All2(w, SignRdx(wide), IDivRdi(wide), s);
      DataOther(w, SignRdx(wide), s0);
      var s1 := Data(w, SignRdx(wide), s0);
      All1(w, IDivRdi(wide), s1);
      DataOther(w, IDivRdi(wide), s1.(pc := s1.pc + 1));
      SignedDivide(s1.(pc := s1.pc + 1), ty, x, y);
      t := IDivStep(s1.(pc := s1.pc + 1), wide);
    }
  }

  lemma EncSmall(v: int, wide: bool)
    requires 0 <= v < OpMod(wide)
    ensures Enc(v) == v % OpMod(wide)
  {
  }

  lemma DivRun(w: World, s: State, mod: bool, ty: Ty, x: int, y: int)
    requires ty.Int? && Fits(x, ty.w, ty.uns) && Fits(y, ty.w, ty.uns)
    requires s.status == Running && s.rax == Enc(x) && s.r.rdi == Enc(y)
    ensures var op := if mod then Mod else Div;
            var t := All(w, BinCode(op, ty), s);
            if BinTraps(op, ty, x, y) then t.status == Trapped
            else
              && OnlyRegs(s, t) && t.pc == s.pc + |BinCode(op, ty)|
              && t.rax % ty.w.Mod() == (if mod then TMod(x, y) else TDiv(x, y)) % ty.w.Mod()
  {
    hide Enc, TDiv, TMod, Fits, Data;
    var t := DivPair(w, s, ty, x, y);
    if mod {
      AllAdd(w, BinCode(Div, ty), [MovRaxRdx(Wide(ty))], s);
      if !BinTraps(Div, ty, x, y) {
        All1(w, MovRaxRdx(Wide(ty)), t);
        DataOther(w, MovRaxRdx(Wide(ty)), t.(pc := t.pc + 1));
        LowOfOp(TMod(x, y), ty.w);
        LowOfOp(TMod(x, y) % OpMod(Wide(ty)), ty.w);
      }
    } else if y != 0 {
      LowOfOp(TDiv(x, y), ty.w);
    }
  }

  // ---- the other operators -------------------------------------------------

  /** The word an add, subtract, multiply or bitwise instruction leaves. */
  lemma AluLow(op: BinOp, ty: Ty, x: int, y: int, r: Regs)
    requires ty.Int? && (op.Add? || op.Sub? || op.Mul? || op.Bit?) && r.rdi == Enc(y)
    ensures Conv(Alu(BinCode(op, ty)[0], Enc(x), r), ty.w, ty.uns) == BinVal(op, ty, x, y)
  {
    hide Conv, Enc, Bitwise;
    match op
    case Add =>
      SumLow(x, y, ty.w);
      LowOfOp(Enc(x) + Enc(y), ty.w);
      ConvCong((Enc(x) + Enc(y)) % OpMod(Wide(ty)), x + y, ty.w, ty.uns);
    case Sub =>
      SumLow(x, y, ty.w);
      LowOfOp(Enc(x) - Enc(y), ty.w);
      ConvCong((Enc(x) - Enc(y)) % OpMod(Wide(ty)), x - y, ty.w, ty.uns);
    case Mul =>
      ProductLow(x, y, ty.w);
      LowOfOp(Enc(x) * Enc(y), ty.w);
      ConvCong((Enc(x) * Enc(y)) % OpMod(Wide(ty)), x * y, ty.w, ty.uns);
    case Bit(b) =>
      EncLowOp(x, Wide(ty));
      EncLowOp(y, Wide(ty));
      ConvEnc(Bitwise(b, x % OpMod(Wide(ty)), y % OpMod(Wide(ty)), OpBits(Wide(ty))), ty.w, ty.uns);
  }

  lemma ShiftLow(left: bool, ty: Ty, x: int, y: int, r: Regs)
    requires ty.Int? && r.rcx == Enc(y) && (!left ==> Fits(x, ty.w, ty.uns))
    ensures Conv(Alu(BinCode(if left then Shl else Shr, ty)[1], Enc(x), r), ty.w, ty.uns)
            == BinVal(if left then Shl else Shr, ty, x, y)
  {
    hide Conv, Enc, Pow2;
    CountMask(y, Wide(ty));
    var p := Pow2(y % OpBits(Wide(ty)));
    if left {
      ShiftedLow(x, p, ty.w);
      LowOfOp(Enc(x) * p, ty.w);
      ConvCong((Enc(x) * p) % OpMod(Wide(ty)), x * p, ty.w, ty.uns);
    } else {
      DecodeFits(x, ty.w, ty.uns, Wide(ty));
      LowOfOp(x / p, ty.w);
      ConvCong((x / p) % OpMod(Wide(ty)), x / p, ty.w, ty.uns);
    }
  }

  lemma AluRun(w: World, s: State, op: BinOp, ty: Ty, x: int, y: int)
    requires ty.Int? && !op.Div? && !op.Mod? && (op.Shr? ==> Fits(x, ty.w, ty.uns))
    requires s.status == Running && s.rax == Enc(x) && s.r.rdi == Enc(y)
    ensures var t := All(w, BinCode(op, ty), s);
            && OnlyRegs(s, t) && t.pc == s.pc + |BinCode(op, ty)|
            && Conv(t.rax, ty.w, ty.uns) == BinVal(op, ty, x, y)
  {
    hide Conv, Enc, BinVal, Alu, Fits, Data;
    if op.Shl? || op.Shr? {
      var i := BinCode(op, ty)[1];
      All2(w, MovRcxRdi, i, s);
      DataOther(w, MovRcxRdi, s.(pc := s.pc + 1));
      var s1 := s.(pc := s.pc + 1, r := s.r.(rcx := s.r.rdi));
      All1(w, i, s1);
      DataAlu(w, i, s1.(pc := s1.pc + 1));
      ShiftLow(op.Shl?, ty, x, y, s1.r);
    } else {
      All1(w, BinCode(op, ty)[0], s);
      DataAlu(w, BinCode(op, ty)[0], s.(pc := s.pc + 1));
      AluLow(op, ty, x, y, s.r);
    }
  }


  /** One operator on rax and rdi, with its normalisation. */
  lemma BinRun(w: World, s: State, op: BinOp, ty: Ty, x: int, y: int)
    requires ty.Int?
    requires op.Shr? || op.Div? || op.Mod? ==> Fits(x, ty.w, ty.uns)
    requires op.Div? || op.Mod? ==> Fits(y, ty.w, ty.uns)
    requires s.status == Running && s.rax == Enc(x) && s.r.rdi == Enc(y)
    ensures var seg := BinCode(op, ty) + Norm(ty);
            var t := All(w, seg, s);
            if BinTraps(op, ty, x, y) then t.status == Trapped
            else Holding(s, t, |seg|, BinVal(op, ty, x, y))
  {
    hide Conv, Enc, TDiv, TMod, Alu, Fits, Data;
    AllAdd(w, BinCode(op, ty), Norm(ty), s);
    var t := All(w, BinCode(op, ty), s);
    if op.Div? || op.Mod? {
      DivRun(w, s, op.Mod?, ty, x, y);
      if !BinTraps(op, ty, x, y) {
        NormRun(w, t, ty, if op.Mod? then TMod(x, y) else TDiv(x, y));
      }
    } else {
      AluRun(w, s, op, ty, x, y);
      NormRun(w, t, ty, t.rax);
    }
  }

  // ---- comparisons and logic -------------------------------------------------

  lemma CompareFlags(op: CmpOp, ty: Ty, x: int, y: int)
    requires ty.Int? && Fits(x, ty.w, ty.uns) && Fits(y, ty.w, ty.uns)
    ensures var m := OpMod(Wide(ty));
            Holds(Compare(Enc(x) % m, Enc(y) % m, m), CmpCC(op, ty.uns)) <==> CmpVal(op, x, y) == 1
  {
    hide Enc, Fits;
    DecodeFits(x, ty.w, ty.uns, Wide(ty));
    DecodeFits(y, ty.w, ty.uns, Wide(ty));
  }

  lemma ByteSet(rax: Word, bit: int)
    requires 0 <= bit <= 1
    ensures (rax - rax % 256 + bit) % 256 == bit && Enc(bit) == bit
    ensures 0 <= rax - rax % 256 + bit < W64
  {
  }

  /** setcc al; movzx eax, al. */
  lemma SetRun(w: World, s: State, cc: CC, bit: int)
    requires s.status == Running && 0 <= bit <= 1 && (Holds(s.fl, cc) <==> bit == 1)
    ensures Holding(s, All(w, [SetCC(cc), MovzxAl], s), 2, bit)
  {
    hide Data;
    All2(w, SetCC(cc), MovzxAl, s);
    DataFlag(w, SetCC(cc), s.(pc := s.pc + 1));
    ByteSet(s.rax, bit);
    var s1 := s.(pc := s.pc + 1, rax := s.rax - s.rax % 256 + bit);
    All1(w, MovzxAl, s1);
    DataAlu(w, MovzxAl, s1.(pc := s1.pc + 1));
  }

  lemma CmpRun(w: World, s: State, op: CmpOp, ty: Ty, x: int, y: int)
    requires ty.Int? && Fits(x, ty.w, ty.uns) && Fits(y, ty.w, ty.uns)
    requires s.status == Running && s.rax == Enc(x) && s.r.rdi == Enc(y)
    ensures Holding(s, All(w, CmpCode(op, ty), s), 3, CmpVal(op, x, y))
  {
    hide Enc, Fits, Compare, Data;
    var cc := CmpCC(op, ty.uns);
    DataFlag(w, CmpRR(Wide(ty)), s.(pc := s.pc + 1));
    All3(w, CmpRR(Wide(ty)), SetCC(cc), MovzxAl, s);
    CompareFlags(op, ty, x, y);
    SetRun(w, Data(w, CmpRR(Wide(ty)), s.(pc := s.pc + 1)), cc, CmpVal(op, x, y));
  }

  /** test rax, rax is the right truth test at every width. */
  lemma TestRun(w: World, s: State, ty: Ty, v: int)
    requires ty.Int? && Fits(v, ty.w, ty.uns) && s.status == Running && s.rax == Enc(v)
    ensures var t := Data(w, TestRax, s.(pc := s.pc + 1));
            OnlyRegs(s, t) && t.pc == s.pc + 1 && t.rax == s.rax && (t.fl.zf <==> v == 0)
  {
    hide Enc, Fits, Data;
    DataFlag(w, TestRax, s.(pc := s.pc + 1));
    EncZero(v, ty.w, ty.uns);
  }

  /** test; sete al; movzx: logical negation at every width. */
  lemma NotRun(w: World, s: State, ty: Ty, v: int)
    requires ty.Int? && Fits(v, ty.w, ty.uns) && s.status == Running && s.rax == Enc(v)
    ensures Holding(s, All(w, [TestRax, SetCC(Z), MovzxAl], s), 3, 1 - Truth(v))
  {
    hide Enc, Fits, Compare, Data;
    All3(w, TestRax, SetCC(Z), MovzxAl, s);
    TestRun(w, s, ty, v);
    SetRun(w, Data(w, TestRax, s.(pc := s.pc + 1)), Z, 1 - Truth(v));
  }

  lemma BitNotRun(w: World, s: State, ty: Ty, v: int)
    requires ty.Int? && s.status == Running && s.rax == Enc(v)
    ensures Holding(s, All(w, [NotRax(Wide(ty))] + Norm(ty), s), 1 + |Norm(ty)|, As(-v - 1, ty))
  {
    hide Enc, Conv, Data;
    DataAlu(w, NotRax(Wide(ty)), s.(pc := s.pc + 1));
    AllCons(w, NotRax(Wide(ty)), Norm(ty), s);
    NotLow(v, ty.w);
    NormRun(w, Data(w, NotRax(Wide(ty)), s.(pc := s.pc + 1)), ty, -v - 1);
  }

  /** A cast: the value is already extended, so its low bits are what matter. */
  lemma CastRun(w: World, s: State, ty: Ty, v: int)
    requires s.status == Running && (ty.Int? ==> s.rax == Enc(v))
    ensures var t := All(w, Norm(ty), s);
            && OnlyRegs(s, t) && t.pc == s.pc + |Norm(ty)|
            && (ty.Int? ==> t.rax == Enc(As(v, ty)))
  {
    hide Enc, Conv, Data;
    if ty.Int? {
      EncLow(v, ty.w);
      NormRun(w, s, ty, v);
    }
  }

  lemma InLineCodes(op: BinOp, cmp: CmpOp, ty: Ty)
    ensures InLine(BinCode(op, ty)) && InLine(Norm(ty)) && InLine(CmpCode(cmp, ty))
    ensures InLine(LoadCode(ty)) && InLine(BinCode(op, ty) + Norm(ty))
    ensures InLine([NotRax(Wide(ty))] + Norm(ty))
  {
  }
}
