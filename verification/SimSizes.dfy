// A block's length does not depend on where it lies, so distances can be
// computed before anything is emitted; and the layout of each statement.

module SimSizes {
  import opened Basics
  import opened Words
  import opened CTree
  import opened X64
  import opened Gen
  import opened SimOpen

  lemma LenEnter(callee: Callee, ty: Ty, n: nat, d: nat, at: int, k: Links, at2: int, k2: Links)
    ensures |Enter(callee, ty, n, d, at, k)| == |Enter(callee, ty, n, d, at2, k2)|
  {
    hide Pops, Pad, Norm;
  }

  lemma {:induction false} LenE(e: Expr, d: nat, at: int, k: Links, at2: int, k2: Links)
    ensures |GenE(e, d, at, k)| == |GenE(e, d, at2, k2)|
    decreases e, 1
  {
    hide GenE, GenL, GenA, Enter, Norm, BinCode, LoadCode, CmpCode;
    if e.Num? || e.Load? || e.Addr? || e.Cast? || e.Not? || e.BitNot? || e.Assign? || e.Call? {
      LenSimple(e, d, at, k, at2, k2);
    } else if e.Bin? {
      var a1, b1 := CodeBin(e, d, at, k);
      var a2, b2 := CodeBin(e, d, at2, k2);
      LenE(e.r, d, at, k, at2, k2);
      LenE(e.l, d + 1, at + |a1| + 1, k, at2 + |a2| + 1, k2);
    } else if e.Cmp? {
      var a1, b1 := CodeCmp(e, d, at, k);
      var a2, b2 := CodeCmp(e, d, at2, k2);
      LenE(e.r, d, at, k, at2, k2);
      LenE(e.l, d + 1, at + |a1| + 1, k, at2 + |a2| + 1, k2);
    } else if e.LogAnd? || e.LogOr? {
      var a1, b1 := CodeLog(e, d, at, k);
      var a2, b2 := CodeLog(e, d, at2, k2);
      LenE(e.l, d, at, k, at2, k2);
      LenE(e.r, d, at + |a1| + 2, k, at2 + |a2| + 2, k2);
    } else if e.Cond? {
      var a1, b1, c1 := CodeCond(e, d, at, k);
      var a2, b2, c2 := CodeCond(e, d, at2, k2);
      LenE(e.c, d, at, k, at2, k2);
      LenE(e.t, d, at + |a1| + 2, k, at2 + |a2| + 2, k2);
      LenE(e.f, d, at + |a1| + |b1| + 3, k, at2 + |a2| + |b2| + 3, k2);
    } else if e.Comma? {
      var a1, b1 := CodeComma(e, d, at, k);
      var a2, b2 := CodeComma(e, d, at2, k2);
      LenE(e.l, d, at, k, at2, k2);
      LenE(e.r, d, at + |a1|, k, at2 + |a2|, k2);
    }
  }

  lemma LenSimple(e: Expr, d: nat, at: int, k: Links, at2: int, k2: Links)
    requires e.Num? || e.Load? || e.Addr? || e.Cast? || e.Not? || e.BitNot? || e.Assign? || e.Call?
    ensures |GenE(e, d, at, k)| == |GenE(e, d, at2, k2)|
    decreases e, 0
  {
    hide GenL, GenA, Enter, Norm, BinCode, LoadCode, CmpCode;
    match e
    case Num(_, _) =>
    case Load(_, lv) => LenL(lv, d, at, k, at2, k2);
    case Addr(lv) => LenL(lv, d, at, k, at2, k2);
    case Cast(_, x) => LenE(x, d, at, k, at2, k2);
    case Not(x) => LenE(x, d, at, k, at2, k2);
    case BitNot(_, x) => LenE(x, d, at, k, at2, k2);
    case Assign(_, lv, r) =>
      LenL(lv, d, at, k, at2, k2);
      var a1, a2 := |GenL(lv, d, at, k)|, |GenL(lv, d, at2, k2)|;
      LenE(r, d + 1, at + a1 + 1, k, at2 + a2 + 1, k2);
    case Call(callee, ty, args) =>
      LenA(args, d, at, k, at2, k2);
      var a1, a2 := |GenA(args, d, at, k)|, |GenA(args, d, at2, k2)|;
      LenEnter(callee, ty, Count(args), d, at + a1, k, at2 + a2, k2);
  }

  lemma {:induction false} LenL(lv: LVal, d: nat, at: int, k: Links, at2: int, k2: Links)
    ensures |GenL(lv, d, at, k)| == |GenL(lv, d, at2, k2)|
    decreases lv, 1
  {
    hide GenE;
    match lv
    case Local(_) =>
    case Global(_) =>
    case Deref(e) => LenE(e, d, at, k, at2, k2);
    case Member(x, _) => LenL(x, d, at, k, at2, k2);
    case CommaL(e, x) =>
      LenE(e, d, at, k, at2, k2);
      LenL(x, d, at + |GenE(e, d, at, k)|, k, at2 + |GenE(e, d, at2, k2)|, k2);
  }

  lemma {:induction false} LenA(args: Args, d: nat, at: int, k: Links, at2: int, k2: Links)
    ensures |GenA(args, d, at, k)| == |GenA(args, d, at2, k2)|
    decreases args, 1
  {
    hide GenE;
    match args
    case NoArgs =>
    case Arg(e, rest) =>
      LenE(e, d, at, k, at2, k2);
      LenA(rest, d + 1, at + |GenE(e, d, at, k)| + 1, k, at2 + |GenE(e, d, at2, k2)| + 1, k2);
  }

  lemma SizeOfE(e: Expr, d: nat, at: int, k: Links)
    ensures |GenE(e, d, at, k)| == SizeE(e, d)
  {
    hide GenE;
    LenE(e, d, at, k, 0, Links(0, 0, []));
  }

  lemma SizeOfO(c: Option<Expr>, at: int, k: Links)
    ensures |GenO(c, at, k)| == SizeO(c)
  {
    hide GenE, SizeE;
    if c.Some? {
      SizeOfE(c.value, 0, at, k);
    }
  }

  lemma SizeOfTest(c: Option<Expr>, when: bool, lend: int, at: int, k: Links)
    ensures |GenTest(c, when, lend, at, k)| == SizeTest(c, when)
  {
    hide GenE, SizeE;
    if c.Some? {
      SizeOfE(c.value, 0, at, k);
    }
  }

  lemma {:induction false} SizeOfChain(keys: seq<int>, b: Stmt, body: int, at: int)
    ensures |Chain(keys, b, body, at)| == 3 * |keys|
    decreases |keys|
  {
    hide CaseOff;
    if keys != [] {
      SizeOfChain(keys[1..], b, body, at + 3);
    }
  }

  lemma {:induction false} SizeOfS(s: Stmt, at: int, k: Links, x: Exits)
    ensures |GenS(s, at, k, x)| == SizeS(s)
    decreases s
  {
    hide GenE, SizeE, GenO, SizeO, GenTest, SizeTest, Chain, ZeroCode, CaseOff;
    match s
    case Nop =>
    case Seq(a, b) =>
      SizeOfS(a, at, k, x);
      SizeOfS(b, at + SizeS(a), k, x);
    case Eval(e) => SizeOfE(e, 0, at, k);
    case MemZero(_, _) =>
    case Return(r) => SizeOfO(r, at, k);
    case If(c, t, f) =>
      var a1 := at + SizeE(c, 0) + 2;
      SizeOfE(c, 0, at, k);
      SizeOfS(t, a1, k, x);
      if f.Some? {
        SizeOfS(f.value, a1 + SizeS(t) + 1, k, x);
      }
    case Loop(c, first, _, b) =>
      var a1 := at + SizeTest(c, first);
      SizeOfS(b, a1, k, Exits(at + SizeS(s), a1 + SizeS(b), x.epi));
      SizeOfLoop(s, at, k, x);
    case Break =>
    case Continue =>
    case Case(_, b) => SizeOfS(b, at, k, x);
    case Switch(c, keys, _, b) =>
      var a1 := at + SizeE(c, 0);
      var a2 := a1 + 3 * |keys|;
      var lend := a2 + 1 + SizeS(b);
      SizeOfE(c, 0, at, k);
      SizeOfChain(keys, b, a2 + 1, a1);
      SizeOfS(b, a2 + 1, k, Exits(lend, x.cont, x.epi));
  }

  lemma SizeOfLoop(s: Stmt, at: int, k: Links, x: Exits)
    requires s.Loop?
    requires var a1 := at + SizeTest(s.cond, s.testFirst);
             |GenS(s.body, a1, k, Exits(at + SizeS(s), a1 + SizeS(s.body), x.epi))| == SizeS(s.body)
    ensures |GenS(s, at, k, x)| == SizeS(s)
  {
    hide GenE, SizeE, GenO, SizeO, GenTest, SizeTest, Chain, ZeroCode, CaseOff;
    var lend := at + SizeS(s);
    var lcont := at + SizeTest(s.cond, s.testFirst) + SizeS(s.body);
    SizeOfTest(s.cond, s.testFirst, lend, at, k);
    SizeOfO(s.post, lcont, k);
    SizeOfTest(s.cond, !s.testFirst, lend, lcont + SizeO(s.post), k);
  }

  lemma LenPrologue(f: Func, at: int, k: Links, at2: int, k2: Links)
    ensures |Prologue(f, at, k)| == |Prologue(f, at2, k2)|
  {
    hide ParamCode;
  }

  lemma SizeOfF(f: Func, at: int, k: Links)
    ensures |GenF(f, at, k)| == SizeF(f)
  {
    hide Prologue, GenS, SizeS;
    LenPrologue(f, at, k, 0, Links(0, 0, []));
    var c := |Prologue(f, at, k)|;
    SizeOfS(f.body, at + c, k, Exits(0, 0, at + c + SizeS(f.body) + 1));
  }

  lemma {:induction false} SizeOfFs(fs: seq<Func>, at: int, k: Links)
    ensures |GenFs(fs, at, k)| == SizeFs(fs)
    decreases |fs|
  {
    hide GenF, SizeF;
    if fs != [] {
      SizeOfF(fs[0], at, k);
      SizeOfFs(fs[1..], at + SizeF(fs[0]), k);
    }
  }
}
