// Evaluating a compiled expression: the flat loop over a fixed stack, the
// recursive value of a tree, and that they agree.

module AppEval {
  import opened Basics
  import Words
  import opened AppNum
  import opened AppValue
  import opened AppParse
  import opened AppPrint
  import opened AppPost

  /** What an expression can read: variables, widget texts (none without a
      window), the key, the time fields and the random words in order. */
  datatype World = World(vars: seq<Val>, texts: seq<string>, key: Option<Val>, times: nat -> Val, bits: nat -> int)

  function LeafVal(w: World, l: AppParse.Leaf): Val {
    match l
    case Var(i) => if i < |w.vars| then w.vars[i] else Err
    case Widget(i) => if i < |w.texts| then StrVal(w.texts[i]) else Err
    case Key => if w.key.Some? then w.key.value else StrVal("")
    case Time(f) => w.times(f)
  }

  /** rand uses up a random word only when its argument is one it can serve. */
  function Draws(op: Op1, a: Val): nat {
    if op.Rand? && a.Num? && 1 <= Words.TDiv(a.n, SCALE) <= RAND_MAX then 1 else 0
  }

  // ---- the recursive value ------------------------------------------------------------

  /** The value of a tree and how many random words have been used after it. */
  function ValueOf(w: World, t: Tree, n: nat): (Val, nat)
    requires WellFormed(t)
    decreases t, 1
  {
    match t
    case Number(v) => (Num(v), n)
    case Quote(s) => (StrVal(s), n)
    case Leaf(l) => (LeafVal(w, l), n)
    case Prefix(neg, x) =>
      var a := ValueOf(w, x, n);
      (Apply1(if neg then Neg else Not, a.0, w.bits(a.1)), a.1)
    case Binary(i, l, r) =>
      var a := ValueOf(w, l, n);
      var b := ValueOf(w, r, a.1);
      (Apply2(OPERATORS[i].1, a.0, b.0), b.1)
    case Apply(f, args) =>
      var vs := ValuesOf(w, t, 0, n);
      FunctionEffect(f);
      Called(w, FUNCTIONS[f].1, vs.0, vs.1)
  }

  function ValuesOf(w: World, t: Tree, k: nat, n: nat): (r: (seq<Val>, nat))
    requires WellFormed(t) && t.Apply? && k <= |t.args|
    ensures |r.0| == |t.args| - k
    decreases t, 0, |t.args| - k
  {
    if k == |t.args| then ([], n) else
    var a := ValueOf(w, t.args[k], n);
    var more := ValuesOf(w, t, k + 1, a.1);
    ([a.0] + more.0, more.1)
  }

  function Called(w: World, op: FlatOp, vs: seq<Val>, n: nat): (Val, nat)
    requires |vs| >= 1 && Effect(op) + |vs| == 1
  {
    match op
    case Un(o) => (Apply1(o, vs[0], w.bits(n)), n + Draws(o, vs[0]))
    case Bi(o) => (Apply2(o, vs[0], vs[1]), n)
    case Tri(o) => (Apply3(o, vs[0], vs[1], vs[2]), n)
  }

  // ---- the flat loop ------------------------------------------------------------------------

  /** The stack and the random words used, or the early error exit. */
  datatype Run = Halt | Go(stack: seq<Val>, n: nat)

  function Push(s: seq<Val>, v: Val, n: nat): Run { if |s| >= STACK then Halt else Go(s + [v], n) }

  /** One operator on the top of the stack. */
  function Operate(w: World, op: FlatOp, s: seq<Val>, n: nat): Run
    requires !op.Const? && !op.StrAt?
  {
    var h := |s|;
    match op
    case Read(l) => Push(s, LeafVal(w, l), n)
    case Un(o) => if h < 1 then Halt else Go(s[..h - 1] + [Apply1(o, s[h - 1], w.bits(n))], n + Draws(o, s[h - 1]))
    case Bi(o) => if h < 2 then Halt else Go(s[..h - 2] + [Apply2(o, s[h - 2], s[h - 1])], n)
    case Tri(o) => if h < 3 then Halt else Go(s[..h - 3] + [Apply3(o, s[h - 3], s[h - 2], s[h - 1])], n)
  }

  function StepPiece(w: World, p: Piece, s: seq<Val>, n: nat): Run {
    match p
    case Lit(v) => Push(s, Num(v), n)
    case Txt(x) => Push(s, StrVal(x), n)
    case Do(op) => if op.Const? || op.StrAt? then Halt else Operate(w, op, s, n)
  }

  function RunAll(w: World, ps: seq<Piece>, s: seq<Val>, n: nat): Run
    decreases |ps|
  {
    if ps == [] then Go(s, n) else
    var r := StepPiece(w, ps[0], s, n);
    if r.Halt? then Halt else RunAll(w, ps[1..], r.stack, r.n)
  }

  function RunMore(w: World, r: Run, ps: seq<Piece>): Run {
    if r.Halt? then Halt else RunAll(w, ps, r.stack, r.n)
  }

  lemma {:induction false} RunCat(w: World, a: seq<Piece>, b: seq<Piece>, s: seq<Val>, n: nat)
    ensures RunAll(w, a + b, s, n) == RunMore(w, RunAll(w, a, s, n), b)
    decreases |a|
  {
    hide StepPiece;
    if a == [] {
      assert a + b == b;
    } else {
      assert (a + b)[0] == a[0] && (a + b)[1..] == a[1..] + b;
      var r := StepPiece(w, a[0], s, n);
      if r.Go? {
        RunCat(w, a[1..], b, r.stack, r.n);
      }
    }
  }

  lemma RunOne(w: World, p: Piece, s: seq<Val>, n: nat)
    ensures RunAll(w, [p], s, n) == StepPiece(w, p, s, n)
  {
    hide StepPiece;
    var r := StepPiece(w, p, s, n);
    if r.Go? {
      assert RunAll(w, [], r.stack, r.n) == r;
    }
  }

  lemma {:induction false} PeakCat(h: int, a: seq<Piece>, b: seq<Piece>)
    requires a != []
    ensures Peak(h, a + b) >= Peak(h, a) && Peak(h, a + b) >= Peak(h + Net(a), b)
    decreases |a|
  {
    assert (a + b)[0] == a[0] && (a + b)[1..] == a[1..] + b;
    if |a| == 1 {
      assert a[1..] + b == b;
      PeakStart(h + PieceEffect(a[0]), b);
    } else {
      PeakCat(h + PieceEffect(a[0]), a[1..], b);
    }
  }

  lemma PeakStart(h: int, b: seq<Piece>)
    ensures b == [] ==> Peak(h, b) == h
  {
  }

  lemma PostSome(t: Tree)
    requires WellFormed(t)
    ensures Post(t) != []
  {
  }

  /** Running a tree's postorder pushes the tree's value and leaves the rest of
      the stack alone, while the stack has room. */
  lemma {:induction false} RunsTree(w: World, t: Tree, s: seq<Val>, n: nat)
    requires WellFormed(t) && Peak(|s|, Post(t)) <= STACK
    ensures RunAll(w, Post(t), s, n) == Go(s + [ValueOf(w, t, n).0], ValueOf(w, t, n).1)
    decreases t, 1
  {
    hide RunAll, Peak, PostArgs, ValuesOf, Called, Apply1, Apply2, Net, LeafVal;
    match t
    case Number(v) =>
      PeakOne(|s|, Lit(v));
      RunOne(w, Lit(v), s, n);
    case Quote(x) =>
      PeakOne(|s|, Txt(x));
      RunOne(w, Txt(x), s, n);
    case Leaf(l) =>
      PeakOne(|s|, Do(Read(l)));
      RunOne(w, Do(Read(l)), s, n);
    case Prefix(neg, x) =>
      RunsPrefix(w, t, s, n);
    case Binary(i, l, r) =>
      RunsBinary(w, t, s, n);
    case Apply(f, args) =>
      RunsCall(w, t, s, n);
  }

  lemma PeakOne(h: int, p: Piece)
    ensures Peak(h, [p]) == h + PieceEffect(p)
  {
    assert Peak(h + PieceEffect(p), []) == h + PieceEffect(p);
  }

  lemma {:induction false} RunsPrefix(w: World, t: Tree, s: seq<Val>, n: nat)
    requires WellFormed(t) && t.Prefix? && Peak(|s|, Post(t)) <= STACK
    ensures RunAll(w, Post(t), s, n) == Go(s + [ValueOf(w, t, n).0], ValueOf(w, t, n).1)
    decreases t, 0
  {
    hide RunAll, Peak, Apply1, Net;
    var op := if t.neg then Neg else Not;
    PostSome(t.x);
    PeakCat(|s|, Post(t.x), [Do(Un(op))]);
    RunsTree(w, t.x, s, n);
    RunCat(w, Post(t.x), [Do(Un(op))], s, n);
    var a := ValueOf(w, t.x, n);
    var s1 := s + [a.0];
    RunOne(w, Do(Un(op)), s1, a.1);
    assert s1[..|s1| - 1] == s && s1[|s1| - 1] == a.0;
  }

  lemma {:induction false} RunsBinary(w: World, t: Tree, s: seq<Val>, n: nat)
    requires WellFormed(t) && t.Binary? && Peak(|s|, Post(t)) <= STACK
    ensures RunAll(w, Post(t), s, n) == Go(s + [ValueOf(w, t, n).0], ValueOf(w, t, n).1)
    decreases t, 0
  {
    hide RunAll, Peak, Apply2, Net;
    var op := Do(Bi(OPERATORS[t.i].1));
    PostSome(t.l);
    PeakCat(|s|, Post(t.l) + Post(t.r), [op]);
    PeakCat(|s|, Post(t.l), Post(t.r));
    NetOne(t.l);
    RunsTree(w, t.l, s, n);
    var a := ValueOf(w, t.l, n);
    var s1 := s + [a.0];
    RunsTree(w, t.r, s1, a.1);
    var b := ValueOf(w, t.r, a.1);
    var s2 := s1 + [b.0];
    RunCat(w, Post(t.l) + Post(t.r), [op], s, n);
    RunCat(w, Post(t.l), Post(t.r), s, n);
    RunOne(w, op, s2, b.1);
    assert s2[..|s2| - 2] == s && s2[|s2| - 2] == a.0 && s2[|s2| - 1] == b.0;
  }

  lemma {:induction false} RunsCall(w: World, t: Tree, s: seq<Val>, n: nat)
    requires WellFormed(t) && t.Apply? && Peak(|s|, Post(t)) <= STACK
    ensures RunAll(w, Post(t), s, n) == Go(s + [ValueOf(w, t, n).0], ValueOf(w, t, n).1)
    decreases t, 0, |t.args| + 1
  {
    hide RunAll, Peak, Called, StepPiece, Net, ValuesOf, PostArgs;
    var op := FUNCTIONS[t.f].1;
    FunctionEffect(t.f);
    ArgsSome(t);
    PeakCat(|s|, PostArgs(t, 0), [Do(op)]);
    RunsArgs(w, t, 0, s, n);
    var vs := ValuesOf(w, t, 0, n);
    var s1 := s + vs.0;
    RunCat(w, PostArgs(t, 0), [Do(op)], s, n);
    RunOne(w, Do(op), s1, vs.1);
    Operates(w, op, s, vs.0, vs.1);
  }

  /** The operands are the top of the stack, the last one uppermost. */
  lemma Operates(w: World, op: FlatOp, s: seq<Val>, vs: seq<Val>, n: nat)
    requires |vs| >= 1 && Effect(op) + |vs| == 1
    ensures var c := Called(w, op, vs, n); StepPiece(w, Do(op), s + vs, n) == Go(s + [c.0], c.1)
  {
    hide Apply1, Apply2, Apply3;
    Popped(s, vs);
  }

  lemma Popped(s: seq<Val>, vs: seq<Val>)
    ensures (s + vs)[..|s + vs| - |vs|] == s && forall i :: 0 <= i < |vs| ==> (s + vs)[|s + vs| - |vs| + i] == vs[i]
  {
  }

  lemma ArgsSome(t: Tree)
    requires WellFormed(t) && t.Apply?
    ensures PostArgs(t, 0) != []
  {
    FunctionEffect(t.f);
    PostSome(t.args[0]);
  }

  lemma {:induction false} RunsArgs(w: World, t: Tree, k: nat, s: seq<Val>, n: nat)
    requires WellFormed(t) && t.Apply? && k <= |t.args| && (k < |t.args| ==> Peak(|s|, PostArgs(t, k)) <= STACK)
    ensures RunAll(w, PostArgs(t, k), s, n) == Go(s + ValuesOf(w, t, k, n).0, ValuesOf(w, t, k, n).1)
    decreases t, 0, |t.args| - k
  {
    hide Peak, Net, Post, ValueOf, StepPiece;
    if k == |t.args| {
      assert s + ValuesOf(w, t, k, n).0 == s;
    } else {
      var arg, rest := Post(t.args[k]), PostArgs(t, k + 1);
      PostSome(t.args[k]);
      PeakCat(|s|, arg, rest);
      NetOne(t.args[k]);
      RunsTree(w, t.args[k], s, n);
      var a := ValueOf(w, t.args[k], n);
      RunCat(w, arg, rest, s, n);
      RunsArgs(w, t, k + 1, s + [a.0], a.1);
      assert s + [a.0] + ValuesOf(w, t, k + 1, a.1).0 == s + ([a.0] + ValuesOf(w, t, k + 1, a.1).0);
    }
  }
}
