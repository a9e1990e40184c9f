// The postorder of a tree, and that compiling writes exactly it: for the
// printed text of a tree, and for every text the compiler accepts.

module AppPost {
  import opened Basics
  import opened AppNum
  import opened AppValue
  import opened AppParse
  import opened AppPrint

  /** One operation with its constant or string spelled out. */
  datatype Piece = Lit(v: int) | Txt(s: string) | Do(op: FlatOp)

  /** Operands left to right, then the operator. */
  function Post(t: Tree): seq<Piece>
    requires WellFormed(t)
    decreases t, 1
  {
    match t
    case Number(v) => [Lit(v)]
    case Quote(s) => [Txt(s)]
    case Leaf(l) => [Do(Read(l))]
    case Prefix(neg, x) => Post(x) + [Do(Un(if neg then Neg else Not))]
    case Binary(i, l, r) => Post(l) + Post(r) + [Do(Bi(OPERATORS[i].1))]
    case Apply(f, args) => PostArgs(t, 0) + [Do(FUNCTIONS[f].1)]
  }

  function PostArgs(t: Tree, k: nat): seq<Piece>
    requires WellFormed(t) && t.Apply? && k <= |t.args|
    decreases t, 0, |t.args| - k
  {
    if k == |t.args| then [] else Post(t.args[k]) + PostArgs(t, k + 1)
  }

  /** How many levels of parentheses, calls and prefix operators the text opens. */
  function Nest(t: Tree, q: nat): nat
    requires WellFormed(t)
    decreases t, 1
  {
    match t
    case Number(_) => 0
    case Quote(_) => 0
    case Leaf(_) => 0
    case Prefix(_, x) => 1 + Nest(x, 6)
    case Binary(i, l, r) => (if Prec(i) > q then 0 else 1) + Most(Nest(l, Prec(i) - 1), Nest(r, Prec(i)))
    case Apply(_, _) => 1 + NestArgs(t, 0)
  }

  function NestArgs(t: Tree, k: nat): nat
    requires WellFormed(t) && t.Apply? && k <= |t.args|
    decreases t, 0, |t.args| - k
  {
    if k == |t.args| then 0 else Most(Nest(t.args[k], 0), NestArgs(t, k + 1))
  }

  function EmitPiece(st: St, p: Piece): Option<St> {
    match p
    case Lit(v) => EmitNum(st, v)
    case Txt(s) => EmitStr(st, s)
    case Do(op) => Emit(st, op)
  }

  function EmitAll(st: St, ps: seq<Piece>): Option<St>
    decreases |ps|
  {
    if ps == [] then Some(st) else
    var e := EmitPiece(st, ps[0]);
    if e.None? then None else EmitAll(e.value, ps[1..])
  }

  function Then(st: Option<St>, ps: seq<Piece>): Option<St> {
    if st.None? then None else EmitAll(st.value, ps)
  }

  lemma {:induction false} EmitAllCat(st: St, a: seq<Piece>, b: seq<Piece>)
    ensures EmitAll(st, a + b) == Then(EmitAll(st, a), b)
    decreases |a|
  {
    hide EmitPiece;
    if a == [] {
      assert a + b == b;
    } else {
      assert (a + b)[0] == a[0] && (a + b)[1..] == a[1..] + b;
      var e := EmitPiece(st, a[0]);
      if e.Some? {
        EmitAllCat(e.value, a[1..], b);
      }
    }
  }

  lemma EmitOne(st: St, p: Piece)
    ensures EmitAll(st, [p]) == EmitPiece(st, p)
  {
    hide EmitPiece;
    var e := EmitPiece(st, p);
    if e.Some? {
      assert EmitAll(e.value, []) == e;
    }
  }

  function AtDepth(st: Option<St>, d: int): Option<St> {
    if st.None? then None else Some(st.value.(depth := d))
  }

  lemma PieceDepth(st: St, d: int, p: Piece)
    ensures EmitPiece(st.(depth := d), p) == AtDepth(EmitPiece(st, p), d)
    ensures EmitPiece(st, p).Some? ==> EmitPiece(st, p).value.depth == st.depth
  {
    hide ConstFrom;
  }

  /** Emitting neither reads nor writes the nesting depth. */
  lemma {:induction false} DepthFree(st: St, d: int, ps: seq<Piece>)
    ensures EmitAll(st.(depth := d), ps) == AtDepth(EmitAll(st, ps), d)
    ensures EmitAll(st, ps).Some? ==> EmitAll(st, ps).value.depth == st.depth
    decreases |ps|
  {
    hide EmitPiece;
    if ps != [] {
      PieceDepth(st, d, ps[0]);
      var e := EmitPiece(st, ps[0]);
      if e.Some? {
        DepthFree(e.value, d, ps[1..]);
      }
    }
  }

  lemma EmitThenOne(st: St, ps: seq<Piece>, op: FlatOp)
    ensures EmitAll(st, ps + [Do(op)]) == if EmitAll(st, ps).None? then None else Emit(EmitAll(st, ps).value, op)
  {
    hide EmitAll, Emit;
    EmitAllCat(st, ps, [Do(op)]);
    if EmitAll(st, ps).Some? {
      EmitOne(EmitAll(st, ps).value, Do(op));
    }
  }

  /** Emitting a tree is emitting its postorder, while the nesting limit allows. */
  lemma {:induction false} EmitsPost(t: Tree, q: nat, st: St)
    requires WellFormed(t) && st.depth <= PAREN_DEPTH
    ensures EmitTree(t, q, st) == if st.depth + Nest(t, q) <= PAREN_DEPTH then EmitAll(st, Post(t)) else None
    decreases t, 3
  {
    hide EmitAll, Emit, EmitNum, EmitStr, EmitBare, EmitArgs, PostArgs, NestArgs;
    match t
    case Number(v) => EmitOne(st, Lit(v));
    case Quote(s) => EmitOne(st, Txt(s));
    case Leaf(l) => EmitOne(st, Do(Read(l)));
    case Prefix(neg, x) =>
      if Deeper(st).Some? {
        EmitsPost(x, 6, Deeper(st).value);
        DepthFree(st, st.depth + 1, Post(x));
        EmitThenOne(st, Post(x), Un(if neg then Neg else Not));
      }
    case Binary(i, l, r) => EmitsBinary(t, q, st);
    case Apply(f, args) =>
      if Deeper(st).Some? {
        EmitsArgs(t, 0, Deeper(st).value);
        DepthFree(st, st.depth + 1, PostArgs(t, 0));
        EmitThenOne(st, PostArgs(t, 0), FUNCTIONS[f].1);
      }
  }

  lemma {:induction false} EmitsBinary(t: Tree, q: nat, st: St)
    requires WellFormed(t) && t.Binary? && st.depth <= PAREN_DEPTH
    ensures EmitTree(t, q, st) == if st.depth + Nest(t, q) <= PAREN_DEPTH then EmitAll(st, Post(t)) else None
    decreases t, 2
  {
    hide EmitAll, EmitBare, Post;
    if Prec(t.i) > q {
      EmitsBare(t, st);
    } else if Deeper(st).Some? {
      EmitsBare(t, Deeper(st).value);
      DepthFree(st, st.depth + 1, Post(t));
    }
  }

  lemma {:induction false} EmitsBare(t: Tree, st: St)
    requires WellFormed(t) && t.Binary? && st.depth <= PAREN_DEPTH
    ensures EmitBare(t, st) == if st.depth + Most(Nest(t.l, Prec(t.i) - 1),
            Nest(t.r, Prec(t.i))) <= PAREN_DEPTH then EmitAll(st, Post(t)) else None
    decreases t, 1
  {
    hide EmitAll, Emit, EmitTree, Nest;
    var op := OPERATORS[t.i].1;
    EmitsPost(t.l, Prec(t.i) - 1, st);
    EmitAllCat(st, Post(t.l), Post(t.r));
    EmitThenOne(st, Post(t.l) + Post(t.r), Bi(op));
    if EmitAll(st, Post(t.l)).Some? {
      DepthFree(st, 0, Post(t.l));
      EmitsPost(t.r, Prec(t.i), EmitAll(st, Post(t.l)).value);
    }
  }

  lemma {:induction false} EmitsArgs(t: Tree, k: nat, st: St)
    requires WellFormed(t) && t.Apply? && k <= |t.args| && st.depth <= PAREN_DEPTH
    ensures EmitArgs(t, k, st) == if st.depth + NestArgs(t, k) <= PAREN_DEPTH then EmitAll(st, PostArgs(t, k)) else None
    decreases t, 0, |t.args| - k
  {
    hide Emit, EmitTree, Nest, Post;
    if k < |t.args| {
      EmitsPost(t.args[k], 0, st);
      EmitAllCat(st, Post(t.args[k]), PostArgs(t, k + 1));
      if EmitAll(st, Post(t.args[k])).Some? {
        DepthFree(st, 0, Post(t.args[k]));
        EmitsArgs(t, k + 1, EmitAll(st, Post(t.args[k])).value);
      }
    }
  }

  // ---- the count of values ---------------------------------------------------------------

  function PieceEffect(p: Piece): int { if p.Do? then Effect(p.op) else 1 }

  function Net(ps: seq<Piece>): int { if ps == [] then 0 else PieceEffect(ps[0]) + Net(ps[1..]) }

  lemma {:induction false} NetCat(a: seq<Piece>, b: seq<Piece>)
    ensures Net(a + b) == Net(a) + Net(b)
  {
    if a == [] {
      assert a + b == b;
    } else {
      assert (a + b)[0] == a[0] && (a + b)[1..] == a[1..] + b;
      NetCat(a[1..], b);
    }
  }

  /** A tree leaves one value. */
  lemma {:induction false} NetOne(t: Tree)
    requires WellFormed(t)
    ensures Net(Post(t)) == 1
    decreases t, 1
  {
    match t
    case Number(_) =>
    case Quote(_) =>
    case Leaf(_) =>
    case Prefix(neg, x) =>
      NetOne(x);
      NetCat(Post(x), [Do(Un(if neg then Neg else Not))]);
    case Binary(i, l, r) =>
      NetOne(l);
      NetOne(r);
      NetCat(Post(l), Post(r));
      NetCat(Post(l) + Post(r), [Do(Bi(OPERATORS[i].1))]);
    case Apply(f, args) =>
      NetArgs(t, 0);
      FunctionEffect(f);
      NetCat(PostArgs(t, 0), [Do(FUNCTIONS[f].1)]);
  }

  lemma FunctionEffect(f: nat)
    requires f < |FUNCTIONS|
    ensures Effect(FUNCTIONS[f].1) + FUNCTIONS[f].2 == 1
    ensures FUNCTIONS[f].2 == 1 <==> FUNCTIONS[f].1.Un?
    ensures FUNCTIONS[f].2 == 2 <==> FUNCTIONS[f].1.Bi?
    ensures FUNCTIONS[f].2 == 3 <==> FUNCTIONS[f].1.Tri?
    ensures 1 <= FUNCTIONS[f].2 <= 3
  {
  }

  lemma {:induction false} NetArgs(t: Tree, k: nat)
    requires WellFormed(t) && t.Apply? && k <= |t.args|
    ensures Net(PostArgs(t, k)) == |t.args| - k
    decreases t, 0, |t.args| - k
  {
    if k < |t.args| {
      NetOne(t.args[k]);
      NetArgs(t, k + 1);
      NetCat(Post(t.args[k]), PostArgs(t, k + 1));
    }
  }

  lemma PieceCounts(st: St, p: Piece)
    ensures EmitPiece(st, p).Some? ==>
      EmitPiece(st, p).value.cur == st.cur + PieceEffect(p) && st.max <= EmitPiece(st, p).value.max <= STACK
        && EmitPiece(st, p).value.cur <= STACK
  {
    hide ConstFrom;
  }

  lemma {:induction false} EmitAllCounts(st: St, ps: seq<Piece>)
    ensures EmitAll(st, ps).Some? ==> EmitAll(st, ps).value.cur == st.cur + Net(ps)
    decreases |ps|
  {
    hide EmitPiece;
    if ps != [] {
      PieceCounts(st, ps[0]);
      if EmitPiece(st, ps[0]).Some? {
        EmitAllCounts(EmitPiece(st, ps[0]).value, ps[1..]);
      }
    }
  }

  function Fresh(st: St): St { st.(cur := 0, max := 0, depth := 0) }

  /** Compiling the text of a tree writes the tree's postorder, and is refused
      exactly when the nesting or one of the size limits is passed. */
  lemma RoundTrips(env: Env, t: Tree, st: St)
    requires WellFormed(t) && Printable(env, t)
    ensures Compile(env, Print(env, t, 0), st) == if Nest(t, 0) <= PAREN_DEPTH then EmitAll(Fresh(st),
            Post(t)) else None
  {
    hide Climb, Operands, Print, EmitTree, EmitAll, Post, Nest, Printable, NextPrec;
    var src, s0 := Print(env, t, 0), Fresh(st);
    PrintStarts(env, t, 0);
    NoOperator("");
    TreeParses(env, t, 0, 0, "", s0);
    assert src + "" == src;
    EmitsPost(t, 0, s0);
    var e := EmitTree(t, 0, s0);
    if e.Some? {
      ClimbStops(env, "", 0, e.value);
      NetOne(t);
      EmitAllCounts(s0, Post(t));
    }
  }

  // ---- the size limits ---------------------------------------------------------------------

  /** The constant table after `ps`: each number once, in order of first use. */
  function Consts(konst: seq<int>, ps: seq<Piece>): seq<int>
    decreases |ps|
  {
    if ps == [] then konst
    else Consts(WithConst(konst, ps[0]), ps[1..])
  }

  /** What the strings of `ps` take in the pool. */
  function PoolSize(ps: seq<Piece>): nat {
    if ps == [] then 0 else (if ps[0].Txt? then |ps[0].s| + 1 else 0) + PoolSize(ps[1..])
  }

  predicate ShortTexts(ps: seq<Piece>) { forall i :: 0 <= i < |ps| && ps[i].Txt? ==> |ps[i].s| < TEXT_MAX }

  /** The most values waiting at any time. */
  function Peak(cur: int, ps: seq<Piece>): int
    decreases |ps|
  {
    if ps == [] then cur
    else
      var next := cur + PieceEffect(ps[0]);
      var later := Peak(next, ps[1..]);
      if next > later then next else later
  }

  predicate Room(st: St) {
    |st.ops| <= MAX_OPS && |st.konst| <= MAX_CONSTS && |st.pool| <= STR_POOL && st.cur <= st.max <= STACK
  }

  predicate Fits(st: St, ps: seq<Piece>) {
    && |st.ops| + |ps| <= MAX_OPS
    && Peak(st.cur, ps) <= STACK
    && |Consts(st.konst, ps)| <= MAX_CONSTS
    && |st.pool| + PoolSize(ps) <= STR_POOL
    && ShortTexts(ps)
  }

  lemma {:induction false} ConstsGrow(konst: seq<int>, ps: seq<Piece>)
    ensures |Consts(konst, ps)| >= |konst|
    decreases |ps|
  {
    if ps != [] {
      ConstsGrow(WithConst(konst, ps[0]), ps[1..]);
    }
  }

  lemma {:induction false} ConstFound(konst: seq<int>, v: int, i: nat)
    requires i <= |konst|
    ensures ConstFrom(konst, v, i) >= 0 <==> v in konst[i..]
    decreases |konst| - i
  {
    if i < |konst| {
      assert konst[i..] == [konst[i]] + konst[i + 1..];
      ConstFound(konst, v, i + 1);
    }
  }

  function WithConst(konst: seq<int>, p: Piece): seq<int> {
    if p.Lit? && p.v !in konst then konst + [p.v] else konst
  }

  predicate PieceOk(st: St, p: Piece) {
    && |st.ops| < MAX_OPS
    && st.cur + PieceEffect(p) <= STACK
    && |WithConst(st.konst, p)| <= MAX_CONSTS
    && (p.Txt? ==> |p.s| < TEXT_MAX && |st.pool| + |p.s| + 1 <= STR_POOL)
  }

  lemma PieceFits(st: St, p: Piece)
    requires Room(st)
    ensures EmitPiece(st, p).Some? <==> PieceOk(st, p)
    ensures PieceOk(st, p) ==> Grown(st, p, EmitPiece(st, p).value)
  {
    hide ConstFrom;
    if p.Lit? {
      ConstFound(st.konst, p.v, 0);
      assert st.konst[0..] == st.konst;
    }
  }

  predicate Grown(st: St, p: Piece, e: St) {
    && Room(e)
    && |e.ops| == |st.ops| + 1
    && e.konst == WithConst(st.konst, p)
    && e.cur == st.cur + PieceEffect(p)
    && |e.pool| == |st.pool| + if p.Txt? then |p.s| + 1 else 0
  }

  /** Everything is emitted exactly when the operations, the values waiting, the
      distinct numbers and the strings all fit. */
  lemma {:induction false} EmitAllFits(st: St, ps: seq<Piece>)
    requires Room(st)
    ensures EmitAll(st, ps).Some? <==> Fits(st, ps)
    decreases |ps|
  {
    hide EmitPiece, Room;
    if ps != [] {
      PieceFits(st, ps[0]);
      ConstsGrow(WithConst(st.konst, ps[0]), ps[1..]);
      ShortSplit(ps);
      if EmitPiece(st, ps[0]).Some? {
        EmitAllFits(EmitPiece(st, ps[0]).value, ps[1..]);
      }
    } else {
      NothingFits(st);
    }
  }

  lemma NothingFits(st: St)
    requires Room(st)
    ensures Fits(st, [])
  {
  }

  lemma ShortSplit(ps: seq<Piece>)
    requires ps != []
    ensures ShortTexts(ps) <==> (ps[0].Txt? ==> |ps[0].s| < TEXT_MAX) && ShortTexts(ps[1..])
  {
    if ShortTexts(ps[1..]) && (ps[0].Txt? ==> |ps[0].s| < TEXT_MAX) {
      assert forall i :: 0 < i < |ps| ==> ps[i] == ps[1..][i - 1];
    }
  }
}
