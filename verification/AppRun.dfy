// Running an accepted expression: the operations as stored, the evaluator's
// loop, and what it returns.

module AppRun {
  import opened Basics
  import opened AppNum
  import opened AppValue
  import opened AppParse
  import opened AppPrint
  import opened AppPost
  import opened AppEval
  import opened AppAccept

  // ---- operations as stored --------------------------------------------------------------

  /** The string that starts at `off`, up to its terminator. */
  function StringAt(pool: string, off: nat): string
    decreases |pool| - off
  {
    if off >= |pool| || pool[off] == '\0' then "" else [pool[off]] + StringAt(pool, off + 1)
  }

  function Decode(st: St, op: FlatOp): Piece {
    match op
    case Const(k) => Lit(if k < |st.konst| then st.konst[k] else 0)
    case StrAt(off) => Txt(if off < STR_POOL then StringAt(st.pool, off) else "")
    case _ => Do(op)
  }

  function Decoded(st: St): (ps: seq<Piece>)
    ensures |ps| == |st.ops|
  {
    seq(|st.ops|, i requires 0 <= i < |st.ops| => Decode(st, st.ops[i]))
  }

  /** A reference whose meaning cannot change as the tables grow. */
  predicate Settled(st: St, op: FlatOp) {
    && (op.Const? ==> op.k < |st.konst|)
    && (op.StrAt? ==> op.off + |StringAt(st.pool, op.off)| < |st.pool|)
  }

  predicate Sound(st: St) {
    |st.pool| <= STR_POOL && forall i :: 0 <= i < |st.ops| ==> Settled(st, st.ops[i])
  }

  lemma {:induction false} StringStays(pool: string, more: string, off: nat)
    requires off + |StringAt(pool, off)| < |pool|
    ensures StringAt(pool + more, off) == StringAt(pool, off)
    decreases |pool| - off
  {
    if pool[off] != '\0' {
      StringStays(pool, more, off + 1);
    }
  }

  lemma {:induction false} StringStored(pool: string, s: string, k: nat)
    requires '\0' !in s && k <= |s|
    ensures StringAt(pool + s + ['\0'], |pool| + k) == s[k..]
    decreases |s| - k
  {
    if k < |s| {
      assert (pool + s + ['\0'])[|pool| + k] == s[k];
      StringStored(pool, s, k + 1);
    }
  }

  /** Tables that grow keep what settled references mean. */
  lemma Stays(st: St, e: St, op: FlatOp, k: seq<int>, p: string)
    requires Settled(st, op) && e.konst == st.konst + k && e.pool == st.pool + p
    ensures Settled(e, op) && Decode(e, op) == Decode(st, op)
  {
    hide StringAt;
    if op.StrAt? {
      StringStays(st.pool, p, op.off);
    }
  }

  lemma PieceStored(st: St, p: Piece)
    requires Sound(st) && EmitPiece(st, p).Some? && (p.Txt? ==> '\0' !in p.s)
    requires (p.Do? ==> !p.op.Const? && !p.op.StrAt?)
    ensures var e := EmitPiece(st, p).value; Sound(e) && Decoded(e) == Decoded(st) + [p]
  {
    hide ConstFrom, StringAt, Decode, Settled;
    var e := EmitPiece(st, p).value;
    var k, s := NewConst(st, p), if p.Txt? then p.s + ['\0'] else "";
    assert e.konst == st.konst + k && e.pool == st.pool + s;
    forall i | 0 <= i < |st.ops|
      ensures Settled(e, st.ops[i]) && Decode(e, st.ops[i]) == Decode(st, st.ops[i])
    {
      Stays(st, e, st.ops[i], k, s);
    }
    LastStored(st, p);
    assert e.ops[..|st.ops|] == st.ops && |e.ops| == |st.ops| + 1;
    forall i | 0 <= i < |e.ops|
      ensures Settled(e, e.ops[i]) && Decode(e, e.ops[i]) == (Decoded(st) + [p])[i]
    {
    }
  }

  function NewConst(st: St, p: Piece): seq<int> {
    if p.Lit? && ConstFrom(st.konst, p.v, 0) < 0 then [p.v] else []
  }

  lemma LastStored(st: St, p: Piece)
    requires Sound(st) && EmitPiece(st, p).Some? && (p.Txt? ==> '\0' !in p.s)
    requires (p.Do? ==> !p.op.Const? && !p.op.StrAt?)
    ensures var e := EmitPiece(st, p).value; |e.ops| == |st.ops| + 1 && e.ops[..|st.ops|] == st.ops
    ensures var e := EmitPiece(st, p).value;
            Settled(e, e.ops[|st.ops|]) && Decode(e, e.ops[|st.ops|]) == p && |e.pool| <= STR_POOL
  {
    hide ConstFrom, StringAt;
    if p.Txt? {
      StringStored(st.pool, p.s, 0);
      assert p.s[0..] == p.s;
    }
  }

  predicate Storable(ps: seq<Piece>) {
    forall i :: 0 <= i < |ps| ==>
      (ps[i].Txt? ==> '\0' !in ps[i].s) && (ps[i].Do? ==> !ps[i].op.Const? && !ps[i].op.StrAt?)
  }

  /** What is emitted can be read back, and nothing already there changes. */
  lemma {:induction false} AllStored(st: St, ps: seq<Piece>)
    requires Sound(st) && EmitAll(st, ps).Some? && Storable(ps)
    ensures var e := EmitAll(st, ps).value; Sound(e) && Decoded(e) == Decoded(st) + ps
    decreases |ps|
  {
    hide EmitPiece, Decoded, Sound;
    if ps != [] {
      var e := EmitPiece(st, ps[0]).value;
      PieceStored(st, ps[0]);
      AllStored(e, ps[1..]);
      assert Decoded(st) + [ps[0]] + ps[1..] == Decoded(st) + ps;
    } else {
      assert Decoded(st) + ps == Decoded(st);
    }
  }

  lemma {:induction false} TreeStorable(t: Tree)
    requires WellFormed(t) && Spelled(t)
    ensures Storable(Post(t))
    decreases t, 1
  {
    match t
    case Number(_) =>
    case Quote(_) =>
    case Leaf(_) =>
    case Prefix(_, x) => TreeStorable(x);
    case Binary(_, l, r) =>
      TreeStorable(l);
      TreeStorable(r);
    case Apply(f, _) =>
      FunctionEffect(f);
      ArgsStorable(t, 0);
  }

  lemma {:induction false} ArgsStorable(t: Tree, k: nat)
    requires WellFormed(t) && Spelled(t) && t.Apply? && k <= |t.args|
    ensures Storable(PostArgs(t, k))
    decreases t, 0, |t.args| - k
  {
    if k < |t.args| {
      TreeStorable(t.args[k]);
      ArgsStorable(t, k + 1);
    }
  }

  // ---- the compiler's stack simulation ---------------------------------------------------------

  lemma StepHeight(w: World, p: Piece, s: seq<Val>, n: nat)
    ensures StepPiece(w, p, s, n).Go? ==> |StepPiece(w, p, s, n).stack| == |s| + PieceEffect(p)
  {
    hide Apply1, Apply2, Apply3, LeafVal;
  }

  /** A run that is not cut short has, after any number of operations, exactly
      as many values as the compiler counted there. */
  lemma {:induction false} HeightTracks(w: World, st: St, ps: seq<Piece>, i: nat, s: seq<Val>, n: nat)
    requires i <= |ps| && RunAll(w, ps, s, n).Go? && EmitAll(st, ps).Some? && |s| == st.cur
    ensures RunAll(w, ps[..i], s, n).Go? && EmitAll(st, ps[..i]).Some?
    ensures |RunAll(w, ps[..i], s, n).stack| == EmitAll(st, ps[..i]).value.cur
    decreases i
  {
    hide StepPiece, EmitPiece;
    if i > 0 {
      assert ps[..i][0] == ps[0] && ps[..i][1..] == ps[1..][..i - 1];
      StepHeight(w, ps[0], s, n);
      PieceCounts(st, ps[0]);
      var r := StepPiece(w, ps[0], s, n);
      HeightTracks(w, EmitPiece(st, ps[0]).value, ps[1..], i - 1, r.stack, r.n);
    }
  }

  /** The recorded depth is the highest count reached. */
  lemma {:induction false} MaxIsPeak(st: St, ps: seq<Piece>)
    requires EmitAll(st, ps).Some? && ps != []
    ensures EmitAll(st, ps).value.max == if Peak(st.cur, ps) > st.max then Peak(st.cur, ps) else st.max
    ensures EmitAll(st, ps).value.max <= STACK
    decreases |ps|
  {
    hide EmitPiece;
    MaxStep(st, ps[0]);
    var e := EmitPiece(st, ps[0]).value;
    if |ps| > 1 {
      MaxIsPeak(e, ps[1..]);
    }
  }

  lemma MaxStep(st: St, p: Piece)
    requires EmitPiece(st, p).Some?
    ensures var e := EmitPiece(st, p).value;
            e.cur == st.cur + PieceEffect(p) && e.max == (if e.cur > st.max then e.cur else st.max) && e.max <= STACK
  {
    hide ConstFrom;
  }

  // ---- the evaluator -----------------------------------------------------------------------------

  /** One value left, or an error. */
  function Outcome(r: Run): Val { if r.Go? && |r.stack| == 1 then r.stack[0] else Err }

  function Flat(w: World, st: St, first: nat, count: nat, depth: int, n: nat): Val
    requires first + count <= |st.ops|
  {
    if depth > STACK then Err else Outcome(RunAll(w, Decoded(st)[first..first + count], [], n))
  }

  method Eval(w: World, st: St, first: nat, count: nat, depth: int, n0: nat) returns (r: Val)
    requires first + count <= |st.ops|
    ensures r == Flat(w, st, first, count, depth, n0)
  {
    hide Apply1, Apply2, Apply3, LeafVal, Decode, StringAt, Push;
    if depth > STACK {
      return Err;
    }
    var stack := new Val[STACK];
    var sp, n := 0, n0;
    ghost var ps := Decoded(st)[first..first + count];
    var i := 0;
    while i < count
      invariant 0 <= i <= count && 0 <= sp <= STACK && fresh(stack)
      invariant RunAll(w, ps, [], n0) == RunAll(w, ps[i..], stack[..sp], n)
    {
      var op := st.ops[first + i];
      assert ps[i..][0] == Decode(st, op) && ps[i..][1..] == ps[i + 1..];
      var ok;
      ok, sp, n := Step(w, st, op, stack, sp, n);
      if !ok {
        return Err;
      }
      i := i + 1;
    }
    assert ps[i..] == [];
    if sp != 1 {
      return Err;
    }
    return stack[0];
  }

  /** One operation in place on the first `sp` cells. */
  method Step(w: World, st: St, op: FlatOp, stack: array<Val>, sp: nat, n: nat) returns (ok: bool, sp2: nat, n2: nat)
    requires sp <= stack.Length == STACK
    modifies stack
    ensures sp2 <= STACK
    ensures ok <==> StepPiece(w, Decode(st, op), old(stack[..sp]), n).Go?
    ensures ok ==> StepPiece(w, Decode(st, op), old(stack[..sp]), n) == Go(stack[..sp2], n2)
  {
    hide Apply1, Apply2, Apply3, LeafVal, StringAt;
    ok, sp2, n2 := true, sp, n;
    match op
    case Const(k) =>
      if sp >= STACK { return false, sp, n; }
      stack[sp] := Num(if k < |st.konst| then st.konst[k] else 0);
      sp2 := sp + 1;
    case StrAt(off) =>
      if sp >= STACK { return false, sp, n; }
      stack[sp] := StrVal(if off < STR_POOL then StringAt(st.pool, off) else "");
      sp2 := sp + 1;
    case Read(l) =>
      if sp >= STACK { return false, sp, n; }
      stack[sp] := LeafVal(w, l);
      sp2 := sp + 1;
    case Un(o) =>
      if sp < 1 { return false, sp, n; }
      n2 := n + Draws(o, stack[sp - 1]);
      stack[sp - 1] := Apply1(o, stack[sp - 1], w.bits(n));
    case Bi(o) =>
      if sp < 2 { return false, sp, n; }
      stack[sp - 2] := Apply2(o, stack[sp - 2], stack[sp - 1]);
      sp2 := sp - 1;
    case Tri(o) =>
      if sp < 3 { return false, sp, n; }
      stack[sp - 3] := Apply3(o, stack[sp - 3], stack[sp - 2], stack[sp - 1]);
      sp2 := sp - 2;
  }

  lemma {:induction false} PeakLast(h: int, ps: seq<Piece>)
    ensures Peak(h, ps) >= h + Net(ps)
    decreases |ps|
  {
    if ps != [] {
      PeakLast(h + PieceEffect(ps[0]), ps[1..]);
    }
  }

  /** After `i` operations the stack holds what the compiler counted: the guards
      against underflow and overflow never fire. */
  ghost predicate InStep(w: World, st: St, ps: seq<Piece>, n: nat) {
    forall i :: 0 <= i <= |ps| ==>
      var run, e := RunAll(w, ps[..i], [], n), EmitAll(Fresh(st), ps[..i]);
      run.Go? && e.Some? && |run.stack| == e.value.cur
  }

  /** An accepted text is some tree's: the operations stored are its postorder,
      the recorded depth its true need, the stack always as the compiler counted
      it, and the evaluator's result the tree's value. */
  lemma AcceptedRuns(env: Env, src: string, st: St, w: World, n: nat) returns (t: Tree, e: St)
    requires Compile(env, src, st).Some? && '\0' !in src && Sound(st)
    ensures WellFormed(t) && Spelled(t) && Compile(env, src, st) == Some(e) && Sound(e)
    ensures Decoded(e) == Decoded(st) + Post(t) && e.max == Peak(0, Post(t)) <= STACK
    ensures InStep(w, st, Post(t), n)
    ensures Flat(w, e, |st.ops|, |Post(t)|, e.max, n) == ValueOf(w, t, n).0
  {
    hide EmitAll, Post, RunAll, ValueOf, Decoded, Peak, Net;
    t := Accepts(env, src, st);
    e := Compile(env, src, st).value;
    var ps, s0 := Post(t), Fresh(st);
    TreeStorable(t);
    FreshDecoded(st);
    AllStored(s0, ps);
    PostSome(t);
    MaxIsPeak(s0, ps);
    NetOne(t);
    PeakLast(0, ps);
    RunsTree(w, t, [], n);
    assert Decoded(e)[|st.ops|..|st.ops| + |ps|] == ps;
    forall i | 0 <= i <= |ps|
      ensures var run, x := RunAll(w, ps[..i], [], n), EmitAll(s0, ps[..i]);
              run.Go? && x.Some? && |run.stack| == x.value.cur
    {
      HeightTracks(w, s0, ps, i, [], n);
    }
  }

  lemma FreshDecoded(st: St)
    ensures Decoded(Fresh(st)) == Decoded(st) && (Sound(st) ==> Sound(Fresh(st)))
  {
    hide StringAt;
    assert forall op :: Decode(Fresh(st), op) == Decode(st, op);
    assert forall op :: Settled(Fresh(st), op) == Settled(st, op);
  }

  // ---- errors ---------------------------------------------------------------------------------------

  function Arity(t: Tree): nat {
    match t
    case Prefix(_, _) => 1
    case Binary(_, _, _) => 2
    case Apply(_, args) => |args|
    case _ => 0
  }

  function Child(t: Tree, k: nat): Tree
    requires k < Arity(t)
  {
    match t
    case Prefix(_, x) => x
    case Binary(_, l, r) => if k == 0 then l else r
    case Apply(_, args) => args[k]
  }

  lemma ChildWellFormed(t: Tree, k: nat)
    requires WellFormed(t) && k < Arity(t)
    ensures WellFormed(Child(t, k))
  {
  }

  /** How many random words are used before operand `k` starts. */
  function StartOf(w: World, t: Tree, k: nat, n: nat): nat
    requires WellFormed(t) && k < Arity(t)
  {
    if k == 0 then n
    else
      ChildWellFormed(t, k - 1);
      ValueOf(w, Child(t, k - 1), StartOf(w, t, k - 1, n)).1
  }

  predicate Stopper(t: Tree) {
    t.Apply? && t.f < |FUNCTIONS| && (FUNCTIONS[t.f].1 == Un(IsErr) || FUNCTIONS[t.f].1 == Un(ToText))
  }

  /** Some operand, at any depth below operators other than iserr and text, has
      the value error. */
  predicate ErrInside(w: World, t: Tree, path: seq<nat>, n: nat)
    requires WellFormed(t)
    decreases |path|
  {
    if path == [] then ValueOf(w, t, n).0.Err?
    else
      && path[0] < Arity(t)
      && !Stopper(t)
      && (ChildWellFormed(t, path[0]); ErrInside(w, Child(t, path[0]), path[1..], StartOf(w, t, path[0], n)))
  }

  lemma {:induction false} ArgValue(w: World, t: Tree, j: nat, k: nat, n: nat)
    requires WellFormed(t) && t.Apply? && j <= k < |t.args|
    ensures ValuesOf(w, t, j, StartOf(w, t, j, n)).0[k - j] == ValueOf(w, t.args[k], StartOf(w, t, k, n)).0
    decreases k - j
  {
    hide ValueOf;
    if j < k {
      ArgValue(w, t, j + 1, k, n);
    }
  }

  lemma ErrOperand(w: World, t: Tree, k: nat, n: nat)
    requires WellFormed(t) && k < Arity(t) && !Stopper(t)
    requires WellFormed(Child(t, k)) && ValueOf(w, Child(t, k), StartOf(w, t, k, n)).0.Err?
    ensures ValueOf(w, t, n).0.Err?
  {
    hide Apply1, Apply2, Apply3, ValuesOf;
    match t
    case Prefix(neg, x) =>
      ErrSpreads(if neg then Neg else Not, Add, Slice, Err, Err, Err, w.bits(ValueOf(w, x, n).1));
    case Binary(i, l, r) =>
      var a := ValueOf(w, l, n);
      ErrSpreads(Not, OPERATORS[i].1, Slice, a.0, ValueOf(w, r, a.1).0, Err, 0);
    case Apply(f, args) =>
      var vs := ValuesOf(w, t, 0, n);
      ArgValue(w, t, 0, k, n);
      FunctionEffect(f);
      ErrCall(w, FUNCTIONS[f].1, vs.0, k, vs.1);
    case _ =>
  }

  lemma ErrCall(w: World, op: FlatOp, vs: seq<Val>, k: nat, n: nat)
    requires |vs| >= 1 && Effect(op) + |vs| == 1 && k < |vs| && vs[k].Err? && op != Un(IsErr) && op != Un(ToText)
    ensures Called(w, op, vs, n).0.Err?
  {
    hide Apply1, Apply2, Apply3;
    match op
    case Un(o) => ErrSpreads(o, Add, Slice, vs[0], Err, Err, w.bits(n));
    case Bi(o) => ErrSpreads(Not, o, Slice, vs[0], vs[1], Err, 0);
    case Tri(o) => ErrSpreads(Not, Add, o, vs[0], vs[1], vs[2], 0);
    case _ =>
  }

  /** An error anywhere reaches the result unless iserr or text stands above it. */
  lemma {:induction false} ErrReaches(w: World, t: Tree, path: seq<nat>, n: nat)
    requires WellFormed(t) && ErrInside(w, t, path, n)
    ensures ValueOf(w, t, n).0 == Err
    decreases |path|
  {
    hide ValueOf, StartOf;
    if path != [] {
      ChildWellFormed(t, path[0]);
      ErrReaches(w, Child(t, path[0]), path[1..], StartOf(w, t, path[0], n));
      ErrOperand(w, t, path[0], n);
    }
  }

  // ---- range -----------------------------------------------------------------------------------------

  ghost predicate WorldInRange(w: World) {
    && (forall i :: 0 <= i < |w.vars| ==> InRange(w.vars[i]))
    && (w.key.Some? ==> InRange(w.key.value))
    && (forall f :: InRange(w.times(f)))
    && (forall n :: 0 <= w.bits(n) < 0x1_0000_0000_0000_0000)
  }

  /** Whatever is computed from values in range is in range, so the variables it
      is stored in stay in range for ever. */
  lemma {:induction false} ValueInRange(w: World, t: Tree, n: nat)
    requires WellFormed(t) && Spelled(t) && WorldInRange(w)
    ensures InRange(ValueOf(w, t, n).0)
    decreases t, 1
  {
    hide Apply1, Apply2, Apply3, InRange, ValuesOf, Called;
    match t
    case Number(v) => SpelledInRange(v);
    case Quote(s) => TextInRange(s);
    case Leaf(l) => LeafInRange(w, l);
    case Prefix(neg, x) =>
      ValueInRange(w, x, n);
      var a := ValueOf(w, x, n);
      Range1(if neg then Neg else Not, a.0, w.bits(a.1));
    case Binary(i, l, r) =>
      ValueInRange(w, l, n);
      var a := ValueOf(w, l, n);
      ValueInRange(w, r, a.1);
      Range2(OPERATORS[i].1, a.0, ValueOf(w, r, a.1).0);
    case Apply(f, args) =>
      ArgsInRange(w, t, 0, n);
      var vs := ValuesOf(w, t, 0, n);
      FunctionEffect(f);
      CallInRange(w, FUNCTIONS[f].1, vs.0, vs.1);
  }

  lemma SpelledInRange(v: nat)
    requires v < MAX + SCALE
    ensures InRange(Num(v))
  {
  }

  lemma TextInRange(s: string)
    ensures InRange(StrVal(s))
  {
  }

  lemma LeafInRange(w: World, l: AppParse.Leaf)
    requires WorldInRange(w)
    ensures InRange(LeafVal(w, l))
  {
  }

  lemma CallInRange(w: World, op: FlatOp, vs: seq<Val>, n: nat)
    requires |vs| >= 1 && Effect(op) + |vs| == 1 && WorldInRange(w) && forall i :: 0 <= i < |vs| ==> InRange(vs[i])
    ensures InRange(Called(w, op, vs, n).0)
  {
    hide Apply1, Apply2, Apply3, InRange;
    match op
    case Un(o) => Range1(o, vs[0], w.bits(n));
    case Bi(o) => Range2(o, vs[0], vs[1]);
    case Tri(o) => Range3(o, vs[0], vs[1], vs[2]);
    case _ =>
  }

  lemma {:induction false} ArgsInRange(w: World, t: Tree, k: nat, n: nat)
    requires WellFormed(t) && Spelled(t) && WorldInRange(w) && t.Apply? && k <= |t.args|
    ensures forall i :: 0 <= i < |t.args| - k ==> InRange(ValuesOf(w, t, k, n).0[i])
    decreases t, 0, |t.args| - k
  {
    hide InRange, ValueOf;
    if k < |t.args| {
      ValueInRange(w, t.args[k], n);
      ArgsInRange(w, t, k + 1, ValueOf(w, t.args[k], n).1);
    }
  }
}
