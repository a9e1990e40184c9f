// Every text the compiler accepts is some tree's: what it wrote is that tree's
// postorder.

module AppAccept {
  import opened Basics
  import opened AppNum
  import opened AppValue
  import opened AppParse
  import opened AppPrint
  import opened AppPost

  /** Numbers a literal can spell; strings without the terminator. */
  predicate Spelled(t: Tree) {
    match t
    case Number(v) => v < MAX + SCALE
    case Quote(s) => '\0' !in s
    case Leaf(_) => true
    case Prefix(_, x) => Spelled(x)
    case Binary(_, l, r) => Spelled(l) && Spelled(r)
    case Apply(_, args) => forall a :: a in args ==> Spelled(a)
  }

  /** `t` is what was read from `s`: its postorder takes `st` to the state reached. */
  predicate Reads(t: Tree, s: string, st: St, r: Res) {
    && r.Got?
    && WellFormed(t)
    && Spelled(t)
    && EmitAll(st, Post(t)) == Some(r.st)
    && ('\0' !in s ==> '\0' !in r.rest)
  }

  lemma {:induction false} SkipKeeps(s: string)
    requires '\0' !in s
    ensures '\0' !in Skip(s)
  {
    if s != "" && IsBlank(s[0]) {
      SkipKeeps(s[1..]);
    }
  }

  lemma ReadsNumber(u: string, st: St) returns (t: Tree)
    requires u != "" && '\0' !in u && IsDigit(u[0]) && Literal(u, st).Got?
    ensures Reads(t, u, st, Literal(u, st))
  {
    hide NumOf, EmitNum, EmitAll;
    var text := u[..Least(NumberLen(u), NUM_BUF)];
    assert text[0] == u[0];
    DigitsPositive(text);
    t := Number(NumOf(text).value);
    EmitOne(st, Lit(t.v));
  }

  lemma DigitsPositive(text: string)
    requires text != "" && IsDigit(text[0])
    ensures NumOf(text).Some? ==> 0 <= NumOf(text).value < MAX + SCALE
  {
    hide Unsigned;
    UnsignedBound(text);
  }

  lemma ReadsQuote(u: string, st: St) returns (t: Tree)
    requires u != "" && '\0' !in u && Quoted(u[1..], u[0], st).Got?
    ensures Reads(t, u, st, Quoted(u[1..], u[0], st))
  {
    hide EmitStr, EmitAll;
    t := Quote(u[1..][..QuoteLen(u[1..], u[0])]);
    EmitOne(st, Txt(t.s));
  }

  /** One level down and up again. */
  lemma UpAgain(st: St, ps: seq<Piece>, e: St)
    requires Deeper(st).Some? && EmitAll(Deeper(st).value, ps) == Some(e)
    ensures EmitAll(st, ps) == Some(Up(e))
  {
    hide EmitAll;
    DepthFree(st, st.depth + 1, ps);
  }

  lemma {:induction false} AcceptPrimary(env: Env, s: string, st: St) returns (t: Tree)
    requires Primary(env, s, st).Got? && '\0' !in s
    ensures Reads(t, s, st, Primary(env, s, st))
    decreases |s|, 2
  {
    hide Climb, Arguments, Literal, Quoted, Emit, EmitAll, NameLen, LeafOf, FunctionFrom, Post, Expect;
    SkipKeeps(s);
    var u := Skip(s);
    if u[0] == '(' {
      t := AcceptParens(env, s, st);
    } else if u[0] == '-' || u[0] == '!' {
      t := AcceptPrefix(env, s, st);
    } else if u[0] == '\'' || u[0] == '"' {
      t := ReadsQuote(u, st);
    } else if IsDigit(u[0]) {
      t := ReadsNumber(u, st);
    } else {
      t := AcceptName(env, s, st);
    }
  }

  lemma ExpectKeeps(s: string, c: char)
    requires '\0' !in s
    ensures Expect(s, c).Some? ==> '\0' !in Expect(s, c).value
  {
    SkipKeeps(s);
  }

  lemma {:induction false} AcceptParens(env: Env, s: string, st: St) returns (t: Tree)
    requires Primary(env, s, st).Got? && '\0' !in s && Skip(s) != "" && Skip(s)[0] == '('
    ensures Reads(t, s, st, Primary(env, s, st))
    decreases |s|, 1
  {
    hide Climb, Arguments, Literal, Quoted, Emit, EmitAll, NameLen, LeafOf, FunctionFrom, Post, Expect, Skip;
    SkipKeeps(s);
    var u := Skip(s)[1..];
    t := AcceptClimb(env, u, 0, Deeper(st).value);
    var e := Climb(env, u, 0, Deeper(st).value);
    UpAgain(st, Post(t), e.st);
    ExpectKeeps(e.rest, ')');
  }

  lemma {:induction false} AcceptPrefix(env: Env, s: string, st: St) returns (t: Tree)
    requires Primary(env, s, st).Got? && '\0' !in s && Skip(s) != "" && (Skip(s)[0] == '-' || Skip(s)[0] == '!')
    ensures Reads(t, s, st, Primary(env, s, st))
    decreases |s|, 1
  {
    hide Climb, Arguments, Literal, Quoted, Emit, EmitAll, NameLen, LeafOf, FunctionFrom, Expect, Skip;
    SkipKeeps(s);
    var u := Skip(s);
    var x := AcceptPrimary(env, u[1..], Deeper(st).value);
    t := Prefix(u[0] == '-', x);
    var e := Primary(env, u[1..], Deeper(st).value);
    UpAgain(st, Post(x), e.st);
    EmitThenOne(st, Post(x), Un(if u[0] == '-' then Neg else Not));
  }

  lemma {:induction false} AcceptName(env: Env, s: string, st: St) returns (t: Tree)
    requires Primary(env, s, st).Got? && '\0' !in s && Skip(s) != "" && NameStart(Skip(s)[0])
    ensures Reads(t, s, st, Primary(env, s, st))
    decreases |s|, 1
  {
    hide Primary, Arguments, Emit, EmitAll, NameLen, LeafOf, FunctionFrom, Expect, Skip, PostArgs;
    NameStep(env, s, st);
    SkipKeeps(s);
    var u := Skip(s);
    var n := NameLen(u);
    SkipKeeps(u[n..]);
    var name, rest := u[..Least(n, NAME_BUF)], Skip(u[n..]);
    if rest != "" && rest[0] == '(' {
      var f, d := FunctionFrom(name, 0), Deeper(st).value;
      var a := Arguments(env, rest[1..], FUNCTIONS[f].2, true, d);
      var args := AcceptArgs(env, rest[1..], FUNCTIONS[f].2, true, d);
      t := Apply(f, args);
      PostOfArgs(t, 0);
      UpAgain(st, PostArgs(t, 0), a.st);
      EmitThenOne(st, PostArgs(t, 0), FUNCTIONS[f].1);
      ExpectKeeps(a.rest, ')');
    } else {
      t := Leaf(LeafOf(env, name).value);
      EmitOne(st, Do(Read(t.leaf)));
    }
  }

  /** The postorders of several trees in a row. */
  function PostsOf(ts: seq<Tree>): seq<Piece>
    requires forall t :: t in ts ==> WellFormed(t)
  {
    if ts == [] then [] else Post(ts[0]) + PostsOf(ts[1..])
  }

  lemma {:induction false} PostOfArgs(t: Tree, k: nat)
    requires WellFormed(t) && t.Apply? && k <= |t.args|
    ensures PostArgs(t, k) == PostsOf(t.args[k..])
    decreases |t.args| - k
  {
    hide Post;
    if k < |t.args| {
      PostOfArgs(t, k + 1);
      assert t.args[k..][0] == t.args[k] && t.args[k..][1..] == t.args[k + 1..];
    }
  }

  lemma {:induction false} AcceptArgs(env: Env, s: string, n: nat, first: bool, st: St) returns (ts: seq<Tree>)
    requires Arguments(env, s, n, first, st).Got? && '\0' !in s
    ensures |ts| == n && forall t :: t in ts ==> WellFormed(t) && Spelled(t)
    ensures EmitAll(st, PostsOf(ts)) == Some(Arguments(env, s, n, first, st).st)
    ensures '\0' !in Arguments(env, s, n, first, st).rest
    decreases |s|, 4, n
  {
    hide Climb, Expect, Post, WellFormed, Spelled;
    if n == 0 {
      ts := [];
    } else {
      if !first {
        ExpectKeeps(s, ',');
      }
      var u := if first then s else Expect(s, ',').value;
      var e := Climb(env, u, 0, st);
      var t := AcceptClimb(env, u, 0, st);
      var more := AcceptArgs(env, e.rest, n - 1, false, e.st);
      ts := [t] + more;
      assert ts[1..] == more;
      EmitAllCat(st, Post(t), PostsOf(more));
    }
  }

  lemma {:induction false} AcceptClimb(env: Env, s: string, prec: nat, st: St) returns (t: Tree)
    requires Climb(env, s, prec, st).Got? && '\0' !in s
    ensures Reads(t, s, st, Climb(env, s, prec, st))
    decreases |s|, 3
  {
    hide Primary, Operands, EmitAll, Post;
    var l := AcceptPrimary(env, s, st);
    var a := Primary(env, s, st);
    t := AcceptOperands(env, a.rest, prec, st, l, a.st);
  }

  /** What follows the left operand `l`, read from `st` to `now`. */
  lemma {:induction false} AcceptOperands(env: Env, s: string, prec: nat, st: St, l: Tree, now: St) returns (t: Tree)
    requires WellFormed(l) && Spelled(l) && EmitAll(st, Post(l)) == Some(now) && '\0' !in s
    requires Operands(env, s, prec, now).Got?
    ensures Reads(t, s, st, Operands(env, s, prec, now))
    decreases |s|, 0
  {
    hide Climb, EmitAll, Emit, Skip, OperatorFrom;
    SkipKeeps(s);
    var u := Skip(s);
    var i := OperatorFrom(u, 0);
    if u == "" || i == -1 || OPERATORS[i].2 <= prec {
      t := l;
    } else {
      TokenLength(i);
      var v := u[|OPERATORS[i].0|..];
      var b := Climb(env, v, OPERATORS[i].2, now);
      var r := AcceptClimb(env, v, OPERATORS[i].2, now);
      var whole := Binary(i, l, r);
      EmitAllCat(st, Post(l), Post(r));
      EmitThenOne(st, Post(l) + Post(r), Bi(OPERATORS[i].1));
      t := AcceptOperands(env, b.rest, prec, st, whole, Emit(b.st, Bi(OPERATORS[i].1)).value);
    }
  }

  /** Every accepted text has a tree, and what was written is its postorder. */
  lemma Accepts(env: Env, src: string, st: St) returns (t: Tree)
    requires Compile(env, src, st).Some? && '\0' !in src
    ensures WellFormed(t) && Spelled(t) && EmitAll(Fresh(st), Post(t)) == Compile(env, src, st)
  {
    hide Climb, Skip, EmitAll, Post;
    t := AcceptClimb(env, src, 0, Fresh(st));
  }
}
