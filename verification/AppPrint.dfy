// Printing a tree with as few parentheses as possible, and that parsing the
// text emits exactly that tree, operand before operator.

module AppPrint {
  import opened Basics
  import opened AppNum
  import opened AppValue
  import opened AppParse

  datatype Tree =
    | Number(v: nat)
    | Quote(s: string)
    | Leaf(leaf: AppParse.Leaf)
    | Prefix(neg: bool, x: Tree)
    | Binary(i: nat, l: Tree, r: Tree)
    | Apply(f: nat, args: seq<Tree>)

  /** `i` indexes OPERATORS, `f` indexes FUNCTIONS. */
  predicate WellFormed(t: Tree) {
    match t
    case Number(_) => true
    case Quote(_) => true
    case Leaf(_) => true
    case Prefix(_, x) => WellFormed(x)
    case Binary(i, l, r) => i < |OPERATORS| && WellFormed(l) && WellFormed(r)
    case Apply(f, args) =>
      f < |FUNCTIONS| && |args| == FUNCTIONS[f].2 && forall a :: a in args ==> WellFormed(a)
  }

  function NameOf(env: Env, leaf: AppParse.Leaf): string {
    match leaf
    case Key => "key"
    case Time(f) => if f < |TIMES| then TIMES[f] else ""
    case Var(i) => if i < |env.vars| then env.vars[i] else ""
    case Widget(i) => if i < |env.widgets| then env.widgets[i] else ""
  }

  predicate IsName(s: string) {
    1 <= |s| <= NAME_BUF && NameStart(s[0]) && forall i :: 0 <= i < |s| ==> NameChar(s[i])
  }

  /** The tree has a text: its numbers can be written, one quote character is
      free in each string, and each leaf's name stands for that leaf. */
  predicate Printable(env: Env, t: Tree) {
    match t
    case Number(v) => v < MAX + SCALE
    case Quote(s) => ('\'' !in s || '"' !in s) && '\0' !in s
    case Leaf(l) => IsName(NameOf(env, l)) && LeafOf(env, NameOf(env, l)) == Some(l)
    case Prefix(_, x) => Printable(env, x)
    case Binary(_, l, r) => Printable(env, l) && Printable(env, r)
    case Apply(_, args) => forall a :: a in args ==> Printable(env, a)
  }

  function Prec(i: nat): nat
    requires i < |OPERATORS|
  {
    OPERATORS[i].2
  }

  function QuoteChar(s: string): char { if '\'' in s then '"' else '\'' }

  /** The text of `t` where only operators tighter than `q` may stand bare. */
  function Print(env: Env, t: Tree, q: nat): string
    requires WellFormed(t)
    decreases t, 1
  {
    match t
    case Number(v) => TextOf(v)
    case Quote(s) => [QuoteChar(s)] + s + [QuoteChar(s)]
    case Leaf(l) => NameOf(env, l)
    case Prefix(neg, x) => (if neg then "-" else "!") + Print(env, x, 6)
    case Binary(i, l, r) =>
      var p := Prec(i);
      var body := Print(env, l, p - 1) + OPERATORS[i].0 + Print(env, r, p);
      if p <= q then "(" + body + ")" else body
    case Apply(f, args) => FUNCTIONS[f].0 + "(" + PrintArgs(env, t, 0) + ")"
  }

  /** The arguments of a call from the k'th on, each after the first with its comma. */
  function PrintArgs(env: Env, t: Tree, k: nat): string
    requires WellFormed(t) && t.Apply? && k <= |t.args|
    decreases t, 0, |t.args| - k
  {
    if k == |t.args| then ""
    else (if k == 0 then "" else ",") + Print(env, t.args[k], 0) + PrintArgs(env, t, k + 1)
  }

  // ---- what the tree emits -------------------------------------------------------

  /** Left operand, right operand, operator: the tree in postorder, within the
      compiler's limits; `q` matters only for how deep the parentheses nest. */
  function EmitTree(t: Tree, q: nat, st: St): Option<St>
    requires WellFormed(t)
    decreases t, 2
  {
    match t
    case Number(v) => EmitNum(st, v)
    case Quote(s) => EmitStr(st, s)
    case Leaf(l) => Emit(st, Read(l))
    case Prefix(neg, x) =>
      var d := Deeper(st);
      if d.None? then None else
      var e := EmitTree(x, 6, d.value);
      if e.None? then None else Emit(Up(e.value), Un(if neg then Neg else Not))
    case Binary(i, _, _) =>
      if Prec(i) > q then EmitBare(t, st) else
      var d := Deeper(st);
      if d.None? then None else
      var e := EmitBare(t, d.value);
      if e.None? then None else Some(Up(e.value))
    case Apply(f, _) =>
      var d := Deeper(st);
      if d.None? then None else
      var e := EmitArgs(t, 0, d.value);
      if e.None? then None else Emit(Up(e.value), FUNCTIONS[f].1)
  }

  function EmitBare(t: Tree, st: St): Option<St>
    requires WellFormed(t) && t.Binary?
    decreases t, 1
  {
    var a := EmitTree(t.l, Prec(t.i) - 1, st);
    if a.None? then None else
    var b := EmitTree(t.r, Prec(t.i), a.value);
    if b.None? then None else Emit(b.value, Bi(OPERATORS[t.i].1))
  }

  function EmitArgs(t: Tree, k: nat, st: St): Option<St>
    requires WellFormed(t) && t.Apply? && k <= |t.args|
    decreases t, 0, |t.args| - k
  {
    if k == |t.args| then Some(st) else
    var a := EmitTree(t.args[k], 0, st);
    if a.None? then None else EmitArgs(t, k + 1, a.value)
  }

  // ---- first and following characters -----------------------------------------------

  /** A text of a tree can start with this. */
  predicate Starter(c: char) {
    IsDigit(c) || NameStart(c) || c == '\'' || c == '"' || c == '-' || c == '!' || c == '('
  }

  lemma {:induction false} PrintStarts(env: Env, t: Tree, q: nat)
    requires WellFormed(t) && Printable(env, t)
    ensures Print(env, t, q) != "" && Starter(Print(env, t, q)[0])
    decreases t
  {
    hide TextOf, IsDigit, NameStart, LeafOf;
    match t
    case Number(v) => NumberStarts(v);
    case Quote(_) =>
    case Leaf(_) =>
    case Prefix(_, _) =>
    case Binary(i, l, r) => PrintStarts(env, l, Prec(i) - 1);
    case Apply(f, _) => FunctionName(f);
  }

  lemma NumberStarts(v: nat)
    ensures TextOf(v) != "" && IsDigit(TextOf(v)[0])
  {
    MagRoundTrip(v);
  }

  /** What may come after the text of a tree. */
  predicate Follows(rest: string) {
    rest == "" || rest[0] in "|&=!<>+-*/%),"
  }

  lemma FollowFacts(rest: string)
    requires Follows(rest) && rest != ""
    ensures !IsBlank(rest[0]) && !NameChar(rest[0]) && rest[0] != '(' && rest[0] != '.' && !IsDigit(rest[0])
  {
  }

  lemma FollowSkips(rest: string)
    requires Follows(rest)
    ensures Skip(rest) == rest
  {
  }

  /** The precedence of the operator `rest` starts with; 0 when it has none. */
  function NextPrec(rest: string): nat {
    var i := OperatorFrom(rest, 0);
    if i == -1 then 0 else OPERATORS[i].2
  }

  /** An operator is read as itself when an operand comes next. */
  lemma OperatorRead(i: nat, w: string)
    requires i < |OPERATORS| && w != "" && Starter(w[0])
    ensures OperatorFrom(OPERATORS[i].0 + w, 0) == i
    ensures Follows(OPERATORS[i].0 + w) && NextPrec(OPERATORS[i].0 + w) == Prec(i)
    ensures OPERATORS[i].0 + w != "" && (OPERATORS[i].0 + w)[|OPERATORS[i].0|..] == w
  {
    var s := OPERATORS[i].0 + w;
    forall j | 0 <= j < i
      ensures !StartsWith(s, OPERATORS[j].0)
    {
      NotEarlier(i, j, w);
    }
    FirstMatch(s, 0, i);
  }

  lemma StartsAlike(s: string, tok: string)
    ensures StartsWith(s, tok) ==> |tok| <= |s| && forall k :: 0 <= k < |tok| ==> s[k] == tok[k]
  {
    if StartsWith(s, tok) {
      assert forall k :: 0 <= k < |tok| ==> s[..|tok|][k] == s[k];
    }
  }

  lemma NotEarlier(i: nat, j: nat, w: string)
    requires j < i < |OPERATORS| && w != "" && Starter(w[0])
    ensures !StartsWith(OPERATORS[i].0 + w, OPERATORS[j].0)
  {
    var s, tok := OPERATORS[i].0 + w, OPERATORS[j].0;
    assert s[0] == OPERATORS[i].0[0] && s[1] == if |OPERATORS[i].0| == 2 then OPERATORS[i].0[1] else w[0];
    StartsAlike(s, tok);
  }

  lemma {:induction false} FirstMatch(s: string, k: nat, i: nat)
    requires k <= i < |OPERATORS| && StartsWith(s, OPERATORS[i].0)
    requires forall j :: k <= j < i ==> !StartsWith(s, OPERATORS[j].0)
    ensures OperatorFrom(s, k) == i
    decreases i - k
  {
    if k < i {
      FirstMatch(s, k + 1, i);
    }
  }

  lemma NoOperator(rest: string)
    requires rest == "" || rest[0] == ')' || rest[0] == ','
    ensures OperatorFrom(rest, 0) == -1 && Follows(rest) && NextPrec(rest) == 0
  {
    forall j | 0 <= j < |OPERATORS|
      ensures !StartsWith(rest, OPERATORS[j].0)
    {
      TokenLength(j);
    }
    NoMatch(rest, 0);
  }

  lemma {:induction false} NoMatch(s: string, k: nat)
    requires k <= |OPERATORS| && forall j :: k <= j < |OPERATORS| ==> !StartsWith(s, OPERATORS[j].0)
    ensures OperatorFrom(s, k) == -1
    decreases |OPERATORS| - k
  {
    if k < |OPERATORS| {
      NoMatch(s, k + 1);
    }
  }

  /** Function names are names, and no two are the same. */
  lemma FunctionName(f: nat)
    requires f < |FUNCTIONS|
    ensures IsName(FUNCTIONS[f].0) && |FUNCTIONS[f].0| <= 7
  {
  }

  lemma FunctionsDiffer(i: nat, j: nat)
    requires i < j < |FUNCTIONS|
    ensures FUNCTIONS[i].0 != FUNCTIONS[j].0
  {
  }

  lemma {:induction false} FunctionFound(f: nat, k: nat)
    requires k <= f < |FUNCTIONS|
    ensures FunctionFrom(FUNCTIONS[f].0, k) == f
    decreases f - k
  {
    if k < f {
      FunctionsDiffer(k, f);
      FunctionFound(f, k + 1);
    }
  }

  // ---- single tokens -----------------------------------------------------------------

  predicate Numeral(s: string) { forall i :: 0 <= i < |s| ==> IsDigit(s[i]) || s[i] == '.' }

  lemma {:induction false} NumberLenIs(a: string, rest: string)
    requires Numeral(a) && Follows(rest)
    ensures NumberLen(a + rest) == |a|
  {
    if a == "" {
      assert a + rest == rest;
      if rest != "" {
        FollowFacts(rest);
      }
    } else {
      assert (a + rest)[1..] == a[1..] + rest;
      NumberLenIs(a[1..], rest);
    }
  }

  lemma NumberShort(v: nat)
    requires v < MAX + SCALE
    ensures Numeral(TextOf(v)) && |TextOf(v)| <= NUM_BUF
  {
    var w, f := NatText(v / SCALE), Trimmed(Padded(v % SCALE, 6));
    NatTextDigits(v / SCALE);
    TenBillion();
    NatLength(v / SCALE, 10);
    SixDigits(v % SCALE);
    TrimmedShort(Padded(v % SCALE, 6));
  }

  lemma TenBillion()
    ensures Ten(10) == 10_000_000_000
  {
    assert Ten(5) == 100_000;
    assert Ten(9) == 10_000 * Ten(5);
  }

  lemma {:induction false} TrimmedShort(s: string)
    ensures |Trimmed(s)| <= |s|
  {
    if |s| > 0 && s[|s| - 1] == '0' {
      TrimmedShort(s[..|s| - 1]);
    }
  }

  lemma PrimaryNumber(env: Env, v: nat, rest: string, st: St)
    requires v < MAX + SCALE && Follows(rest)
    ensures Primary(env, TextOf(v) + rest, st) == After(rest, EmitNum(st, v))
  {
    hide TextOf, NumOf, NumberLen, EmitNum, Climb, Arguments, NameLen, LeafOf, FunctionFrom;
    var a := TextOf(v);
    NumberStarts(v);
    NumberShort(v);
    NumberLenIs(a, rest);
    RoundTrip(v);
    var u := a + rest;
    assert u[0] == a[0];
    assert u[..|a|] == a && u[|a|..] == rest;
    NoBlank(u);
  }

  lemma {:induction false} QuoteLenIs(a: string, q: char, rest: string)
    requires q !in a
    ensures QuoteLen(a + [q] + rest, q) == |a|
  {
    var s := a + [q] + rest;
    if a != "" {
      assert s[0] == a[0] && s[1..] == a[1..] + [q] + rest;
      QuoteLenIs(a[1..], q, rest);
    }
  }

  lemma PrimaryQuote(env: Env, s: string, rest: string, st: St)
    requires '\'' !in s || '"' !in s
    ensures var q := QuoteChar(s); Primary(env, [q] + s + [q] + rest, st) == After(rest, EmitStr(st, s))
  {
    hide QuoteLen, EmitStr, Climb, Arguments, NameLen, LeafOf, FunctionFrom, Literal;
    var q := QuoteChar(s);
    var u := [q] + s + [q] + rest;
    NoBlank(u);
    QuoteLenIs(s, q, rest);
    assert u[1..] == s + [q] + rest;
    assert u[1..][..|s|] == s && u[1..][|s| + 1..] == rest;
  }

  lemma {:induction false} NameLenIs(a: string, rest: string)
    requires (forall i :: 0 <= i < |a| ==> NameChar(a[i])) && (rest == "" || !NameChar(rest[0]))
    ensures NameLen(a + rest) == |a|
  {
    if a == "" {
      assert a + rest == rest;
    } else {
      assert (a + rest)[1..] == a[1..] + rest;
      NameLenIs(a[1..], rest);
    }
  }

  lemma NameSkips(a: string, rest: string)
    requires IsName(a)
    ensures Skip(a + rest) == a + rest && (a + rest)[0] == a[0] && (a + rest)[..|a|] == a && (a + rest)[|a|..] == rest
  {
    NoBlank(a + rest);
  }

  lemma PrimaryLeaf(env: Env, l: AppParse.Leaf, rest: string, st: St)
    requires IsName(NameOf(env, l)) && LeafOf(env, NameOf(env, l)) == Some(l) && Follows(rest)
    ensures Primary(env, NameOf(env, l) + rest, st) == After(rest, Emit(st, Read(l)))
  {
    hide Emit, Climb, Arguments, NameLen, LeafOf, FunctionFrom, Literal, Quoted, Skip, NameOf;
    var a := NameOf(env, l);
    NameSkips(a, rest);
    if rest != "" {
      FollowFacts(rest);
    }
    NameLenIs(a, rest);
    FollowSkips(rest);
  }

  // ---- whole trees ---------------------------------------------------------------------

  /** Parsing goes on with the operators after `rest`'s start, or fails as emitting did. */
  function Onward(env: Env, rest: string, q: nat, st: Option<St>): Res {
    if st.None? then Bad else Operands(env, rest, q, st.value)
  }

  lemma PrimaryCall(env: Env, f: nat, w: string, st: St)
    requires f < |FUNCTIONS|
    ensures Primary(env, FUNCTIONS[f].0 + "(" + w, st) ==
            var d := Deeper(st);
            if d.None? then Bad else
            var a := Arguments(env, w, FUNCTIONS[f].2, true, d.value);
            if a.Bad? then Bad else
            var close := Expect(a.rest, ')');
            if close.None? then Bad else After(close.value, Emit(Up(a.st), FUNCTIONS[f].1))
  {
    hide Emit, Climb, Arguments, NameLen, LeafOf, FunctionFrom, Literal, Quoted, Expect, Skip;
    var a, rest := FUNCTIONS[f].0, "(" + w;
    FunctionName(f);
    FunctionFound(f, 0);
    assert a + "(" + w == a + rest;
    NameSkips(a, rest);
    NameLenIs(a, rest);
    NoBlank(rest);
    assert rest[1..] == w;
  }

  lemma ExpectNext(c: char, rest: string)
    requires !IsBlank(c)
    ensures Expect([c] + rest, c) == Some(rest)
  {
    NoBlank([c] + rest);
  }

  /** With no operator to go on with, the climb is over. */
  lemma ClimbStops(env: Env, rest: string, q: nat, st: St)
    requires Follows(rest) && NextPrec(rest) <= q
    ensures Operands(env, rest, q, st) == Got(rest, st)
  {
    hide OperatorFrom, Climb, Skip;
    FollowSkips(rest);
  }

  /** With an operator that binds tighter than `q`, its right operand is read next. */
  lemma ClimbGoes(env: Env, i: nat, w: string, q: nat, st: St)
    requires i < |OPERATORS| && q < Prec(i) && w != "" && Starter(w[0])
    ensures Operands(env, OPERATORS[i].0 + w, q, st) ==
            var b := Climb(env, w, Prec(i), st);
            if b.Bad? then Bad else Onward(env, b.rest, q, Emit(b.st, Bi(OPERATORS[i].1)))
  {
    hide OperatorFrom, Climb, Skip, Emit;
    OperatorRead(i, w);
    FollowSkips(OPERATORS[i].0 + w);
  }

  /** A tree that stands without bare operators is one primary. */
  lemma {:induction false} PrimaryParses(env: Env, t: Tree, q: nat, rest: string, st: St)
    requires WellFormed(t) && Printable(env, t) && Follows(rest) && !(t.Binary? && Prec(t.i) > q)
    ensures Primary(env, Print(env, t, q) + rest, st) == After(rest, EmitTree(t, q, st))
    decreases t, 2
  {
    hide Primary, Follows, TextOf, EmitNum, EmitStr, Emit, LeafOf, NameOf, IsName, PrintArgs, EmitArgs, EmitBare,
      Expect;
    match t
    case Number(v) => PrimaryNumber(env, v, rest, st);
    case Quote(s) => PrimaryQuote(env, s, rest, st);
    case Leaf(l) => PrimaryLeaf(env, l, rest, st);
    case Prefix(neg, x) =>
      var w := Print(env, x, 6) + rest;
      assert Print(env, t, q) + rest == (if neg then "-" else "!") + w;
      PrimaryPrefix(env, neg, w, st);
      if Deeper(st).Some? {
        PrimaryParses(env, x, 6, rest, Deeper(st).value);
      }
    case Binary(i, l, r) =>
      ParensParse(env, t, q, rest, st);
    case Apply(f, args) =>
      CallParses(env, t, q, rest, st);
  }

  function Bare(env: Env, t: Tree): string
    requires WellFormed(t) && t.Binary?
  {
    Print(env, t.l, Prec(t.i) - 1) + OPERATORS[t.i].0 + Print(env, t.r, Prec(t.i))
  }

  lemma {:induction false} ParensParse(env: Env, t: Tree, q: nat, rest: string, st: St)
    requires WellFormed(t) && Printable(env, t) && Follows(rest) && t.Binary? && Prec(t.i) <= q
    ensures Primary(env, Print(env, t, q) + rest, st) == After(rest, EmitTree(t, q, st))
    decreases t, 1
  {
    hide Primary, Follows, Emit, EmitBare, Expect, Operands, Climb, Bare, NextPrec;
    var w := Bare(env, t) + (")" + rest);
    assert Print(env, t, q) + rest == "(" + w by { PrintsParens(env, t, q, rest); }
    PrimaryParens(env, w, st);
    if Deeper(st).Some? {
      NoOperator(")" + rest);
      BareParses(env, t, 0, ")" + rest, Deeper(st).value);
      var e := EmitBare(t, Deeper(st).value);
      if e.Some? {
        ClimbStops(env, ")" + rest, 0, e.value);
        ExpectNext(')', rest);
      }
    }
  }

  lemma PrintsParens(env: Env, t: Tree, q: nat, rest: string)
    requires WellFormed(t) && t.Binary? && Prec(t.i) <= q
    ensures Print(env, t, q) + rest == "(" + (Bare(env, t) + (")" + rest))
  {
  }

  /** Left operand, operator, right operand; then whatever follows. */
  lemma {:induction false} BareParses(env: Env, t: Tree, q: nat, rest: string, st: St)
    requires WellFormed(t) && Printable(env, t) && Follows(rest) && t.Binary?
    requires q < Prec(t.i) && NextPrec(rest) <= Prec(t.i)
    ensures Climb(env, Bare(env, t) + rest, q, st) == Onward(env, rest, q, EmitBare(t, st))
    decreases t, 0
  {
    hide Primary, Follows, Emit, Operands, Climb, NextPrec, Print, EmitTree, Starter;
    var p, tok, right := Prec(t.i), OPERATORS[t.i].0, Print(env, t.r, Prec(t.i));
    var w := right + rest;
    PrintStarts(env, t.r, p);
    assert w[0] == right[0];
    OperatorRead(t.i, w);
    TreeParses(env, t.l, p - 1, q, tok + w, st);
    assert Bare(env, t) + rest == Print(env, t.l, p - 1) + (tok + w);
    var a := EmitTree(t.l, p - 1, st);
    if a.Some? {
      ClimbGoes(env, t.i, w, q, a.value);
      TreeParses(env, t.r, p, p, rest, a.value);
      var b := EmitTree(t.r, p, a.value);
      if b.Some? {
        ClimbStops(env, rest, p, b.value);
      }
    }
  }

  /** Parsing the text of a tree emits the tree, or fails exactly where emitting fails. */
  lemma {:induction false} TreeParses(env: Env, t: Tree, q: nat, least: nat, rest: string, st: St)
    requires WellFormed(t) && Printable(env, t) && Follows(rest)
    requires least <= q && NextPrec(rest) <= q + 1
    ensures Climb(env, Print(env, t, q) + rest, least, st) == Onward(env, rest, least, EmitTree(t, q, st))
    decreases t, 3
  {
    hide Primary, Follows, Emit, Operands, NextPrec, EmitBare, PrintArgs, EmitArgs;
    if t.Binary? && Prec(t.i) > q {
      BareParses(env, t, least, rest, st);
    } else {
      PrimaryParses(env, t, q, rest, st);
    }
  }

  lemma {:induction false} CallParses(env: Env, t: Tree, q: nat, rest: string, st: St)
    requires WellFormed(t) && Printable(env, t) && Follows(rest) && t.Apply?
    ensures Primary(env, Print(env, t, q) + rest, st) == After(rest, EmitTree(t, q, st))
    decreases t, 1
  {
    hide Primary, Follows, Emit, EmitArgs, PrintArgs, Expect, Arguments;
    var w := PrintArgs(env, t, 0) + (")" + rest);
    assert Print(env, t, q) + rest == FUNCTIONS[t.f].0 + "(" + w;
    PrimaryCall(env, t.f, w, st);
    if Deeper(st).Some? {
      ArgsParse(env, t, 0, rest, Deeper(st).value);
      ExpectNext(')', rest);
    }
  }

  lemma {:induction false} ArgsParse(env: Env, t: Tree, k: nat, rest: string, st: St)
    requires WellFormed(t) && Printable(env, t) && t.Apply? && k <= |t.args|
    ensures Arguments(env, PrintArgs(env, t, k) + (")" + rest), |t.args| - k, k == 0, st)
            == After(")" + rest, EmitArgs(t, k, st))
    decreases t, 0, |t.args| - k
  {
    hide Climb, Print, EmitTree, Expect, NextPrec, Follows, Operands;
    if k == |t.args| {
      assert PrintArgs(env, t, k) + (")" + rest) == ")" + rest;
    } else {
      var w := PrintArgs(env, t, k + 1) + (")" + rest);
      ArgsFollow(env, t, k + 1, rest);
      TreeParses(env, t.args[k], 0, 0, w, st);
      var text := Print(env, t.args[k], 0) + w;
      if k == 0 {
        assert PrintArgs(env, t, k) + (")" + rest) == text;
      } else {
        assert PrintArgs(env, t, k) + (")" + rest) == "," + text;
        ExpectNext(',', text);
      }
      var e := EmitTree(t.args[k], 0, st);
      if e.Some? {
        ClimbStops(env, w, 0, e.value);
        ArgsParse(env, t, k + 1, rest, e.value);
      }
    }
  }

  lemma ArgsFollow(env: Env, t: Tree, k: nat, rest: string)
    requires WellFormed(t) && t.Apply? && 1 <= k <= |t.args|
    ensures Follows(PrintArgs(env, t, k) + (")" + rest)) && NextPrec(PrintArgs(env, t, k) + (")" + rest)) == 0
  {
    hide Print;
    NoOperator(PrintArgs(env, t, k) + (")" + rest));
  }
}
