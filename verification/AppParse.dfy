// The expression language: its text, the flat operations it compiles to, and
// the precedence-climbing parser between them.

module AppParse {
  import opened Basics
  import opened AppNum
  import opened AppValue

  const STACK: nat := 16
  const MAX_OPS: nat := 512
  const MAX_CONSTS: nat := 64
  const STR_POOL: nat := 768
  const PAREN_DEPTH: nat := 12
  const NAME_BUF: nat := 23
  const NUM_BUF: nat := 31

  // ---- flat operations ---------------------------------------------------------

  datatype Leaf = Var(i: nat) | Widget(i: nat) | Key | Time(field: nat)

  /** An operation with its argument: an index into the constants, an offset into
      the string pool, or none. */
  datatype FlatOp =
    | Const(k: nat)
    | StrAt(off: nat)
    | Read(leaf: Leaf)
    | Un(op1: Op1)
    | Bi(op2: Op2)
    | Tri(op3: Op3)

  /** What the compiler writes and keeps count of. */
  datatype St = St(ops: seq<FlatOp>, konst: seq<int>, pool: string, cur: int, max: int, depth: int)

  function Effect(op: FlatOp): int {
    match op
    case Const(_) | StrAt(_) | Read(_) => 1
    case Un(_) => 0
    case Bi(_) => -1
    case Tri(_) => -2
  }

  function Emit(st: St, op: FlatOp): Option<St> {
    if |st.ops| >= MAX_OPS then None
    else
      var cur := st.cur + Effect(op);
      var max := if cur > st.max then cur else st.max;
      if max > STACK then None else Some(st.(ops := st.ops + [op], cur := cur, max := max))
  }

  /** The index of `v` at or after `i`, or -1. */
  function ConstFrom(konst: seq<int>, v: int, i: nat): (r: int)
    ensures r == -1 || (i <= r < |konst| && konst[r] == v)
    decreases |konst| - i
  {
    if i >= |konst| then -1 else if konst[i] == v then i else ConstFrom(konst, v, i + 1)
  }

  function EmitNum(st: St, v: int): Option<St> {
    var i := ConstFrom(st.konst, v, 0);
    if i >= 0 then Emit(st, Const(i))
    else if |st.konst| >= MAX_CONSTS then None
    else Emit(st.(konst := st.konst + [v]), Const(|st.konst|))
  }

  function EmitStr(st: St, s: string): Option<St> {
    if |s| >= TEXT_MAX || |st.pool| + |s| + 1 > STR_POOL then None
    else Emit(st.(pool := st.pool + s + ['\0']), StrAt(|st.pool|))
  }

  // ---- names -------------------------------------------------------------------

  datatype Env = Env(vars: seq<string>, widgets: seq<string>)

  predicate NameStart(c: char) { 'a' <= c <= 'z' || 'A' <= c <= 'Z' || c == '_' }

  predicate NameChar(c: char) { NameStart(c) || IsDigit(c) }

  function NameLen(s: string): (n: nat)
    ensures n <= |s| && (forall i :: 0 <= i < n ==> NameChar(s[i])) && (n < |s| ==> !NameChar(s[n]))
  {
    if s != "" && NameChar(s[0]) then 1 + NameLen(s[1..]) else 0
  }

  const FUNCTIONS: seq<(string, FlatOp, nat)> := [
    ("num", Un(ToNum), 1), ("text", Un(ToText), 1), ("cat", Bi(Cat), 2), ("len", Un(Len), 1),
    ("digits", Un(Digits), 1), ("has", Bi(Has), 2), ("iserr", Un(IsErr), 1), ("abs", Un(Abs), 1),
    ("min", Bi(Min), 2), ("max", Bi(Max), 2), ("round", Un(Round), 1), ("rand", Un(Rand), 1),
    ("at", Bi(At), 2), ("slice", Tri(Slice), 3), ("trim", Un(Trim), 1), ("upper", Un(Upper), 1),
    ("lower", Un(Lower), 1), ("find", Bi(Find), 2), ("padl", Bi(PadL), 2), ("padr", Bi(PadR), 2),
    ("replace", Tri(Replace), 3), ("floor", Un(Floor), 1), ("ceil", Un(Ceil), 1), ("sqrt", Un(Sqrt), 1)
  ]

  const TIMES: seq<string> := ["now", "clock", "today", "hour", "minute", "second"]

  /** The first entry of the table called `name`, from `i` on, or -1. */
  function FunctionFrom(name: string, i: nat): (r: int)
    ensures r == -1 || (i <= r < |FUNCTIONS| && FUNCTIONS[r].0 == name)
    decreases |FUNCTIONS| - i
  {
    if i >= |FUNCTIONS| then -1 else if FUNCTIONS[i].0 == name then i else FunctionFrom(name, i + 1)
  }

  function NameFrom(names: seq<string>, name: string, i: nat): (r: int)
    ensures r == -1 || (i <= r < |names| && names[r] == name)
    decreases |names| - i
  {
    if i >= |names| then -1 else if names[i] == name then i else NameFrom(names, name, i + 1)
  }

  /** `key`, then the time leaves, then variables, then named widgets. */
  function LeafOf(env: Env, name: string): Option<Leaf> {
    if name == "key" then Some(Key)
    else if NameFrom(TIMES, name, 0) >= 0 then Some(Time(NameFrom(TIMES, name, 0)))
    else if NameFrom(env.vars, name, 0) >= 0 then Some(Var(NameFrom(env.vars, name, 0)))
    else if name != "" && NameFrom(env.widgets, name, 0) >= 0 then Some(Widget(NameFrom(env.widgets, name, 0)))
    else None
  }

  // ---- operators -----------------------------------------------------------------

  /** Longest first, so that "<=" is never read as "<". */
  const OPERATORS: seq<(string, Op2, nat)> := [
    ("||", Or, 1), ("&&", And, 2), ("==", Eq, 3), ("!=", Ne, 3), ("<=", Le, 4), (">=", Ge, 4),
    ("<", Lt, 4), (">", Gt, 4), ("+", Add, 5), ("-", Sub, 5), ("*", Mul, 6), ("/", Div, 6), ("%", Mod, 6)
  ]

  predicate StartsWith(s: string, tok: string) { |tok| <= |s| && s[..|tok|] == tok }

  function OperatorFrom(s: string, i: nat): (r: int)
    ensures r == -1 || (i <= r < |OPERATORS| && StartsWith(s, OPERATORS[r].0))
    decreases |OPERATORS| - i
  {
    if i >= |OPERATORS| then -1 else if StartsWith(s, OPERATORS[i].0) then i else OperatorFrom(s, i + 1)
  }

  // ---- the parser ------------------------------------------------------------------

  datatype Res = Bad | Got(rest: string, st: St)

  function Deeper(st: St): Option<St> {
    if st.depth + 1 > PAREN_DEPTH then None else Some(st.(depth := st.depth + 1))
  }

  function Up(st: St): St { st.(depth := st.depth - 1) }

  function After(rest: string, st: Option<St>): Res {
    if st.None? then Bad else Got(rest, st.value)
  }

  /** Past blanks, the character `c` must come next. */
  function Expect(s: string, c: char): (r: Option<string>)
    ensures r.Some? ==> |r.value| < |s|
  {
    var u := Skip(s);
    if u == "" || u[0] != c then None else Some(u[1..])
  }

  function Skip(s: string): (u: string)
    ensures |u| <= |s|
  {
    BlanksShorter(s);
    SkipBlanks(s)
  }

  lemma {:induction false} BlanksShorter(s: string)
    ensures |SkipBlanks(s)| <= |s|
  {
    if s != "" && IsBlank(s[0]) {
      BlanksShorter(s[1..]);
    }
  }

  /** How many characters precede the quote `q`. */
  function QuoteLen(s: string, q: char): (n: nat)
    ensures n <= |s| && (n < |s| ==> s[n] == q)
  {
    if s == "" || s[0] == q then 0 else 1 + QuoteLen(s[1..], q)
  }

  /** How many digits and points `s` starts with. */
  function NumberLen(s: string): (n: nat)
    ensures n <= |s|
  {
    if s != "" && (IsDigit(s[0]) || s[0] == '.') then 1 + NumberLen(s[1..]) else 0
  }

  function Least(a: nat, b: nat): nat { if a < b then a else b }

  function Literal(s: string, st: St): (r: Res)
    requires s != ""
    ensures r.Got? ==> |r.rest| <= |s|
  {
    var n := NumberLen(s);
    var v := NumOf(s[..Least(n, NUM_BUF)]);
    if v.None? then Bad else After(s[n..], EmitNum(st, v.value))
  }

  function Quoted(s: string, q: char, st: St): (r: Res)
    ensures r.Got? ==> |r.rest| < |s|
  {
    var n := QuoteLen(s, q);
    if n >= |s| then Bad else After(s[n + 1..], EmitStr(st, s[..n]))
  }

  /** One operand: a literal, a variable, a call with its arguments, an expression in
      parentheses, or a prefix operator before another operand. */
  function Primary(env: Env, s: string, st: St): (r: Res)
    ensures r.Got? ==> |r.rest| < |s|
    decreases |s|, 1
  {
    var u := Skip(s);
    if u == "" then Bad
    else if u[0] == '(' then
      var d := Deeper(st);
      if d.None? then Bad else
      var e := Climb(env, u[1..], 0, d.value);
      if e.Bad? then Bad else
      var close := Expect(e.rest, ')');
      if close.None? then Bad else Got(close.value, Up(e.st))
    else if u[0] == '-' || u[0] == '!' then
      var d := Deeper(st);
      if d.None? then Bad else
      var e := Primary(env, u[1..], d.value);
      if e.Bad? then Bad else After(e.rest, Emit(Up(e.st), Un(if u[0] == '-' then Neg else Not)))
    else if u[0] == '\'' || u[0] == '"' then Quoted(u[1..], u[0], st)
    else if IsDigit(u[0]) then
      assert NumberLen(u) >= 1;
      Literal(u, st)
    else if NameStart(u[0]) then
      var n := NameLen(u);
      var name, rest := u[..Least(n, NAME_BUF)], Skip(u[n..]);
      if rest != "" && rest[0] == '(' then
        var f := FunctionFrom(name, 0);
        if f == -1 then Bad else
        var d := Deeper(st);
        if d.None? then Bad else
        var a := Arguments(env, rest[1..], FUNCTIONS[f].2, true, d.value);
        if a.Bad? then Bad else
        var close := Expect(a.rest, ')');
        if close.None? then Bad else After(close.value, Emit(Up(a.st), FUNCTIONS[f].1))
      else
        var leaf := LeafOf(env, name);
        if leaf.None? then Bad else After(rest, Emit(st, Read(leaf.value)))
    else Bad
  }

  /** `n` arguments separated by commas. */
  function Arguments(env: Env, s: string, n: nat, first: bool, st: St): (r: Res)
    ensures r.Got? ==> |r.rest| <= |s|
    decreases |s|, 3, n
  {
    if n == 0 then Got(s, st)
    else if first then
      var e := Climb(env, s, 0, st);
      if e.Bad? then Bad else Arguments(env, e.rest, n - 1, false, e.st)
    else
      var comma := Expect(s, ',');
      if comma.None? then Bad else
      var e := Climb(env, comma.value, 0, st);
      if e.Bad? then Bad else Arguments(env, e.rest, n - 1, false, e.st)
  }

  /** An expression whose operators all bind tighter than `prec`. */
  function Climb(env: Env, s: string, prec: nat, st: St): (r: Res)
    ensures r.Got? ==> |r.rest| < |s|
    decreases |s|, 2
  {
    var a := Primary(env, s, st);
    if a.Bad? then Bad else Operands(env, a.rest, prec, a.st)
  }

  /** The operators and right operands that follow. */
  function Operands(env: Env, s: string, prec: nat, st: St): (r: Res)
    ensures r.Got? ==> |r.rest| <= |s|
    decreases |s|, 0
  {
    var u := Skip(s);
    var i := OperatorFrom(u, 0);
    if u == "" || i == -1 || OPERATORS[i].2 <= prec then Got(u, st)
    else
      TokenLength(i);
      var b := Climb(env, u[|OPERATORS[i].0|..], OPERATORS[i].2, st);
      if b.Bad? then Bad else
      var e := Emit(b.st, Bi(OPERATORS[i].1));
      if e.None? then Bad else Operands(env, b.rest, prec, e.value)
  }

  lemma TokenLength(i: nat)
    requires i < |OPERATORS|
    ensures 1 <= |OPERATORS[i].0| <= 2
  {
  }

  /** A whole source text: one expression, nothing after it, one value. */
  function Compile(env: Env, src: string, st: St): Option<St> {
    if src == "" then None else
    var e := Climb(env, src, 0, st.(cur := 0, max := 0, depth := 0));
    if e.Bad? || Skip(e.rest) != "" || e.st.cur != 1 then None else Some(e.st)
  }

  // ---- one level of the parser ---------------------------------------------------------

  lemma NoBlank(u: string)
    requires u != "" && !IsBlank(u[0])
    ensures Skip(u) == u
  {
  }

  lemma {:induction false} SkipTwice(s: string)
    ensures Skip(Skip(s)) == Skip(s)
  {
    if s != "" && IsBlank(s[0]) {
      SkipTwice(s[1..]);
    }
  }

  lemma BlanksFirst(env: Env, s: string, st: St)
    ensures Primary(env, s, st) == Primary(env, Skip(s), st)
  {
    hide Climb, Arguments, Literal, Quoted, Emit, NameLen, LeafOf, FunctionFrom, Expect;
    SkipTwice(s);
  }

  lemma PrimaryPrefix(env: Env, neg: bool, w: string, st: St)
    ensures Primary(env, (if neg then "-" else "!") + w, st) ==
            var d := Deeper(st);
            if d.None? then Bad else
            var e := Primary(env, w, d.value);
            if e.Bad? then Bad else After(e.rest, Emit(Up(e.st), Un(if neg then Neg else Not)))
  {
    hide Emit, Climb, Arguments, NameLen, LeafOf, FunctionFrom, Literal, Quoted;
    var u := (if neg then "-" else "!") + w;
    NoBlank(u);
    assert u[1..] == w;
  }

  lemma PrimaryParens(env: Env, w: string, st: St)
    ensures Primary(env, "(" + w, st) ==
            var d := Deeper(st);
            if d.None? then Bad else
            var e := Climb(env, w, 0, d.value);
            if e.Bad? then Bad else
            var close := Expect(e.rest, ')');
            if close.None? then Bad else Got(close.value, Up(e.st))
  {
    hide Emit, Climb, Arguments, NameLen, LeafOf, FunctionFrom, Literal, Quoted, Expect;
    var u := "(" + w;
    NoBlank(u);
    assert u[1..] == w;
  }

  /** A call, past its opening parenthesis. */
  function CallOf(env: Env, op: FlatOp, arity: nat, s: string, st: St): Res {
    var d := Deeper(st);
    if d.None? then Bad else
    var a := Arguments(env, s, arity, true, d.value);
    if a.Bad? then Bad else
    var close := Expect(a.rest, ')');
    if close.None? then Bad else After(close.value, Emit(Up(a.st), op))
  }

  lemma NameStep(env: Env, s: string, st: St)
    requires Skip(s) != "" && NameStart(Skip(s)[0])
    ensures var u := Skip(s);
            var n := NameLen(u);
            var name, rest := u[..Least(n, NAME_BUF)], Skip(u[n..]);
            Primary(env, s, st) ==
            if rest != "" && rest[0] == '(' then
              (var f := FunctionFrom(name, 0);
              if f == -1 then Bad else CallOf(env, FUNCTIONS[f].1, FUNCTIONS[f].2, rest[1..], st))
            else
              var leaf := LeafOf(env, name);
              if leaf.None? then Bad else After(rest, Emit(st, Read(leaf.value)))
  {
    hide Climb, Arguments, Literal, Quoted, Emit, NameLen, LeafOf, FunctionFrom, Expect, Skip;
  }

  lemma ClimbOpens(env: Env, s: string, prec: nat, st: St)
    ensures Climb(env, s, prec, st) ==
            var a := Primary(env, s, st);
            if a.Bad? then Bad else Operands(env, a.rest, prec, a.st)
  {
    hide Primary, Operands;
  }

  lemma OperandsOpen(env: Env, s: string, prec: nat, st: St)
    ensures var u := Skip(s);
            var i := OperatorFrom(u, 0);
            Operands(env, s, prec, st) ==
            if u == "" || i == -1 || OPERATORS[i].2 <= prec then Got(u, st)
            else
              var b := Climb(env, u[|OPERATORS[i].0|..], OPERATORS[i].2, st);
              if b.Bad? then Bad else
              var e := Emit(b.st, Bi(OPERATORS[i].1));
              if e.None? then Bad else Operands(env, b.rest, prec, e.value)
  {
    hide Climb, Emit, Skip, OperatorFrom;
  }
}
