// What is written and what it stands for: which operator each token is and how
// tightly it binds, which function each name is, and how numbers may be spelled.

module AppSpell {
  import opened Basics
  import opened AppNum
  import opened AppValue
  import opened AppParse
  import opened AppPrint
  import opened AppPost
  import opened AppEval
  import opened AppLaws

  // ---- operators -----------------------------------------------------------------------------------

  /** How tightly an operator binds: or, and, equality, order, sums, products. */
  function Binding(op: Op2): int {
    match op
    case Or => 1
    case And => 2
    case Eq | Ne => 3
    case Lt | Le | Gt | Ge => 4
    case Add | Sub => 5
    case Mul | Div | Mod => 6
    case _ => 0
  }

  function Token(op: Op2): string {
    match op
    case Or => "||"
    case And => "&&"
    case Eq => "=="
    case Ne => "!="
    case Lt => "<"
    case Le => "<="
    case Gt => ">"
    case Ge => ">="
    case Add => "+"
    case Sub => "-"
    case Mul => "*"
    case Div => "/"
    case Mod => "%"
    case _ => ""
  }

  /** Each operator is in the table once, under its token and at its level. */
  lemma OperatorsAre(i: nat)
    requires i < |OPERATORS|
    ensures OPERATORS[i].0 == Token(OPERATORS[i].1) && OPERATORS[i].2 == Binding(OPERATORS[i].1) > 0
    ensures forall j :: 0 <= j < |OPERATORS| && OPERATORS[j].1 == OPERATORS[i].1 ==> j == i
  {
  }

  lemma Listed(op: Op2)
    requires Binding(op) > 0
    ensures exists i :: 0 <= i < |OPERATORS| && OPERATORS[i].1 == op
  {
    var o := OPERATORS;
    assert o[0].1 == Or && o[1].1 == And && o[2].1 == Eq && o[3].1 == Ne && o[4].1 == Le && o[5].1 == Ge;
    assert o[6].1 == Lt && o[7].1 == Gt && o[8].1 == Add && o[9].1 == Sub;
    assert o[10].1 == Mul && o[11].1 == Div && o[12].1 == Mod;
  }

  /** Two operators between three operands, no parentheses: the tighter one takes its
      operands first, and of two as tight the left one. So `a + b * c` is the sum. */
  lemma Grouping(env: Env, i: nat, j: nat, x: Tree, y: Tree, z: Tree, st: St)
    requires i < |OPERATORS| && j < |OPERATORS|
    requires WellFormed(x) && WellFormed(y) && WellFormed(z) && !x.Binary? && !y.Binary? && !z.Binary?
    requires Printable(env, x) && Printable(env, y) && Printable(env, z)
    ensures var a, b := OPERATORS[i].1, OPERATORS[j].1;
            var text := Print(env, x, 0) + Token(a) + Print(env, y, 0) + Token(b) + Print(env, z, 0);
            var t := if Binding(b) > Binding(a) then Binary(i, x, Binary(j, y, z)) else Binary(j, Binary(i, x, y), z);
            Compile(env, text, st) == if Nest(t, 0) <= PAREN_DEPTH then EmitAll(Fresh(st), Post(t)) else None
  {
    hide Print, Compile, EmitAll, Post, Nest, Token, Binding;
    var a, b := OPERATORS[i].1, OPERATORS[j].1;
    var t := if Binding(b) > Binding(a) then Binary(i, x, Binary(j, y, z)) else Binary(j, Binary(i, x, y), z);
    GroupText(env, i, j, x, y, z);
    RoundTrips(env, t, st);
  }

  lemma GroupText(env: Env, i: nat, j: nat, x: Tree, y: Tree, z: Tree)
    requires i < |OPERATORS| && j < |OPERATORS|
    requires WellFormed(x) && WellFormed(y) && WellFormed(z) && !x.Binary? && !y.Binary? && !z.Binary?
    ensures var a, b := OPERATORS[i].1, OPERATORS[j].1;
            var t := if Binding(b) > Binding(a) then Binary(i, x, Binary(j, y, z)) else Binary(j, Binary(i, x, y), z);
            Print(env, t, 0) == Print(env, x, 0) + Token(a) + Print(env, y, 0) + Token(b) + Print(env, z, 0)
  {
    hide Print, Token, Binding, WellFormed;
    OperatorsAre(i);
    OperatorsAre(j);
    if Binding(OPERATORS[j].1) > Binding(OPERATORS[i].1) {
      PrintRight(env, i, j, x, y, z);
    } else {
      PrintLeft(env, i, j, x, y, z);
    }
  }

  lemma {:induction false} AtomPrints(env: Env, x: Tree, q: nat)
    requires WellFormed(x) && !x.Binary?
    ensures Print(env, x, q) == Print(env, x, 0)
  {
  }

  lemma BarePrints(env: Env, i: nat, l: Tree, r: Tree, q: nat)
    requires i < |OPERATORS| && WellFormed(l) && WellFormed(r) && Prec(i) > q
    ensures Print(env, Binary(i, l, r), q) == Print(env, l, Prec(i) - 1) + OPERATORS[i].0 + Print(env, r, Prec(i))
  {
  }

  lemma PrintRight(env: Env, i: nat, j: nat, x: Tree, y: Tree, z: Tree)
    requires i < |OPERATORS| && j < |OPERATORS| && 0 < Prec(i) < Prec(j)
    requires WellFormed(x) && WellFormed(y) && WellFormed(z) && !x.Binary? && !y.Binary? && !z.Binary?
    ensures Print(env, Binary(i, x, Binary(j, y, z)), 0) ==
            Print(env, x, 0) + OPERATORS[i].0 + Print(env, y, 0) + OPERATORS[j].0 + Print(env, z, 0)
  {
    BarePrints(env, i, x, Binary(j, y, z), 0);
    BarePrints(env, j, y, z, Prec(i));
    AtomPrints(env, x, Prec(i) - 1);
    AtomPrints(env, y, Prec(j) - 1);
    AtomPrints(env, z, Prec(j));
    hide Print, Prec;
    Five(Print(env, x, 0), OPERATORS[i].0, Print(env, y, 0), OPERATORS[j].0, Print(env, z, 0));
  }

  lemma PrintLeft(env: Env, i: nat, j: nat, x: Tree, y: Tree, z: Tree)
    requires i < |OPERATORS| && j < |OPERATORS| && 0 < Prec(j) <= Prec(i)
    requires WellFormed(x) && WellFormed(y) && WellFormed(z) && !x.Binary? && !y.Binary? && !z.Binary?
    ensures Print(env, Binary(j, Binary(i, x, y), z), 0) ==
            Print(env, x, 0) + OPERATORS[i].0 + Print(env, y, 0) + OPERATORS[j].0 + Print(env, z, 0)
  {
    BarePrints(env, j, Binary(i, x, y), z, 0);
    BarePrints(env, i, x, y, Prec(j) - 1);
    AtomPrints(env, x, Prec(i) - 1);
    AtomPrints(env, y, Prec(i));
    AtomPrints(env, z, Prec(j));
  }

  lemma Five(a: string, b: string, c: string, d: string, e: string)
    ensures a + b + (c + d + e) == a + b + c + d + e
  {
  }

  // ---- functions -----------------------------------------------------------------------------------

  function Called1(op: Op1): string {
    match op
    case ToNum => "num"
    case ToText => "text"
    case Len => "len"
    case Digits => "digits"
    case IsErr => "iserr"
    case Abs => "abs"
    case Round => "round"
    case Rand => "rand"
    case Trim => "trim"
    case Upper => "upper"
    case Lower => "lower"
    case Floor => "floor"
    case Ceil => "ceil"
    case Sqrt => "sqrt"
    case _ => ""
  }

  function Called2(op: Op2): string {
    match op
    case Cat => "cat"
    case Has => "has"
    case Min => "min"
    case Max => "max"
    case At => "at"
    case Find => "find"
    case PadL => "padl"
    case PadR => "padr"
    case _ => ""
  }

  function Called3(op: Op3): string {
    match op
    case Slice => "slice"
    case Replace => "replace"
  }

  /** Each name calls its function, with as many arguments as that takes. */
  lemma FunctionsAre(f: nat)
    requires f < |FUNCTIONS|
    ensures var (name, op, n) := FUNCTIONS[f];
            match op
            case Un(o) => name == Called1(o) && n == 1
            case Bi(o) => name == Called2(o) && n == 2
            case Tri(o) => name == Called3(o) && n == 3
            case _ => false
  {
    if f < 8 {
    } else if f < 16 {
    } else {
    }
  }

  // ---- the value of what is written ------------------------------------------------------------------

  /** Operands keep their sides: the first is the left one. */
  lemma SidesKept(w: World, i: nat, x: nat, y: nat, n: nat)
    requires i < |OPERATORS|
    ensures ValueOf(w, Binary(i, Number(x), Number(y)), n).0 == Apply2(OPERATORS[i].1, Num(x), Num(y))
    ensures OPERATORS[i].0 == "-" ==> OrErr(ValueOf(w, Binary(i, Number(x), Number(y)), n).0, x - y)
    ensures OPERATORS[i].0 == "<" ==> Says(ValueOf(w, Binary(i, Number(x), Number(y)), n).0, x < y)
  {
    hide Apply2;
    OperatorsAre(i);
    AppLaws.Sums(x, y);
    NumbersCompare(x, y);
    TokensDiffer(OPERATORS[i].1);
  }

  /** A minus sign before an operand negates it, an exclamation mark denies it. */
  lemma PrefixKept(w: World, env: Env, x: nat, n: nat)
    ensures ValueOf(w, Prefix(true, Number(x)), n).0 == Num(0 - x)
    ensures Says(ValueOf(w, Prefix(false, Number(x)), n).0, x == 0)
    ensures Print(env, Prefix(true, Number(x)), 0) == "-" + TextOf(x)
    ensures Print(env, Prefix(false, Number(x)), 0) == "!" + TextOf(x)
  {
    hide TextOf;
  }

  /** Arguments keep their order. */
  lemma ArgumentsKept(w: World, f: nat, op: Op2, x: Tree, y: Tree, n: nat)
    requires f < |FUNCTIONS| && FUNCTIONS[f].1 == Bi(op) && FUNCTIONS[f].2 == 2 && WellFormed(x) && WellFormed(y)
    ensures var a := ValueOf(w, x, n);
            var b := ValueOf(w, y, a.1);
            ValueOf(w, Apply(f, [x, y]), n) == (Apply2(op, a.0, b.0), b.1)
  {
    var t := Apply(f, [x, y]);
    FormedTwo(f, x, y);
    hide WellFormed;
    CallOpens(w, t, n);
    ValuesOpen(w, t, 0, n);
    hide ValueOf, ValuesOf, Apply2;
    var a := ValueOf(w, x, n);
    var b := ValueOf(w, y, a.1);
    ValuesOpen(w, t, 1, a.1);
    ValuesOpen(w, t, 2, b.1);
  }

  lemma ThreeKept(w: World, f: nat, op: Op3, x: Tree, y: Tree, z: Tree, n: nat)
    requires f < |FUNCTIONS| && FUNCTIONS[f].1 == Tri(op) && FUNCTIONS[f].2 == 3
    requires WellFormed(x) && WellFormed(y) && WellFormed(z)
    ensures var a := ValueOf(w, x, n);
            var b := ValueOf(w, y, a.1);
            var c := ValueOf(w, z, b.1);
            ValueOf(w, Apply(f, [x, y, z]), n) == (Apply3(op, a.0, b.0, c.0), c.1)
  {
    var t := Apply(f, [x, y, z]);
    FormedThree(f, x, y, z);
    hide WellFormed;
    CallOpens(w, t, n);
    ValuesOpen(w, t, 0, n);
    hide ValueOf, ValuesOf, Apply3;
    var a := ValueOf(w, x, n);
    var b := ValueOf(w, y, a.1);
    var c := ValueOf(w, z, b.1);
    ValuesOpen(w, t, 1, a.1);
    ValuesOpen(w, t, 2, b.1);
    ValuesOpen(w, t, 3, c.1);
  }

  lemma FormedTwo(f: nat, x: Tree, y: Tree)
    requires f < |FUNCTIONS| && FUNCTIONS[f].2 == 2 && WellFormed(x) && WellFormed(y)
    ensures WellFormed(Apply(f, [x, y]))
  {
  }

  lemma FormedThree(f: nat, x: Tree, y: Tree, z: Tree)
    requires f < |FUNCTIONS| && FUNCTIONS[f].2 == 3 && WellFormed(x) && WellFormed(y) && WellFormed(z)
    ensures WellFormed(Apply(f, [x, y, z]))
  {
  }

  lemma CallOpens(w: World, t: Tree, n: nat)
    requires WellFormed(t) && t.Apply?
    ensures var vs := ValuesOf(w, t, 0, n);
            && (FUNCTIONS[t.f].1.Bi? && |t.args| == 2 ==>
                  ValueOf(w, t, n) == (Apply2(FUNCTIONS[t.f].1.op2, vs.0[0], vs.0[1]), vs.1))
            && (FUNCTIONS[t.f].1.Tri? && |t.args| == 3 ==>
                  ValueOf(w, t, n) == (Apply3(FUNCTIONS[t.f].1.op3, vs.0[0], vs.0[1], vs.0[2]), vs.1))
  {
    hide ValuesOf, Apply1, Apply2, Apply3;
    FunctionEffect(t.f);
  }

  lemma ValuesOpen(w: World, t: Tree, k: nat, n: nat)
    requires WellFormed(t) && t.Apply? && k <= |t.args|
    ensures ValuesOf(w, t, k, n) ==
            if k == |t.args| then ([], n)
            else
              var a := ValueOf(w, t.args[k], n);
              var more := ValuesOf(w, t, k + 1, a.1);
              ([a.0] + more.0, more.1)
  {
    hide ValueOf;
  }

  lemma TokensDiffer(op: Op2)
    ensures (Token(op) == "-" ==> op == Sub) && (Token(op) == "<" ==> op == Lt)
  {
    assert "<" != "<=" by {
      assert |"<"| == 1 && |"<="| == 2;
    }
  }

  // ---- numbers ---------------------------------------------------------------------------------------

  /** A sign before an unsigned number: `+` changes nothing, `-` negates. */
  lemma SignsIn(s: string)
    requires s != "" && (IsDigit(s[0]) || s[0] == '.')
    ensures NumOf("+" + s) == NumOf(s)
    ensures NumOf("-" + s) == if NumOf(s).Some? then Some(-NumOf(s).value) else None
  {
    hide Unsigned;
    assert ("+" + s)[1..] == s && ("-" + s)[1..] == s;
  }

  /** Blanks before and after a number do not count. */
  lemma BlanksAround(s: string, c: char)
    requires IsBlank(c)
    ensures NumOf([c] + s) == NumOf(s) && NumOf(s + [c]) == NumOf(s)
  {
    hide Unsigned;
    assert ([c] + s)[1..] == s;
    BlanksAfter(s, c);
    var t := SkipBlanks(s);
    if t == "" {
      assert NumOf(s) == Unsigned("") == NumOf(s + [c]) by {
        NoBlanksLeft(s, c);
      }
    } else {
      SkipMore(s, c);
      UnsignedMore(t, c);
      UnsignedMore(t[1..], c);
      assert (t + [c])[1..] == t[1..] + [c] && (t + [c])[0] == t[0];
    }
  }

  lemma {:induction false} BlanksAfter(s: string, c: char)
    requires IsBlank(c)
    ensures SkipBlanks(s + [c]) == "" <==> SkipBlanks(s) == ""
  {
    if s != "" {
      assert (s + [c])[1..] == s[1..] + [c] && (s + [c])[0] == s[0];
      BlanksAfter(s[1..], c);
    } else {
      assert s + [c] == [c] && [c][1..] == "";
    }
  }

  lemma NoBlanksLeft(s: string, c: char)
    requires IsBlank(c) && SkipBlanks(s) == ""
    ensures SkipBlanks(s + [c]) == ""
  {
    BlanksAfter(s, c);
  }

  lemma {:induction false} SkipMore(s: string, c: char)
    requires SkipBlanks(s) != ""
    ensures SkipBlanks(s + [c]) == SkipBlanks(s) + [c] && !IsBlank(SkipBlanks(s)[0])
  {
    assert (s + [c])[1..] == s[1..] + [c] && (s + [c])[0] == s[0];
    if IsBlank(s[0]) {
      SkipMore(s[1..], c);
    }
  }

  lemma {:induction false} SpanMore(t: string, c: char)
    requires !IsDigit(c)
    ensures Span(t + [c]) == Span(t) && (t + [c])[..Span(t)] == t[..Span(t)]
    ensures (t + [c])[Span(t)..] == t[Span(t)..] + [c]
  {
    if t != "" {
      assert (t + [c])[1..] == t[1..] + [c] && (t + [c])[0] == t[0];
      SpanMore(t[1..], c);
    } else {
      assert t + [c] == [c];
    }
  }

  lemma UnsignedMore(t: string, c: char)
    requires IsBlank(c)
    ensures Unsigned(t + [c]) == Unsigned(t)
  {
    hide Value, Fraction, SkipBlanks, Span;
    SpanMore(t, c);
    var n := Span(t);
    BlanksAfter(t[n..], c);
    if n < |t| {
      assert (t + [c])[n] == t[n];
      var u := t[n + 1..];
      assert (t + [c])[n + 1..] == u + [c];
      SpanMore(u, c);
      BlanksAfter(u[Span(u)..], c);
    }
  }

  /** Decimals beyond the sixth do not count. */
  lemma MoreDecimals(d: string, f: string, c: char)
    requires AllDigits(d) && AllDigits(f) && IsDigit(c) && |f| >= 6 && d != ""
    ensures NumOf(d + "." + f + [c]) == NumOf(d + "." + f)
  {
    hide Unsigned, Fraction, Value;
    var s, t := d + "." + f, d + "." + f + [c];
    assert s[0] == t[0] == d[0];
    Decimals(d, f);
    Decimals(d, f + [c]);
    assert t == d + "." + (f + [c]);
    DroppedDigit(f, c, SCALE);
    TenthLater(SCALE, |f|);
    assert DigitOf(c) * (Tenth(SCALE, |f|) / 10) == 0;
  }

  /** Whole part and six decimals. */
  lemma Decimals(d: string, f: string)
    requires AllDigits(d) && AllDigits(f) && d != ""
    ensures NumOf(d + "." + f) ==
            if Value(d) > MAX / SCALE then None else Some(Value(d) * SCALE + Fraction(f, SCALE))
  {
    hide Value, Fraction, Unsigned;
    var s := d + "." + f;
    assert s[0] == d[0] && SkipBlanks(s) == s;
    UnsignedDecimals(d, f);
  }

  lemma UnsignedDecimals(d: string, f: string)
    requires AllDigits(d) && AllDigits(f) && d != ""
    ensures Unsigned(d + "." + f) ==
            if Value(d) > MAX / SCALE then None else Some(Value(d) * SCALE + Fraction(f, SCALE))
  {
    hide Value, Fraction, Span, AllDigits;
    var s := d + "." + f;
    WhereDigitsEnd(d, f);
    assert SkipBlanks("") == "";
  }

  lemma WhereDigitsEnd(d: string, f: string)
    requires AllDigits(d) && AllDigits(f)
    ensures var s := d + "." + f;
            && Span(s) == |d| && s[..|d|] == d && s[|d|] == '.' && s[|d| + 1..] == f
            && Span(f) == |f| && f[..|f|] == f && f[|f|..] == ""
  {
    SpanIs(d + "." + f, |d|);
    SpanIs(f, |f|);
  }

  function Tenth(scale: nat, k: nat): nat { if k == 0 then scale else Tenth(scale / 10, k - 1) }

  lemma {:induction false} DroppedDigit(f: string, c: char, scale: nat)
    requires AllDigits(f) && IsDigit(c)
    ensures Fraction(f + [c], scale) == Fraction(f, scale) + DigitOf(c) * (Tenth(scale, |f|) / 10)
  {
    if f != "" {
      assert (f + [c])[1..] == f[1..] + [c] && (f + [c])[0] == f[0];
      DroppedDigit(f[1..], c, scale / 10);
    } else {
      assert f + [c] == [c] && [c][1..] == "";
    }
  }

  lemma {:induction false} TenthLater(scale: nat, k: nat)
    requires k >= 6 && scale <= SCALE
    ensures Tenth(scale, k) <= 1
  {
    if k == 6 {
      Shrunken(6);
      TenthMono(scale, SCALE, 6);
    } else {
      TenthLater(scale / 10, k - 1);
    }
  }

  lemma Shrunken(k: nat)
    requires k == 6
    ensures Tenth(SCALE, k) == 1
  {
    assert Tenth(SCALE, 6) == Tenth(100_000, 5) == Tenth(10_000, 4) == Tenth(1_000, 3) == Tenth(100, 2);
  }

  lemma {:induction false} TenthMono(a: nat, b: nat, k: nat)
    requires a <= b
    ensures Tenth(a, k) <= Tenth(b, k)
    decreases k
  {
    if k > 0 {
      TenthMono(a / 10, b / 10, k - 1);
    }
  }

  /** Whatever reads as a number is made of blanks, digits, one sign and one point. */
  predicate NumberChar(c: char) { IsDigit(c) || IsBlank(c) || c == '+' || c == '-' || c == '.' }

  lemma OnlyNumbers(s: string, i: nat)
    requires NumOf(s).Some? && i < |s|
    ensures NumberChar(s[i])
  {
    hide Unsigned;
    var k := Leading(s);
    if i >= k {
      var t := s[k..];
      assert t != "" && t[i - k] == s[i];
      if t[0] == '-' || t[0] == '+' {
        if i > k {
          assert t[1..][i - k - 1] == s[i];
          UnsignedOnly(t[1..], i - k - 1);
        }
      } else {
        UnsignedOnly(t, i - k);
      }
    }
  }

  lemma {:induction false} Leading(s: string) returns (k: nat)
    ensures k <= |s| && SkipBlanks(s) == s[k..] && forall i :: 0 <= i < k ==> IsBlank(s[i])
  {
    if s != "" && IsBlank(s[0]) {
      var j := Leading(s[1..]);
      k := j + 1;
      assert s[1..][j..] == s[k..];
      forall i | 0 <= i < k
        ensures IsBlank(s[i])
      {
        assert i > 0 ==> s[i] == s[1..][i - 1];
      }
    } else {
      k := 0;
    }
  }

  lemma AllBlank(s: string, i: nat)
    requires SkipBlanks(s) == "" && i < |s|
    ensures IsBlank(s[i])
  {
    var k := Leading(s);
  }

  lemma UnsignedOnly(t: string, i: nat)
    requires Unsigned(t).Some? && i < |t|
    ensures NumberChar(t[i])
  {
    hide Value, Fraction, SkipBlanks, Span;
    var n := Span(t);
    if i < n {
      assert t[i] == t[..n][i];
    } else if t[n] == '.' {
      var u := t[n + 1..];
      var m := Span(u);
      if i > n {
        assert t[i] == u[i - n - 1];
        if i - n - 1 < m {
          assert u[..m][i - n - 1] == t[i];
        } else {
          assert u[m..][i - n - 1 - m] == t[i];
          AllBlank(u[m..], i - n - 1 - m);
        }
      }
    } else {
      assert t[n..][i - n] == t[i];
      AllBlank(t[n..], i - n);
    }
  }

  // ---- how numbers are written -----------------------------------------------------------------------

  /** A minus only below zero, no zero in front of other digits, at most six decimals, none
      of them a zero at the end, and no point without decimals. */
  lemma NeatText(v: int) returns (w: string, f: string)
    ensures TextOf(v) == (if v < 0 then "-" else "") + w + (if f == "" then "" else "." + f)
    ensures AllDigits(w) && w != "" && (|w| > 1 ==> w[0] != '0')
    ensures AllDigits(f) && |f| <= 6 && (f != "" ==> f[|f| - 1] != '0')
  {
    hide TextOf, NatText, AppNum.Trimmed, Padded;
    var mag: nat := if v < 0 then -v else v;
    w, f := NatText(mag / SCALE), AppNum.Trimmed(Padded(mag % SCALE, 6));
    TextParts(v, if v < 0 then "-" else "", w, f);
    NatTextDigits(mag / SCALE);
    NoZeroInFront(mag / SCALE);
    TrimmedDigits(Padded(mag % SCALE, 6), SCALE);
    NoZeroAtEnd(Padded(mag % SCALE, 6));
  }

  lemma {:induction false} NoZeroInFront(n: nat)
    ensures var s := NatText(n); s != "" && (n > 0 ==> s[0] != '0') && (n < 10 ==> |s| == 1)
  {
    if n >= 10 {
      NoZeroInFront(n / 10);
      assert NatText(n)[0] == NatText(n / 10)[0];
    }
  }

  lemma {:induction false} NoZeroAtEnd(s: string)
    ensures var t := AppNum.Trimmed(s); |t| <= |s| && (t != "" ==> t[|t| - 1] != '0')
    decreases |s|
  {
    if s != "" && s[|s| - 1] == '0' {
      NoZeroAtEnd(s[..|s| - 1]);
    }
  }
}
