// The compiler in place: a cursor over the text and the instance's operation,
// constant and string arrays, proved equal to the parser on values.

module AppCompiler {
  import opened Basics
  import opened AppNum
  import opened AppValue
  import opened AppParse

  lemma ScanNumberStep(u: string, k: nat)
    requires k < |u| && (IsDigit(u[k]) || u[k] == '.')
    ensures NumberLen(u[k..]) == 1 + NumberLen(u[k + 1..]) && u[..k + 1] == u[..k] + [u[k]]
  {
    assert u[k..][0] == u[k] && u[k..][1..] == u[k + 1..];
  }

  lemma ScanNameStep(u: string, k: nat)
    requires k < |u| && NameChar(u[k])
    ensures NameLen(u[k..]) == 1 + NameLen(u[k + 1..]) && u[..k + 1] == u[..k] + [u[k]]
  {
    assert u[k..][0] == u[k] && u[k..][1..] == u[k + 1..];
  }

  class Compiler {
    const env: Env
    const s: string
    var pos: nat
    const ops: array<FlatOp>
    var nop: nat
    const konst: array<int>
    var nkonst: nat
    const pool: array<char>
    var used: nat
    var cur: int
    var max: int
    var depth: int

    ghost predicate Valid()
      reads this, ops, konst, pool
    {
      && pos <= |s|
      && nop <= ops.Length == MAX_OPS
      && nkonst <= konst.Length == MAX_CONSTS
      && used <= pool.Length == STR_POOL
    }

    ghost function Abs(): St
      requires Valid()
      reads this, ops, konst, pool
    {
      St(ops[..nop], konst[..nkonst], pool[..used], cur, max, depth)
    }

    ghost function Rest(): string
      requires Valid()
      reads this, ops, konst, pool
    {
      s[pos..]
    }

    /** A compiler over one text and an instance's arrays, filled so far. */
    constructor (env: Env, s: string, ops: array<FlatOp>, nop: nat, konst: array<int>, nkonst: nat, pool: array<char>,
      used: nat)
      requires nop <= ops.Length == MAX_OPS && nkonst <= konst.Length == MAX_CONSTS && used <= pool.Length == STR_POOL
      ensures Valid() && this.env == env && this.s == s && Rest() == s
      ensures this.ops == ops && this.konst == konst && this.pool == pool
      ensures Abs() == St(ops[..nop], konst[..nkonst], pool[..used], 0, 0, 0)
    {
      this.env, this.s, pos := env, s, 0;
      this.ops, this.nop, this.konst, this.nkonst, this.pool, this.used := ops, nop, konst, nkonst, pool, used;
      cur, max, depth := 0, 0, 0;
    }

    method SkipWs()
      requires Valid()
      modifies this`pos
      ensures Valid() && Rest() == Skip(old(Rest())) && old(pos) <= pos
      ensures Abs() == old(Abs())
    {
      while pos < |s| && IsBlank(s[pos])
        invariant Valid() && old(pos) <= pos
        invariant SkipBlanks(s[pos..]) == SkipBlanks(s[old(pos)..])
      {
        assert s[pos..][1..] == s[pos + 1..];
        pos := pos + 1;
      }
    }

    /** The next character past blanks must be `c`. */
    method Take(c: char) returns (ok: bool)
      requires Valid()
      modifies this`pos
      ensures Valid() && Abs() == old(Abs())
      ensures ok <==> Expect(old(Rest()), c).Some?
      ensures ok ==> Rest() == Expect(old(Rest()), c).value && old(pos) < pos
    {
      SkipWs();
      if pos >= |s| || s[pos] != c {
        return false;
      }
      assert s[pos..][1..] == s[pos + 1..];
      pos := pos + 1;
      return true;
    }

    /** Appends one operation and keeps the stack simulation. */
    method EmitOp(op: FlatOp) returns (ok: bool)
      requires Valid()
      modifies this`nop, this`cur, this`max, ops
      ensures Valid()
      ensures ok <==> Emit(old(Abs()), op).Some?
      ensures ok ==> Abs() == Emit(old(Abs()), op).value
    {
      if nop >= MAX_OPS {
        return false;
      }
      ops[nop] := op;
      nop := nop + 1;
      assert ops[..nop] == old(ops[..nop]) + [op];
      cur := cur + Effect(op);
      if cur > max {
        max := cur;
      }
      return max <= STACK;
    }

    /** The index of `v` in the constants, added when new. */
    method InternNum(v: int) returns (ok: bool, k: nat)
      requires Valid()
      modifies this`nkonst, konst
      ensures Valid()
      ensures ok <==> ConstFrom(old(konst[..nkonst]), v, 0) >= 0 || old(nkonst) < MAX_CONSTS
      ensures ok ==> var i := ConstFrom(old(konst[..nkonst]), v, 0);
                     if i >= 0 then k == i && konst[..nkonst] == old(konst[..nkonst])
                     else k == old(nkonst) && konst[..nkonst] == old(konst[..nkonst]) + [v]
    {
      var i := 0;
      while i < nkonst
        invariant 0 <= i <= nkonst
        invariant ConstFrom(konst[..nkonst], v, 0) == ConstFrom(konst[..nkonst], v, i)
      {
        if konst[i] == v {
          return true, i;
        }
        i := i + 1;
      }
      if nkonst >= MAX_CONSTS {
        return false, 0;
      }
      konst[nkonst] := v;
      k := nkonst;
      nkonst := nkonst + 1;
      return true, k;
    }

    /** Copies `text` and its terminator to the end of the string pool. */
    method InternStr(text: string) returns (ok: bool, off: nat)
      requires Valid()
      modifies this`used, pool
      ensures Valid()
      ensures ok <==> |text| < TEXT_MAX && old(used) + |text| + 1 <= STR_POOL
      ensures ok ==> off == old(used) && pool[..used] == old(pool[..used]) + text + ['\0']
    {
      if |text| >= TEXT_MAX || used + |text| + 1 > STR_POOL {
        return false, 0;
      }
      off := used;
      var i := 0;
      while i < |text|
        invariant 0 <= i <= |text|
        invariant pool[..off] == old(pool[..used]) && pool[off..off + i] == text[..i]
      {
        pool[off + i] := text[i];
        i := i + 1;
      }
      pool[off + |text|] := '\0';
      used := off + |text| + 1;
      assert pool[..used] == pool[..off] + pool[off..off + |text|] + [pool[off + |text|]];
      return true, off;
    }

    method PutNum(v: int) returns (ok: bool)
      requires Valid()
      modifies this`nkonst, konst, this`nop, this`cur, this`max, ops
      ensures Valid()
      ensures ok <==> EmitNum(old(Abs()), v).Some?
      ensures ok ==> Abs() == EmitNum(old(Abs()), v).value
    {
      hide ConstFrom;
      var k;
      ok, k := InternNum(v);
      if ok {
        ok := EmitOp(Const(k));
      }
    }

    method PutStr(text: string) returns (ok: bool)
      requires Valid()
      modifies this`used, pool, this`nop, this`cur, this`max, ops
      ensures Valid()
      ensures ok <==> EmitStr(old(Abs()), text).Some?
      ensures ok ==> Abs() == EmitStr(old(Abs()), text).value
    {
      var off;
      ok, off := InternStr(text);
      if ok {
        ok := EmitOp(StrAt(off));
      }
    }

    /** The outcome of a parsing step is `r`. */
    ghost predicate Did(ok: bool, r: Res)
      reads this, ops, konst, pool
    {
      && Valid()
      && (ok <==> r.Got?)
      && (ok ==> Rest() == r.rest && Abs() == r.st)
    }

    /** Past the digits and points; at most 31 of them are kept. */
    method ScanNumber() returns (buf: string)
      requires Valid()
      modifies this`pos
      ensures Valid() && Abs() == old(Abs())
      ensures var u, n := old(Rest()), NumberLen(old(Rest())); Rest() == u[n..] && buf == u[..Least(n, NUM_BUF)]
    {
      ghost var u, k := Rest(), 0;
      buf := "";
      while pos < |s| && (IsDigit(s[pos]) || s[pos] == '.')
        invariant Valid() && k == pos - old(pos) && 0 <= k <= |u| && s[pos..] == u[k..]
        invariant NumberLen(u) == k + NumberLen(u[k..]) && buf == u[..Least(k, NUM_BUF)]
      {
        ScanNumberStep(u, k);
        if |buf| < NUM_BUF {
          buf := buf + [s[pos]];
        }
        pos, k := pos + 1, k + 1;
      }
    }

    method Number() returns (ok: bool)
      requires Valid() && pos < |s| && IsDigit(s[pos])
      modifies this, ops, konst, pool
      ensures Did(ok, Literal(old(Rest()), old(Abs())))
    {
      hide EmitNum, NumOf, NumberLen;
      var buf := ScanNumber();
      var v := Parse(buf);
      if v.None? {
        return false;
      }
      ok := PutNum(v.value);
    }

    /** Up to the closing quote, or the end of the text. */
    method ScanQuote(q: char) returns (text: string)
      requires Valid()
      modifies this`pos
      ensures Valid() && Abs() == old(Abs())
      ensures var u, n := old(Rest()), QuoteLen(old(Rest()), q); Rest() == u[n..] && text == u[..n]
    {
      var b := pos;
      while pos < |s| && s[pos] != q
        invariant Valid() && b <= pos
        invariant pos - b + QuoteLen(s[pos..], q) == QuoteLen(s[b..], q)
      {
        assert s[pos..][1..] == s[pos + 1..];
        pos := pos + 1;
      }
      text := s[b..pos];
    }

    method Text() returns (ok: bool)
      requires Valid() && pos < |s|
      modifies this, ops, konst, pool
      ensures Did(ok, Quoted(old(Rest())[1..], old(Rest())[0], old(Abs())))
    {
      hide EmitStr, QuoteLen;
      var q := s[pos];
      pos := pos + 1;
      assert Rest() == old(Rest())[1..];
      var text := ScanQuote(q);
      if pos >= |s| {
        return false;
      }
      pos := pos + 1;
      ok := PutStr(text);
    }

    /** A name, of which at most 23 characters are kept. */
    method ScanName() returns (name: string)
      requires Valid()
      modifies this`pos
      ensures Valid() && Abs() == old(Abs()) && old(pos) <= pos
      ensures var u, n := old(Rest()), NameLen(old(Rest())); Rest() == u[n..] && name == u[..Least(n, NAME_BUF)]
    {
      ghost var u, k := Rest(), 0;
      name := "";
      while pos < |s| && NameChar(s[pos])
        invariant Valid() && k == pos - old(pos) && 0 <= k <= |u| && s[pos..] == u[k..]
        invariant NameLen(u) == k + NameLen(u[k..]) && name == u[..Least(k, NAME_BUF)]
      {
        ScanNameStep(u, k);
        if |name| < NAME_BUF {
          name := name + [s[pos]];
        }
        pos, k := pos + 1, k + 1;
      }
    }

    /** Which function `name` is, or -1. */
    method FindFunction(name: string) returns (f: int)
      ensures f == FunctionFrom(name, 0)
    {
      var i := 0;
      while i < |FUNCTIONS|
        invariant 0 <= i <= |FUNCTIONS| && FunctionFrom(name, 0) == FunctionFrom(name, i)
      {
        if FUNCTIONS[i].0 == name {
          return i;
        }
        i := i + 1;
      }
      return -1;
    }

    method FindName(names: seq<string>, name: string) returns (k: int)
      ensures k == NameFrom(names, name, 0)
    {
      var i := 0;
      while i < |names|
        invariant 0 <= i <= |names| && NameFrom(names, name, 0) == NameFrom(names, name, i)
      {
        if names[i] == name {
          return i;
        }
        i := i + 1;
      }
      return -1;
    }

    method FindLeaf(name: string) returns (l: Option<Leaf>)
      ensures l == LeafOf(env, name)
    {
      hide NameFrom;
      if name == "key" {
        return Some(Key);
      }
      var i := FindName(TIMES, name);
      if i >= 0 {
        return Some(Time(i));
      }
      i := FindName(env.vars, name);
      if i >= 0 {
        return Some(Var(i));
      }
      i := FindName(env.widgets, name);
      if name != "" && i >= 0 {
        return Some(Widget(i));
      }
      return None;
    }

    /** The operator the text goes on with, or -1. */
    method FindOperator() returns (k: int)
      requires Valid()
      ensures k == OperatorFrom(Rest(), 0)
    {
      var i := 0;
      while i < |OPERATORS|
        invariant 0 <= i <= |OPERATORS| && OperatorFrom(s[pos..], 0) == OperatorFrom(s[pos..], i)
      {
        var tok := OPERATORS[i].0;
        if pos + |tok| <= |s| && s[pos..pos + |tok|] == tok {
          assert s[pos..][..|tok|] == tok;
          return i;
        }
        assert pos + |tok| <= |s| ==> s[pos..][..|tok|] == s[pos..pos + |tok|];
        i := i + 1;
      }
      return -1;
    }

    method ParsePrimary() returns (ok: bool)
      requires Valid()
      modifies this, ops, konst, pool
      ensures Did(ok, Primary(env, old(Rest()), old(Abs())))
      ensures ok ==> old(pos) < pos
      decreases |s| - pos, 2
    {
      hide Climb, Arguments, Literal, Quoted, Emit, NameLen, LeafOf, FunctionFrom, Expect, Skip;
      BlanksFirst(env, Rest(), Abs());
      SkipTwice(Rest());
      SkipWs();
      if pos >= |s| {
        return false;
      }
      var ch := s[pos];
      if ch == '(' {
        ok := Parens();
      } else if ch == '-' || ch == '!' {
        ok := Unary();
      } else if ch == '\'' || ch == '"' {
        ok := Text();
      } else if IsDigit(ch) {
        ok := Number();
      } else if NameStart(ch) {
        ok := Name();
      } else {
        ok := false;
      }
    }

    method Parens() returns (ok: bool)
      requires Valid() && pos < |s| && s[pos] == '('
      modifies this, ops, konst, pool
      ensures Did(ok, Primary(env, old(Rest()), old(Abs())))
      decreases |s| - pos, 1
    {
      hide Primary, Climb, Expect;
      PrimaryParens(env, Rest()[1..], Abs());
      assert Rest() == "(" + Rest()[1..];
      depth := depth + 1;
      if depth > PAREN_DEPTH {
        return false;
      }
      pos := pos + 1;
      ok := ParseExpr(0);
      if !ok {
        return;
      }
      ok := Take(')');
      if ok {
        depth := depth - 1;
      }
    }

    method Unary() returns (ok: bool)
      requires Valid() && pos < |s| && (s[pos] == '-' || s[pos] == '!')
      modifies this, ops, konst, pool
      ensures Did(ok, Primary(env, old(Rest()), old(Abs())))
      decreases |s| - pos, 1
    {
      hide Primary, Climb, Emit;
      var neg := s[pos] == '-';
      PrimaryPrefix(env, neg, Rest()[1..], Abs());
      assert Rest() == (if neg then "-" else "!") + Rest()[1..];
      depth := depth + 1;
      if depth > PAREN_DEPTH {
        return false;
      }
      pos := pos + 1;
      ok := ParsePrimary();
      if ok {
        depth := depth - 1;
        ok := EmitOp(Un(if neg then Neg else Not));
      }
    }

    method Name() returns (ok: bool)
      requires Valid() && pos < |s| && NameStart(s[pos])
      modifies this, ops, konst, pool
      ensures Did(ok, Primary(env, old(Rest()), old(Abs())))
      decreases |s| - pos, 1
    {
      hide Primary, Climb, Emit, NameLen, LeafOf, FunctionFrom, CallOf, Skip;
      NoBlank(Rest());
      NameStep(env, Rest(), Abs());
      var name := ScanName();
      SkipWs();
      if pos < |s| && s[pos] == '(' {
        var f := FindFunction(name);
        if f == -1 {
          return false;
        }
        ok := Call(FUNCTIONS[f].1, FUNCTIONS[f].2);
      } else {
        var l := FindLeaf(name);
        if l.None? {
          return false;
        }
        ok := EmitOp(Read(l.value));
      }
    }

    /** From the opening parenthesis of a call to past its closing one. */
    method Call(op: FlatOp, arity: nat) returns (ok: bool)
      requires Valid() && pos < |s| && s[pos] == '('
      modifies this, ops, konst, pool
      ensures Did(ok, CallOf(env, op, arity, old(Rest())[1..], old(Abs())))
      decreases |s| - pos, 0
    {
      hide Emit, Expect, Arguments;
      depth := depth + 1;
      if depth > PAREN_DEPTH {
        return false;
      }
      pos := pos + 1;
      assert Rest() == old(Rest())[1..];
      ok := Args(arity);
      if !ok {
        return;
      }
      ok := Take(')');
      if ok {
        depth := depth - 1;
        ok := EmitOp(op);
      }
    }

    /** `n` arguments with commas between. */
    method Args(n: nat) returns (ok: bool)
      requires Valid()
      modifies this, ops, konst, pool
      ensures Did(ok, Arguments(env, old(Rest()), n, true, old(Abs())))
      decreases |s| - pos, 4
    {
      hide Climb, Expect;
      ghost var r := Arguments(env, Rest(), n, true, Abs());
      var k := 0;
      while k < n
        invariant 0 <= k <= n && Valid() && old(pos) <= pos
        invariant r == Arguments(env, Rest(), n - k, k == 0, Abs())
      {
        if k > 0 {
          ok := Take(',');
          if !ok {
            return;
          }
        }
        ok := ParseExpr(0);
        if !ok {
          return;
        }
        k := k + 1;
      }
      ok := true;
    }

    method ParseExpr(prec: nat) returns (ok: bool)
      requires Valid()
      modifies this, ops, konst, pool
      ensures Did(ok, Climb(env, old(Rest()), prec, old(Abs())))
      ensures ok ==> old(pos) < pos
      decreases |s| - pos, 3
    {
      hide Primary, Emit, OperatorFrom, Skip, Climb;
      ghost var r := Climb(env, Rest(), prec, Abs());
      ClimbOpens(env, Rest(), prec, Abs());
      ok := ParsePrimary();
      if !ok {
        return;
      }
      while true
        invariant Valid() && ok && old(pos) < pos
        invariant r == Operands(env, Rest(), prec, Abs())
        decreases |s| - pos
      {
        ghost var u, st := Skip(Rest()), Abs();
        OperandsOpen(env, Rest(), prec, Abs());
        SkipWs();
        if pos >= |s| {
          return;
        }
        var i := FindOperator();
        if i == -1 || OPERATORS[i].2 <= prec {
          return;
        }
        TokenLength(i);
        pos := pos + |OPERATORS[i].0|;
        assert Rest() == u[|OPERATORS[i].0|..];
        ok := ParseExpr(OPERATORS[i].2);
        if !ok {
          return;
        }
        ok := EmitOp(Bi(OPERATORS[i].1));
        if !ok {
          return;
        }
      }
    }

    /** The whole text: one expression, nothing after it, one value. */
    method CompileAll() returns (ok: bool)
      requires Valid() && pos == 0 && cur == max == depth == 0
      modifies this, ops, konst, pool
      ensures Valid()
      ensures ok <==> Compile(env, s, old(Abs())).Some?
      ensures ok ==> Some(Abs()) == Compile(env, s, old(Abs()))
    {
      hide Climb, Skip;
      if s == "" {
        return false;
      }
      assert Rest() == s;
      ok := ParseExpr(0);
      if !ok {
        return;
      }
      SkipWs();
      return pos >= |s| && cur == 1;
    }
  }
}
