// What running a compiled handler amounts to, part by part: statements in order until
// one says stop, actions as the host does them, the branch its condition chooses.

module BlockLaws {
  import opened Basics
  import opened AppBlocks

  /** The app's handler `b`, compiled after `cells` and then run from `s`. */
  ghost function Handled<S>(h: Host<S>, b: seq<Src>, cells: seq<Cell>, s: S): Ran<S>
    requires CompileBlock(b, 0, cells).Some?
  {
    ExecBlock(h, CompileBlock(b, 0, cells).value, |cells|, |b|, 0, s, MAX_STEPS)
  }

  lemma HandledIs<S>(h: Host<S>, b: seq<Src>, cells: seq<Cell>, s: S)
    requires |cells| <= MAX_STMTS && CompileBlock(b, 0, cells).Some?
    ensures var r, tr := Handled(h, b, cells, s), TraceFrom(h, b, 0, s);
            r.s == Last(s, tr.0) && r.stop == tr.1
  {
    hide CompileBlock, ExecBlock, TraceFrom, Last;
    HandlerRuns(h, b, cells, CompileBlock(b, 0, cells).value, s);
  }

  // ---- one statement ---------------------------------------------------------------------------

  lemma {:induction false} OneTrace<S>(h: Host<S>, x: Src, s: S)
    ensures TraceFrom(h, [x], 0, s) == TraceStmt(h, x, s)
  {
    hide TraceStmt;
    var one := TraceStmt(h, x, s);
    assert TraceFrom(h, [x], 1, Last(s, one.0)) == ([], false);
    assert one.0 + [] == one.0;
  }

  /** An action does what the host does for it; a stop does nothing and stops. */
  lemma SimpleDoes<S>(h: Host<S>, a: nat, cells: seq<Cell>, s: S)
    requires |cells| < MAX_STMTS
    ensures CompileBlock([Act(a)], 0, cells).Some? && CompileBlock([Stop], 0, cells).Some?
    ensures var act, stop := Handled(h, [Act(a)], cells, s), Handled(h, [Stop], cells, s);
            act.s == h.act(a, s) && !act.stop && stop.s == s && stop.stop
  {
    hide CompileBlock, Handled, TraceFrom;
    SimpleCompiles(Act(a), cells);
    SimpleCompiles(Stop, cells);
    HandledIs(h, [Act(a)], cells, s);
    HandledIs(h, [Stop], cells, s);
    OneTrace(h, Act(a), s);
    OneTrace(h, Stop, s);
  }

  lemma SimpleCompiles(x: Src, cells: seq<Cell>)
    requires (x.Act? || x.Stop?) && |cells| < MAX_STMTS
    ensures CompileBlock([x], 0, cells).Some?
  {
    hide CompileBlock;
    BlockCompiles([x], 0, cells);
    assert DeepFrom([x], 0) == 0 && InnerFrom([x], 0) == 0 && FormedFrom([x], 0);
  }

  /** An if runs its then part when the condition holds and its else part, if it has one,
      when not, from what the condition left, as that part would run on its own. */
  lemma BranchDoes<S>(h: Host<S>, c: nat, thn: seq<Src>, els: Else, cells: seq<Cell>, s: S)
    requires |cells| <= MAX_STMTS && CompileBlock([If(c, thn, els)], 0, cells).Some?
    ensures var t := h.test(c, s);
            var part := if t.0 then thn else if els.Else? then els.b else [];
            && CompileBlock(part, 0, cells).Some?
            && var r, p := Handled(h, [If(c, thn, els)], cells, s), Handled(h, part, cells, t.1);
               r.s == p.s && r.stop == p.stop
  {
    hide CompileBlock, Handled, TraceFrom;
    var t, x := h.test(c, s), If(c, thn, els);
    var part := if t.0 then thn else if els.Else? then els.b else [];
    PartCompiles(c, thn, els, part, cells);
    HandledIs(h, [x], cells, s);
    HandledIs(h, part, cells, t.1);
    OneTrace(h, x, s);
    EmptyTrace(h, t.1);
    var inner := TraceFrom(h, part, 0, t.1);
    assert Last(s, [t.1] + inner.0) == Last(t.1, inner.0);
  }

  lemma EmptyTrace<S>(h: Host<S>, s: S)
    ensures TraceFrom(h, [], 0, s) == ([], false)
  {
  }

  lemma PartCompiles(c: nat, thn: seq<Src>, els: Else, part: seq<Src>, cells: seq<Cell>)
    requires |cells| <= MAX_STMTS && CompileBlock([If(c, thn, els)], 0, cells).Some?
    requires part == thn || (els.Else? && part == els.b) || part == []
    ensures CompileBlock(part, 0, cells).Some?
  {
    hide CompileBlock;
    var b := [If(c, thn, els)];
    BlockCompiles(b, 0, cells);
    BlockCompiles(part, 0, cells);
    assert Formed(b[0]) && Deep(b[0]) <= DeepFrom(b, 0) && Inner(b[0]) <= InnerFrom(b, 0);
    NothingIn();
  }

  lemma NothingIn()
    ensures FormedFrom([], 0) && DeepFrom([], 0) == 0 && Size([]) == 0
  {
  }

  // ---- one after the other -------------------------------------------------------------------------

  lemma {:induction false} JoinTrace<S>(h: Host<S>, x: seq<Src>, y: seq<Src>, i: nat, s: S)
    requires i <= |x|
    ensures var one, all := TraceFrom(h, x, i, s), TraceFrom(h, x + y, i, s);
            if one.1 then all == one
            else var rest := TraceFrom(h, y, 0, Last(s, one.0)); all == (one.0 + rest.0, rest.1)
    decreases |x| - i
  {
    hide TraceStmt;
    if i == |x| {
      TailTrace(h, x, y, 0, s);
      var rest := TraceFrom(h, y, 0, s);
      assert [] + rest.0 == rest.0;
    } else {
      assert (x + y)[i] == x[i];
      var st := TraceStmt(h, x[i], s);
      if !st.1 {
        var mid := Last(s, st.0);
        JoinTrace(h, x, y, i + 1, mid);
        var more := TraceFrom(h, x, i + 1, mid);
        LastJoins(s, st.0, more.0);
        if !more.1 {
          var rest := TraceFrom(h, y, 0, Last(mid, more.0));
          assert st.0 + (more.0 + rest.0) == st.0 + more.0 + rest.0;
        }
      }
    }
  }

  lemma LastJoins<S>(s: S, a: seq<S>, b: seq<S>)
    ensures Last(s, a + b) == Last(Last(s, a), b)
  {
  }

  lemma {:induction false} TailTrace<S>(h: Host<S>, x: seq<Src>, y: seq<Src>, i: nat, s: S)
    requires i <= |y|
    ensures TraceFrom(h, x + y, |x| + i, s) == TraceFrom(h, y, i, s)
    decreases |y| - i
  {
    hide TraceStmt;
    if i < |y| {
      assert (x + y)[|x| + i] == y[i];
      TailTrace(h, x, y, i + 1, Last(s, TraceStmt(h, y[i], s).0));
    }
  }

  lemma {:induction false} TailSizes(x: seq<Src>, y: seq<Src>, i: nat)
    requires i <= |y|
    ensures FormedFrom(x + y, |x| + i) == FormedFrom(y, i) && DeepFrom(x + y, |x| + i) == DeepFrom(y, i)
    ensures InnerFrom(x + y, |x| + i) == InnerFrom(y, i)
    decreases |y| - i
  {
    hide Formed, Deep, Inner;
    if i < |y| {
      assert (x + y)[|x| + i] == y[i];
      TailSizes(x, y, i + 1);
    }
  }

  lemma {:induction false} JoinSizes(x: seq<Src>, y: seq<Src>, i: nat)
    requires i <= |x|
    ensures FormedFrom(x + y, i) == (FormedFrom(x, i) && FormedFrom(y, 0))
    ensures DeepFrom(x, i) <= DeepFrom(x + y, i) && DeepFrom(y, 0) <= DeepFrom(x + y, i)
    ensures InnerFrom(x + y, i) == InnerFrom(x, i) + InnerFrom(y, 0)
    decreases |x| - i
  {
    hide Formed, Deep, Inner;
    if i == |x| {
      TailSizes(x, y, 0);
    } else {
      assert (x + y)[i] == x[i];
      JoinSizes(x, y, i + 1);
    }
  }

  /** Two runs of statements one after the other: the first, and then from where it left
      off the second, unless the first said stop. */
  lemma InOrder<S>(h: Host<S>, x: seq<Src>, y: seq<Src>, cells: seq<Cell>, s: S)
    requires |cells| <= MAX_STMTS && CompileBlock(x + y, 0, cells).Some?
    ensures CompileBlock(x, 0, cells).Some? && CompileBlock(y, 0, cells).Some?
    ensures var all, one := Handled(h, x + y, cells, s), Handled(h, x, cells, s);
            var rest := Handled(h, y, cells, one.s);
            if one.stop then all.s == one.s && all.stop else all.s == rest.s && all.stop == rest.stop
  {
    hide CompileBlock, Handled, TraceFrom, FormedFrom, DeepFrom, InnerFrom;
    BlockCompiles(x + y, 0, cells);
    BlockCompiles(x, 0, cells);
    BlockCompiles(y, 0, cells);
    JoinSizes(x, y, 0);
    HandledIs(h, x + y, cells, s);
    HandledIs(h, x, cells, s);
    var one := Handled(h, x, cells, s);
    HandledIs(h, y, cells, one.s);
    JoinTrace(h, x, y, 0, s);
    LastJoins(s, TraceFrom(h, x, 0, s).0, TraceFrom(h, y, 0, one.s).0);
  }
}
