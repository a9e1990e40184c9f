// Handlers: nested statement blocks compiled into one flat array and run from it
// under a step budget.

module AppBlocks {
  import opened Basics
  import opened AppNum

  const MAX_STMTS: nat := 128
  const MAX_IF_DEPTH: nat := 8
  const MAX_STEPS: nat := 512

  /** A statement of a document; sets and calls are numbered actions. `Malformed`
      stands for one the compiler rejects for its own fields, or because the calls
      and expressions of the whole app before it have used up what there is. */
  datatype Src = Malformed | Stop | Act(a: nat) | If(c: nat, thn: seq<Src>, els: Else)
  datatype Else = NoElse | Else(b: seq<Src>)

  datatype Cell = Blank | End | Do(a: nat) | Branch(c: nat, thenFirst: nat, thenCount: nat, elseFirst: nat,
    elseCount: nat)

  /** How actions and conditions act on the state of an app. */
  datatype Host<!S> = Host(act: (nat, S) -> S, test: (nat, S) -> (bool, S))

  // ---- compiling ---------------------------------------------------------------------------

  function Blanks(n: nat): (r: seq<Cell>)
    ensures |r| == n
  {
    seq(n, _ => Blank)
  }

  /** The block's own cells are reserved before anything nested is compiled. */
  function CompileBlock(b: seq<Src>, depth: nat, cells: seq<Cell>): (r: Option<seq<Cell>>)
    ensures r.Some? ==> |r.value| >= |cells| + |b|
    decreases b, |b| + 1
  {
    if depth > MAX_IF_DEPTH || |cells| + |b| > MAX_STMTS then None
    else CompileFrom(b, 0, |cells|, depth, cells + Blanks(|b|))
  }

  function CompileFrom(b: seq<Src>, i: nat, base: nat, depth: nat, cells: seq<Cell>): (r: Option<seq<Cell>>)
    requires i <= |b| && base + |b| <= |cells|
    ensures r.Some? ==> |r.value| >= |cells|
    decreases b, |b| - i
  {
    if i == |b| then Some(cells) else
    var c := CompileStmt(b[i], depth, base + i, cells);
    if c.None? then None else CompileFrom(b, i + 1, base, depth, c.value)
  }

  function CompileStmt(s: Src, depth: nat, slot: nat, cells: seq<Cell>): (r: Option<seq<Cell>>)
    requires slot < |cells|
    ensures r.Some? ==> |r.value| >= |cells|
    decreases s
  {
    match s
    case Malformed => None
    case Stop => Some(cells[slot := End])
    case Act(a) => Some(cells[slot := Do(a)])
    case If(c, thn, els) =>
      if depth + 1 > MAX_IF_DEPTH then None else
      var t := CompileBlock(thn, depth + 1, cells);
      if t.None? then None else
      if els.NoElse? then Some(t.value[slot := Branch(c, |cells|, |thn|, 0, 0)]) else
      var e := CompileBlock(els.b, depth + 1, t.value);
      if e.None? then None else Some(e.value[slot := Branch(c, |cells|, |thn|, |t.value|, |els.b|)])
  }

  // ---- sizes -----------------------------------------------------------------------------------

  /** How many statements lie inside `s`, at any depth. */
  function Inner(s: Src): nat
    decreases s
  {
    if !s.If? then 0 else Size(s.thn) + if s.els.Else? then Size(s.els.b) else 0
  }

  function InnerFrom(b: seq<Src>, i: nat): nat
    requires i <= |b|
    decreases b, |b| - i
  {
    if i == |b| then 0 else Inner(b[i]) + InnerFrom(b, i + 1)
  }

  function Size(b: seq<Src>): nat
    decreases b, |b| + 1
  {
    |b| + InnerFrom(b, 0)
  }

  function Deep(s: Src): nat
    decreases s
  {
    if !s.If? then 0 else 1 + Most(DeepFrom(s.thn, 0), if s.els.Else? then DeepFrom(s.els.b, 0) else 0)
  }

  /** How many ifs enclose the deepest statement from the i'th on. */
  function DeepFrom(b: seq<Src>, i: nat): nat
    requires i <= |b|
    decreases b, |b| - i
  {
    if i == |b| then 0 else Most(Deep(b[i]), DeepFrom(b, i + 1))
  }

  predicate Formed(s: Src)
    decreases s
  {
    match s
    case Malformed => false
    case If(_, thn, els) => FormedFrom(thn, 0) && (els.Else? ==> FormedFrom(els.b, 0))
    case _ => true
  }

  predicate FormedFrom(b: seq<Src>, i: nat)
    requires i <= |b|
    decreases b, |b| - i
  {
    i == |b| || (Formed(b[i]) && FormedFrom(b, i + 1))
  }

  // ---- layout ------------------------------------------------------------------------------------

  /** `s` is in cell `slot` and everything nested in it fills the cells from
      `from`, then part before else part. */
  predicate LaidStmt(s: Src, cells: seq<Cell>, slot: nat, from: nat)
    requires slot < |cells|
    decreases s
  {
    match s
    case Malformed => false
    case Stop => cells[slot] == End
    case Act(a) => cells[slot] == Do(a)
    case If(c, thn, els) =>
      && LaidBlock(thn, cells, from)
      && (els.NoElse? ==> cells[slot] == Branch(c, from, |thn|, 0, 0))
      && (els.Else? ==>
           cells[slot] == Branch(c, from, |thn|, from + Size(thn), |els.b|)
           && LaidBlock(els.b, cells, from + Size(thn)))
  }

  predicate LaidFrom(b: seq<Src>, i: nat, cells: seq<Cell>, first: nat, from: nat)
    requires i <= |b| && first + |b| <= |cells|
    decreases b, |b| - i
  {
    i == |b| || (LaidStmt(b[i], cells, first + i, from) && LaidFrom(b, i + 1, cells, first, from + Inner(b[i])))
  }

  /** The block's own statements first, in a row; then, statement by statement,
      what is nested in them. */
  predicate LaidBlock(b: seq<Src>, cells: seq<Cell>, first: nat)
    decreases b, |b| + 1
  {
    first + Size(b) <= |cells| && LaidFrom(b, 0, cells, first, first + |b|)
  }

  /** Both arrays hold the same in `lo..hi`. */
  predicate Same(a: seq<Cell>, b: seq<Cell>, lo: nat, hi: nat) {
    hi <= |a| && hi <= |b| && forall j :: lo <= j < hi ==> a[j] == b[j]
  }

  lemma {:induction false} StmtStays(s: Src, a: seq<Cell>, b: seq<Cell>, slot: nat, from: nat)
    requires slot < |a| && slot < |b| && a[slot] == b[slot] && Same(a, b, from, from + Inner(s))
    requires LaidStmt(s, a, slot, from)
    ensures LaidStmt(s, b, slot, from)
    decreases s
  {
    if s.If? {
      BlockStays(s.thn, a, b, from);
      if s.els.Else? {
        BlockStays(s.els.b, a, b, from + Size(s.thn));
      }
    }
  }

  lemma {:induction false} FromStays(b: seq<Src>, i: nat, x: seq<Cell>, y: seq<Cell>, first: nat, from: nat)
    requires i <= |b| && first + |b| <= |x| && first + |b| <= |y| && LaidFrom(b, i, x, first, from)
    requires Same(x, y, first + i, first + |b|) && Same(x, y, from, from + InnerFrom(b, i))
    ensures LaidFrom(b, i, y, first, from)
    decreases b, |b| - i
  {
    hide LaidStmt;
    if i < |b| {
      StmtStays(b[i], x, y, first + i, from);
      FromStays(b, i + 1, x, y, first, from + Inner(b[i]));
    }
  }

  lemma {:induction false} BlockStays(b: seq<Src>, x: seq<Cell>, y: seq<Cell>, first: nat)
    requires LaidBlock(b, x, first) && Same(x, y, first, first + Size(b))
    ensures LaidBlock(b, y, first)
    decreases b, |b| + 1
  {
    hide LaidFrom;
    FromStays(b, 0, x, y, first, first + |b|);
  }

  // ---- what compiling achieves ---------------------------------------------------------------------

  /** `r` extends `cells`, which it leaves alone outside `lo..hi`. */
  predicate Extends(cells: seq<Cell>, r: seq<Cell>, lo: nat, hi: nat) {
    |cells| <= |r| && forall j :: 0 <= j < |cells| && !(lo <= j < hi) ==> r[j] == cells[j]
  }

  lemma {:induction false} StmtCompiles(s: Src, depth: nat, slot: nat, cells: seq<Cell>)
    requires slot < |cells| <= MAX_STMTS && depth <= MAX_IF_DEPTH
    ensures var r := CompileStmt(s, depth, slot, cells);
            && (r.Some? <==> Formed(s) && depth + Deep(s) <= MAX_IF_DEPTH && |cells| + Inner(s) <= MAX_STMTS)
            && (r.Some? ==>
                 |r.value| == |cells| + Inner(s) && Extends(cells, r.value, slot, slot + 1)
                 && LaidStmt(s, r.value, slot, |cells|))
    decreases s
  {
    hide CompileBlock, LaidBlock, FormedFrom, DeepFrom, Size;
    if s.If? && depth + 1 <= MAX_IF_DEPTH {
      BlockCompiles(s.thn, depth + 1, cells);
      var t := CompileBlock(s.thn, depth + 1, cells);
      if t.Some? {
        IfCompiles(s, depth, slot, cells, t.value);
      }
    }
  }

  lemma {:induction false} IfCompiles(s: Src, depth: nat, slot: nat, cells: seq<Cell>, t: seq<Cell>)
    requires s.If? && slot < |cells| && depth + 1 <= MAX_IF_DEPTH && CompileBlock(s.thn, depth + 1, cells) == Some(t)
    requires |t| == |cells| + Size(s.thn) <= MAX_STMTS && Extends(cells, t, 0, 0) && LaidBlock(s.thn, t, |cells|)
    ensures var r := CompileStmt(s, depth, slot, cells);
            && (r.Some? <==> (s.els.Else? ==>
                 FormedFrom(s.els.b, 0) && depth + 1 + DeepFrom(s.els.b, 0) <= MAX_IF_DEPTH
                 && |cells| + Inner(s) <= MAX_STMTS))
            && (r.Some? ==>
                 |r.value| == |cells| + Inner(s) && Extends(cells, r.value, slot, slot + 1)
                 && LaidStmt(s, r.value, slot, |cells|))
    decreases s, 0
  {
    hide CompileBlock, LaidBlock, FormedFrom, DeepFrom, Size;
    var r := CompileStmt(s, depth, slot, cells);
    if s.els.Else? {
      BlockCompiles(s.els.b, depth + 1, t);
    }
    if r.Some? {
      BlockStays(s.thn, t, r.value, |cells|);
      if s.els.Else? {
        BlockStays(s.els.b, CompileBlock(s.els.b, depth + 1, t).value, r.value, |t|);
      }
    }
  }

  lemma {:induction false} FromCompiles(b: seq<Src>, i: nat, base: nat, depth: nat, cells: seq<Cell>)
    requires i <= |b| && base + |b| <= |cells| <= MAX_STMTS && depth <= MAX_IF_DEPTH
    ensures var r := CompileFrom(b, i, base, depth, cells);
            && (r.Some? <==>
                 FormedFrom(b, i) && depth + DeepFrom(b, i) <= MAX_IF_DEPTH && |cells| + InnerFrom(b, i) <= MAX_STMTS)
            && (r.Some? ==>
                 |r.value| == |cells| + InnerFrom(b, i) && Extends(cells, r.value, base + i, base + |b|)
                 && LaidFrom(b, i, r.value, base, |cells|))
    decreases b, |b| - i
  {
    hide CompileStmt, Formed, Deep, Inner, LaidStmt;
    if i < |b| {
      StmtCompiles(b[i], depth, base + i, cells);
      var c := CompileStmt(b[i], depth, base + i, cells);
      if c.Some? {
        FromCompiles(b, i + 1, base, depth, c.value);
        var r := CompileFrom(b, i + 1, base, depth, c.value);
        if r.Some? {
          StmtStays(b[i], c.value, r.value, base + i, |cells|);
        }
      }
    }
  }

  /** A block is accepted exactly when it is well formed, nested at most eight
      deep and fits the array; it is then laid out past what was there. */
  lemma {:induction false} BlockCompiles(b: seq<Src>, depth: nat, cells: seq<Cell>)
    requires |cells| <= MAX_STMTS && depth <= MAX_IF_DEPTH
    ensures var r := CompileBlock(b, depth, cells);
            && (r.Some? <==>
                 FormedFrom(b, 0) && depth + DeepFrom(b, 0) <= MAX_IF_DEPTH && |cells| + Size(b) <= MAX_STMTS)
            && (r.Some? ==>
                 |r.value| == |cells| + Size(b) && Extends(cells, r.value, 0, 0) && LaidBlock(b, r.value, |cells|))
    decreases b, |b| + 1
  {
    hide CompileFrom, FormedFrom, DeepFrom, LaidFrom, InnerFrom;
    if |cells| + |b| <= MAX_STMTS {
      FromCompiles(b, 0, |cells|, depth, cells + Blanks(|b|));
    }
  }

  // ---- running: the nested meaning --------------------------------------------------------------------

  /** The states after each statement that runs, in order, and whether the run
      was told to stop. */
  ghost function TraceStmt<S>(h: Host<S>, x: Src, s: S): (seq<S>, bool)
    decreases x
  {
    match x
    case Malformed => ([s], true)
    case Stop => ([s], true)
    case Act(a) => ([h.act(a, s)], false)
    case If(c, thn, els) =>
      var t := h.test(c, s);
      var inner :=
        if t.0 then TraceFrom(h, thn, 0, t.1)
        else if els.Else? then TraceFrom(h, els.b, 0, t.1)
        else ([], false);
      ([t.1] + inner.0, inner.1)
  }

  ghost function TraceFrom<S>(h: Host<S>, b: seq<Src>, i: nat, s: S): (seq<S>, bool)
    requires i <= |b|
    decreases b, |b| - i
  {
    if i == |b| then ([], false) else
    var one := TraceStmt(h, b[i], s);
    if one.1 then one else
    var rest := TraceFrom(h, b, i + 1, Last(s, one.0));
    (one.0 + rest.0, rest.1)
  }

  ghost function Last<S>(s: S, tr: seq<S>): S { if tr == [] then s else tr[|tr| - 1] }

  // ---- running: the flat array ------------------------------------------------------------------------

  /** `guard` is set when a depth or range guard ends the block. */
  datatype Ran<!S> = Ran(s: S, budget: int, stop: bool, guard: bool, visited: seq<nat>)

  ghost function ExecBlock<S>(h: Host<S>, cells: seq<Cell>, first: nat, count: nat, depth: nat, s: S,
                              budget: int): Ran<S>
    decreases MAX_IF_DEPTH + 1 - depth, count + 2
  {
    if depth > MAX_IF_DEPTH then Ran(s, budget, true, true, [])
    else ExecFrom(h, cells, first, count, depth, 0, s, budget)
  }

  ghost function ExecFrom<S>(h: Host<S>, cells: seq<Cell>, first: nat, count: nat, depth: nat, i: nat, s: S,
                             budget: int): Ran<S>
    requires i <= count && depth <= MAX_IF_DEPTH
    decreases MAX_IF_DEPTH + 1 - depth, count + 1 - i
  {
    if i == count then Ran(s, budget, false, false, [])
    else if first + i >= |cells| then Ran(s, budget, true, true, [])
    else if budget - 1 < 0 then Ran(s, budget - 1, true, false, [])
    else
      var one := ExecCell(h, cells, cells[first + i], depth, s, budget - 1);
      var visited := [first + i] + one.visited;
      if one.stop then one.(visited := visited) else
      var rest := ExecFrom(h, cells, first, count, depth, i + 1, one.s, one.budget);
      rest.(visited := visited + rest.visited, guard := one.guard || rest.guard)
  }

  /** One statement, once its step is paid for. */
  ghost function ExecCell<S>(h: Host<S>, cells: seq<Cell>, cell: Cell, depth: nat, s: S, budget: int): Ran<S>
    requires depth <= MAX_IF_DEPTH
    decreases MAX_IF_DEPTH + 1 - depth, 0
  {
    match cell
    case Blank => Ran(s, budget, false, false, [])
    case End => Ran(s, budget, true, false, [])
    case Do(a) => Ran(h.act(a, s), budget, false, false, [])
    case Branch(c, tf, tc, ef, ec) =>
      var t := h.test(c, s);
      if t.0 then ExecBlock(h, cells, tf, tc, depth + 1, t.1, budget)
      else if ec != 0 then ExecBlock(h, cells, ef, ec, depth + 1, t.1, budget)
      else Ran(t.1, budget, false, false, [])
  }

  /** `ran` is the trace cut at the budget: with enough budget the whole of it,
      otherwise the first statements it pays for and then a stop. */
  ghost predicate Cut<S>(ran: Ran<S>, s: S, budget: nat, tr: seq<S>, stop: bool) {
    && !ran.guard
    && (|tr| <= budget ==> ran.s == Last(s, tr) && ran.budget == budget - |tr| && ran.stop == stop)
    && (|tr| > budget ==> ran.s == Last(s, tr[..budget]) && ran.budget == -1 && ran.stop)
  }

  // ---- the flat run is the nested meaning, cut ----------------------------------------------------------

  predicate Distinct(v: seq<nat>) { forall j, k :: 0 <= j < k < |v| ==> v[j] != v[k] }

  predicate Within(v: seq<nat>, lo: nat, hi: nat) { forall j :: 0 <= j < |v| ==> lo <= v[j] < hi }

  /** Every index lies in the block's own row or in its nested region. */
  predicate Between(v: seq<nat>, lo: nat, mid: nat, from: nat, hi: nat) {
    forall j :: 0 <= j < |v| ==> lo <= v[j] < mid || from <= v[j] < hi
  }

  lemma TraceSome<S>(h: Host<S>, x: Src, s: S)
    ensures TraceStmt(h, x, s).0 != []
  {
  }

  lemma {:induction false} CellRuns<S>(h: Host<S>, x: Src, cells: seq<Cell>, slot: nat, from: nat, depth: nat, s: S,
                                       budget: nat)
    requires slot < |cells| && LaidStmt(x, cells, slot, from) && from + Inner(x) <= |cells|
    requires depth + Deep(x) <= MAX_IF_DEPTH
    ensures var ran, tr := ExecCell(h, cells, cells[slot], depth, s, budget), TraceStmt(h, x, s);
            tr.0 != [] && Cut(ran, tr.0[0], budget, tr.0[1..], tr.1) && Within(ran.visited, from, from + Inner(x))
              && Distinct(ran.visited)
    decreases x
  {
    hide ExecBlock, TraceFrom, LaidBlock, Size, DeepFrom;
    TraceSome(h, x, s);
    if x.If? {
      var t := h.test(x.c, s);
      if t.0 {
        BlockRuns(h, x.thn, cells, from, depth + 1, t.1, budget);
        assert TraceStmt(h, x, s).0[1..] == TraceFrom(h, x.thn, 0, t.1).0;
      } else if x.els.Else? {
        BlockRuns(h, x.els.b, cells, from + Size(x.thn), depth + 1, t.1, budget);
        assert TraceStmt(h, x, s).0[1..] == TraceFrom(h, x.els.b, 0, t.1).0;
        EmptyTrace(h, x.els.b, t.1);
      } else {
        assert TraceStmt(h, x, s).0[1..] == [];
      }
    } else {
      assert TraceStmt(h, x, s).0[1..] == [];
    }
  }

  lemma EmptyTrace<S>(h: Host<S>, b: seq<Src>, s: S)
    ensures b == [] ==> TraceFrom(h, b, 0, s) == ([], false)
  {
  }

  lemma {:induction false} BlockRuns<S>(h: Host<S>, b: seq<Src>, cells: seq<Cell>, first: nat, depth: nat, s: S,
                                        budget: nat)
    requires LaidBlock(b, cells, first) && depth + DeepFrom(b, 0) <= MAX_IF_DEPTH
    ensures var ran, tr := ExecBlock(h, cells, first, |b|, depth, s, budget), TraceFrom(h, b, 0, s);
            Cut(ran, s, budget, tr.0, tr.1) && Within(ran.visited, first, first + Size(b)) && Distinct(ran.visited)
    decreases b, |b| + 1
  {
    hide ExecFrom, TraceFrom, LaidFrom, DeepFrom, InnerFrom, Cut;
    FromRuns(h, b, 0, cells, first, first + |b|, depth, s, budget);
  }

  lemma {:induction false} FromRuns<S>(h: Host<S>, b: seq<Src>, i: nat, cells: seq<Cell>, first: nat, from: nat,
                                       depth: nat, s: S, budget: nat)
    requires i <= |b| && first + |b| <= from && from + InnerFrom(b, i) <= |cells| && LaidFrom(b, i, cells, first, from)
    requires depth + DeepFrom(b, i) <= MAX_IF_DEPTH
    ensures var ran, tr := ExecFrom(h, cells, first, |b|, depth, i, s, budget), TraceFrom(h, b, i, s);
            Cut(ran, s, budget, tr.0, tr.1) && Between(ran.visited, first + i, first + |b|, from,
              from + InnerFrom(b, i)) && Distinct(ran.visited)
    decreases b, |b| - i
  {
    hide ExecCell, TraceStmt, LaidStmt, Inner, Deep, Cut, Last, Distinct, Between, Within;
    NothingRuns(s, budget);
    if i < |b| {
      TraceSome(h, b[i], s);
      if budget == 0 {
        NothingPaid(s, TraceFrom(h, b, i, s).0, TraceFrom(h, b, i, s).1);
      } else {
        CellRuns(h, b[i], cells, first + i, from, depth, s, budget - 1);
        var one, tr := ExecCell(h, cells, cells[first + i], depth, s, budget - 1), TraceStmt(h, b[i], s);
        if one.stop {
          StopRuns(h, b, i, s, budget, one, tr.0, tr.1);
          VisitsStop(first + i, one.visited, first + |b|, from, from + Inner(b[i]), from + InnerFrom(b, i));
        } else {
          PaidFor(one, s, budget, tr.0, tr.1);
          FromRuns(h, b, i + 1, cells, first, from + Inner(b[i]), depth, one.s, one.budget);
          var rest := ExecFrom(h, cells, first, |b|, depth, i + 1, one.s, one.budget);
          var more := TraceFrom(h, b, i + 1, one.s);
          var all := ExecFrom(h, cells, first, |b|, depth, i, s, budget);
          CutJoins(one, rest, all, s, budget, tr.0, more.0, more.1);
          VisitsJoin(first + i, one.visited, rest.visited, first + |b|, from, from + Inner(b[i]),
            from + InnerFrom(b, i));
        }
      }
    }
  }

  lemma StopRuns<S>(h: Host<S>, b: seq<Src>, i: nat, s: S, budget: nat, one: Ran<S>, tr: seq<S>, stop: bool)
    requires i < |b| && budget > 0 && tr != [] && TraceStmt(h, b[i], s) == (tr, stop)
    requires Cut(one, tr[0], budget - 1, tr[1..], stop) && one.stop
    ensures forall v :: var all := TraceFrom(h, b, i, s); Cut(one.(visited := v), s, budget, all.0, all.1)
  {
    hide TraceStmt;
    if |tr| <= budget {
      assert Last(tr[0], tr[1..]) == Last(s, tr);
    } else {
      assert tr[1..][..budget - 1] == tr[1..budget] && Last(tr[0], tr[1..budget]) == Last(s, tr[..budget]);
      var rest := TraceFrom(h, b, i + 1, Last(s, tr));
      assert (tr + rest.0)[..budget] == tr[..budget];
    }
  }

  /** A whole statement, then the rest under what is left of the budget. */
  lemma CutJoins<S>(one: Ran<S>, rest: Ran<S>, all: Ran<S>, s: S, budget: nat, tr: seq<S>, more: seq<S>, stop: bool)
    requires budget > 0 && tr != [] && !one.stop && !one.guard && |tr| <= budget && one.s == Last(s, tr)
    requires one.budget == budget - |tr|
    requires one.budget >= 0 && Cut(rest, one.s, one.budget, more, stop)
    requires all.s == rest.s && all.budget == rest.budget && all.stop == rest.stop && all.guard == rest.guard
    ensures Cut(all, s, budget, tr + more, stop)
  {
    if |tr + more| <= budget {
      assert Last(s, tr + more) == Last(Last(s, tr), more);
    } else {
      var k: nat := one.budget;
      assert (tr + more)[..budget] == tr + more[..k];
      assert Last(s, tr + more[..k]) == Last(Last(s, tr), more[..k]);
    }
  }

  lemma NothingRuns<S>(s: S, budget: nat)
    ensures Distinct([]) && (forall lo, mid, from, hi :: Between([], lo, mid, from, hi))
    ensures Cut(Ran(s, budget, false, false, []), s, budget, [], false)
  {
  }

  lemma NothingPaid<S>(s: S, tr: seq<S>, stop: bool)
    requires tr != []
    ensures Cut(Ran(s, -1, true, false, []), s, 0, tr, stop)
  {
  }

  /** A statement that did not stop the run was paid for in full. */
  lemma PaidFor<S>(one: Ran<S>, s: S, budget: nat, tr: seq<S>, stop: bool)
    requires budget > 0 && tr != [] && Cut(one, tr[0], budget - 1, tr[1..], stop) && !one.stop
    ensures |tr| <= budget && one.s == Last(s, tr) && one.budget == budget - |tr| && !stop && !one.guard
  {
  }

  lemma VisitsStop(slot: nat, one: seq<nat>, mid: nat, from: nat, next: nat, hi: nat)
    requires slot < mid <= from <= next <= hi && Within(one, from, next) && Distinct(one)
    ensures Between([slot] + one, slot, mid, from, hi) && Distinct([slot] + one)
  {
  }

  lemma VisitsJoin(slot: nat, one: seq<nat>, rest: seq<nat>, mid: nat, from: nat, next: nat, hi: nat)
    requires slot < mid <= from <= next <= hi
    requires Within(one, from, next) && Distinct(one) && Between(rest, slot + 1, mid, next, hi) && Distinct(rest)
    ensures Between([slot] + one + rest, slot, mid, from, hi) && Distinct([slot] + one + rest)
  {
  }

  // ---- a handler from document to run ---------------------------------------------------------------------

  lemma {:induction false} StmtShort<S>(h: Host<S>, x: Src, s: S)
    ensures |TraceStmt(h, x, s).0| <= 1 + Inner(x)
    decreases x
  {
    if x.If? {
      var t := h.test(x.c, s);
      TraceShort(h, x.thn, 0, t.1);
      if x.els.Else? {
        TraceShort(h, x.els.b, 0, t.1);
      }
    }
  }

  /** No statement runs twice, so a run is no longer than the block is large. */
  lemma {:induction false} TraceShort<S>(h: Host<S>, b: seq<Src>, i: nat, s: S)
    requires i <= |b|
    ensures |TraceFrom(h, b, i, s).0| <= |b| - i + InnerFrom(b, i)
    decreases b, |b| - i
  {
    hide TraceStmt, Inner;
    if i < |b| {
      StmtShort(h, b[i], s);
      TraceShort(h, b, i + 1, Last(s, TraceStmt(h, b[i], s).0));
    }
  }

  /** Whatever is compiled after it, an accepted handler runs to its nested
      meaning: no guard fires, the step budget is never used up, and no cell is
      visited twice. */
  lemma HandlerRuns<S>(h: Host<S>, b: seq<Src>, cells: seq<Cell>, later: seq<Cell>, s: S)
    requires |cells| <= MAX_STMTS && CompileBlock(b, 0, cells).Some?
    requires Extends(CompileBlock(b, 0, cells).value, later, 0, 0)
    ensures var ran, tr := ExecBlock(h, later, |cells|, |b|, 0, s, MAX_STEPS), TraceFrom(h, b, 0, s);
            && !ran.guard && ran.s == Last(s, tr.0) && ran.stop == tr.1
            && ran.budget == MAX_STEPS - |tr.0| >= MAX_STEPS - MAX_STMTS
            && Distinct(ran.visited) && Within(ran.visited, |cells|, |cells| + Size(b))
  {
    hide CompileBlock, ExecBlock, TraceFrom, LaidBlock, DeepFrom, FormedFrom, InnerFrom, Last;
    BlockCompiles(b, 0, cells);
    BlockStays(b, CompileBlock(b, 0, cells).value, later, |cells|);
    BlockRuns(h, b, later, |cells|, 0, s, MAX_STEPS);
    TraceShort(h, b, 0, s);
  }

  // ---- where each statement lies ----------------------------------------------------------------------------

  /** Into the then or the else part of the i'th statement. */
  datatype Turn = Turn(i: nat, thn: bool)

  predicate Path(b: seq<Src>, p: seq<Turn>, i: nat)
    decreases |p|
  {
    if p == [] then i < |b|
    else
      && p[0].i < |b|
      && b[p[0].i].If?
      && (if p[0].thn then Path(b[p[0].i].thn, p[1..], i) else b[p[0].i].els.Else? && Path(b[p[0].i].els.b, p[1..], i))
  }

  function Sub(b: seq<Src>, t: Turn): seq<Src>
    requires t.i < |b| && b[t.i].If? && (t.thn || b[t.i].els.Else?)
  {
    if t.thn then b[t.i].thn else b[t.i].els.b
  }

  /** The cell a compiled array sends a path to, following the stored ranges. */
  function Follow(cells: seq<Cell>, first: nat, p: seq<Turn>, i: nat): nat
    decreases |p|
  {
    if p == [] then first + i
    else if first + p[0].i >= |cells| || !cells[first + p[0].i].Branch? then 0
    else
      var c := cells[first + p[0].i];
      Follow(cells, if p[0].thn then c.thenFirst else c.elseFirst, p[1..], i)
  }

  function Before(b: seq<Src>, k: nat): nat
    requires k <= |b|
  {
    if k == 0 then 0 else Before(b, k - 1) + Inner(b[k - 1])
  }

  lemma {:induction false} BeforeAfter(b: seq<Src>, k: nat)
    requires k <= |b|
    ensures InnerFrom(b, 0) == Before(b, k) + InnerFrom(b, k)
  {
    hide Inner;
    if k > 0 {
      BeforeAfter(b, k - 1);
    }
  }

  lemma {:induction false} BeforeMono(b: seq<Src>, j: nat, k: nat)
    requires j < k <= |b|
    ensures Before(b, j) + Inner(b[j]) <= Before(b, k)
  {
    hide Inner;
    if j + 1 < k {
      BeforeMono(b, j, k - 1);
    }
  }

  lemma {:induction false} LaidAt(b: seq<Src>, k: nat, cells: seq<Cell>, first: nat)
    requires k <= |b| && LaidBlock(b, cells, first)
    ensures LaidFrom(b, k, cells, first, first + |b| + Before(b, k))
  {
    hide LaidStmt, Inner;
    if k > 0 {
      LaidAt(b, k - 1, cells, first);
    }
  }

  /** Where the block a turn leads to starts. */
  function SubFirst(b: seq<Src>, first: nat, t: Turn): nat
    requires t.i < |b| && b[t.i].If? && (t.thn || b[t.i].els.Else?)
  {
    first + |b| + Before(b, t.i) + if t.thn then 0 else Size(b[t.i].thn)
  }

  lemma TurnLaid(b: seq<Src>, cells: seq<Cell>, first: nat, t: Turn)
    requires LaidBlock(b, cells, first) && t.i < |b| && b[t.i].If? && (t.thn || b[t.i].els.Else?)
    ensures var sub, at := Sub(b, t), SubFirst(b, first, t);
            && LaidBlock(sub, cells, at)
            && first + |b| + Before(b, t.i) <= at && at + Size(sub) <= first + |b| + Before(b, t.i)
                  + Inner(b[t.i]) <= first + Size(b)
            && cells[first + t.i].Branch?
            && (if t.thn then cells[first + t.i].thenFirst else cells[first + t.i].elseFirst) == at
  {
    hide LaidBlock;
    LaidRoom(b, cells, first);
    LaidAt(b, t.i, cells, first);
    BeforeAfter(b, t.i);
  }

  lemma LaidRoom(b: seq<Src>, cells: seq<Cell>, first: nat)
    requires LaidBlock(b, cells, first)
    ensures first + Size(b) <= |cells|
  {
  }

  /** Every statement has its cell inside the block's range, and a nested one
      lies strictly after every statement of the block around it. */
  lemma {:induction false} FollowRange(b: seq<Src>, cells: seq<Cell>, first: nat, p: seq<Turn>, i: nat)
    requires LaidBlock(b, cells, first) && Path(b, p, i)
    ensures first <= Follow(cells, first, p, i) < first + Size(b)
    ensures p != [] ==> first + |b| <= Follow(cells, first, p, i)
    decreases |p|
  {
    hide LaidBlock, Inner;
    if p != [] {
      TurnLaid(b, cells, first, p[0]);
      LaidRoom(b, cells, first);
      FollowRange(Sub(b, p[0]), cells, SubFirst(b, first, p[0]), p[1..], i);
    }
  }

  lemma FollowTurn(b: seq<Src>, cells: seq<Cell>, first: nat, p: seq<Turn>, i: nat)
    requires LaidBlock(b, cells, first) && Path(b, p, i) && p != []
    ensures p[0].i < |b| && b[p[0].i].If? && (p[0].thn || b[p[0].i].els.Else?)
    ensures var sub, at := Sub(b, p[0]), SubFirst(b, first, p[0]);
            LaidBlock(sub, cells, at) && Path(sub, p[1..], i) && Follow(cells, first, p, i)
              == Follow(cells, at, p[1..], i)
  {
    hide LaidBlock, Inner, Size, Before;
    TurnLaid(b, cells, first, p[0]);
    LaidRoom(b, cells, first);
    RoomOwn(b);
  }

  lemma RoomOwn(b: seq<Src>)
    ensures |b| <= Size(b)
  {
  }

  /** Two turns lead to ranges that do not meet. */
  lemma SubsApart(b: seq<Src>, cells: seq<Cell>, first: nat, t: Turn, u: Turn)
    requires LaidBlock(b, cells, first) && t.i < |b| && b[t.i].If? && (t.thn || b[t.i].els.Else?)
    requires u.i < |b| && b[u.i].If? && (u.thn || b[u.i].els.Else?) && t != u
    ensures SubFirst(b, first, t) + Size(Sub(b, t)) <= SubFirst(b, first, u) || SubFirst(b, first, u)
            + Size(Sub(b, u)) <= SubFirst(b, first, t)
  {
    hide LaidBlock, Inner, Size;
    TurnLaid(b, cells, first, t);
    TurnLaid(b, cells, first, u);
    if t.i < u.i {
      BeforeMono(b, t.i, u.i);
    } else if u.i < t.i {
      BeforeMono(b, u.i, t.i);
    }
  }

  /** No two statements share a cell: all blocks occupy disjoint ranges. */
  lemma {:induction false} CellsDistinct(b: seq<Src>, cells: seq<Cell>, first: nat, p: seq<Turn>, i: nat, q: seq<Turn>,
                                         j: nat)
    requires LaidBlock(b, cells, first) && Path(b, p, i) && Path(b, q, j) && (p != q || i != j)
    ensures Follow(cells, first, p, i) != Follow(cells, first, q, j)
    decreases |p|
  {
    hide LaidBlock, Inner, Size, Path, SubFirst, Sub;
    if p == [] || q == [] {
      RootApart(b, cells, first, p, i, q, j);
    } else {
      FollowTurn(b, cells, first, p, i);
      FollowTurn(b, cells, first, q, j);
      var x, y := Sub(b, p[0]), Sub(b, q[0]);
      var fx, fy := SubFirst(b, first, p[0]), SubFirst(b, first, q[0]);
      if p[0] == q[0] {
        assert p == [p[0]] + p[1..] && q == [q[0]] + q[1..];
        CellsDistinct(x, cells, fx, p[1..], i, q[1..], j);
      } else {
        FollowRange(x, cells, fx, p[1..], i);
        FollowRange(y, cells, fy, q[1..], j);
        SubsApart(b, cells, first, p[0], q[0]);
      }
    }
  }

  lemma RootApart(b: seq<Src>, cells: seq<Cell>, first: nat, p: seq<Turn>, i: nat, q: seq<Turn>, j: nat)
    requires LaidBlock(b, cells, first) && Path(b, p, i) && Path(b, q, j) && (p != q || i != j) && (p == [] || q == [])
    ensures Follow(cells, first, p, i) != Follow(cells, first, q, j)
  {
    hide LaidBlock, Inner, Size;
    FollowRange(b, cells, first, p, i);
    FollowRange(b, cells, first, q, j);
  }

  // ---- the arrays in place ------------------------------------------------------------------------------------

  /** An app's statement array and, while a handler runs, its state and budget. */
  class Runtime<!S> {
    const host: Host<S>
    const stmt: array<Cell>
    var nstmt: nat
    var state: S
    var budget: int

    /** Cells past the used part are still blank. */
    ghost predicate Valid()
      reads this, stmt
    {
      nstmt <= stmt.Length == MAX_STMTS && forall j :: nstmt <= j < stmt.Length ==> stmt[j] == Blank
    }

    ghost function Cells(): seq<Cell>
      requires Valid()
      reads this, stmt
    {
      stmt[..nstmt]
    }

    constructor (host: Host<S>, s: S)
      ensures Valid() && Cells() == [] && fresh(stmt) && this.host == host && state == s
    {
      this.host, state, nstmt, budget := host, s, 0, 0;
      stmt := new Cell[MAX_STMTS](_ => Blank);
    }

    method AddBlock(b: seq<Src>, depth: nat) returns (ok: bool, first: nat, count: nat)
      requires Valid()
      modifies this`nstmt, stmt
      ensures Valid()
      ensures ok <==> CompileBlock(b, depth, old(Cells())).Some?
      ensures ok ==> Some(Cells()) == CompileBlock(b, depth, old(Cells())) && first == old(nstmt) && count == |b|
      decreases b, |b| + 1
    {
      hide CompileStmt, CompileFrom;
      first, count := nstmt, |b|;
      if depth > MAX_IF_DEPTH || nstmt + |b| > MAX_STMTS {
        return false, 0, 0;
      }
      nstmt := nstmt + |b|;
      assert Cells() == old(Cells()) + Blanks(|b|);
      ok := AddStmts(b, depth, first);
    }

    method AddStmts(b: seq<Src>, depth: nat, base: nat) returns (ok: bool)
      requires Valid() && base + |b| <= nstmt
      modifies this`nstmt, stmt
      ensures Valid()
      ensures ok <==> CompileFrom(b, 0, base, depth, old(Cells())).Some?
      ensures ok ==> Some(Cells()) == CompileFrom(b, 0, base, depth, old(Cells()))
      decreases b, |b|
    {
      hide CompileStmt;
      var i := 0;
      while i < |b|
        invariant 0 <= i <= |b| && Valid() && base + |b| <= nstmt
        invariant CompileFrom(b, 0, base, depth, old(Cells())) == CompileFrom(b, i, base, depth, Cells())
      {
        ok := AddStmt(b[i], depth, base + i);
        if !ok {
          return;
        }
        i := i + 1;
      }
      ok := true;
    }

    method AddStmt(s: Src, depth: nat, slot: nat) returns (ok: bool)
      requires Valid() && slot < nstmt
      modifies this`nstmt, stmt
      ensures Valid()
      ensures ok <==> CompileStmt(s, depth, slot, old(Cells())).Some?
      ensures ok ==> Some(Cells()) == CompileStmt(s, depth, slot, old(Cells()))
      decreases s
    {
      hide CompileBlock;
      match s
      case Malformed =>
        ok := false;
      case Stop =>
        stmt[slot] := End;
        ok := true;
      case Act(a) =>
        stmt[slot] := Do(a);
        ok := true;
      case If(c, thn, els) =>
        if depth + 1 > MAX_IF_DEPTH {
          return false;
        }
        var tf, tc, ef, ec := 0, 0, 0, 0;
        ok, tf, tc := AddBlock(thn, depth + 1);
        if ok && els.Else? {
          ok, ef, ec := AddBlock(els.b, depth + 1);
        }
        if ok {
          stmt[slot] := Branch(c, tf, tc, ef, ec);
        }
    }

    /** Runs a block; true when it asked to stop or was cut off. */
    method Exec(first: nat, count: nat, depth: nat) returns (stop: bool)
      requires Valid()
      modifies this`state, this`budget
      ensures Valid() && Cells() == old(Cells())
      ensures var r := ExecBlock(host, Cells(), first, count, depth, old(state), old(budget));
              state == r.s && budget == r.budget && stop == r.stop
      decreases MAX_IF_DEPTH + 1 - depth, 1
    {
      hide ExecCell;
      if depth > MAX_IF_DEPTH {
        return true;
      }
      var i := 0;
      ghost var r := ExecFrom(host, Cells(), first, count, depth, 0, state, budget);
      while i < count
        invariant 0 <= i <= count && Valid() && Cells() == old(Cells())
        invariant var x := ExecFrom(host, Cells(), first, count, depth, i, state, budget);
                  x.s == r.s && x.budget == r.budget && x.stop == r.stop
      {
        if first + i >= nstmt {
          return true;
        }
        budget := budget - 1;
        if budget < 0 {
          return true;
        }
        stop := ExecOne(stmt[first + i], depth);
        if stop {
          return;
        }
        i := i + 1;
      }
      stop := false;
    }

    method ExecOne(cell: Cell, depth: nat) returns (stop: bool)
      requires Valid() && depth <= MAX_IF_DEPTH
      modifies this`state, this`budget
      ensures Valid() && Cells() == old(Cells())
      ensures var r := ExecCell(host, Cells(), cell, depth, old(state), old(budget));
              state == r.s && budget == r.budget && stop == r.stop
      decreases MAX_IF_DEPTH + 1 - depth, 0
    {
      hide ExecBlock;
      stop := false;
      match cell
      case Blank =>
      case End =>
        stop := true;
      case Do(a) =>
        state := host.act(a, state);
      case Branch(c, tf, tc, ef, ec) =>
        var t := host.test(c, state);
        state := t.1;
        if t.0 {
          stop := Exec(tf, tc, depth + 1);
        } else if ec != 0 {
          stop := Exec(ef, ec, depth + 1);
        }
    }
  }
}
