// What each scheduler operation does to the slots, and that over every run the
// slots in use are those created and not yet joined.

module FiberLaws {
  import opened Fiber

  // ---- creating and joining ------------------------------------------------------------------------

  predicate SomeFree(s: Sys) { exists i :: 0 < i < |s.f| && s.f[i].state == Free }

  predicate Creates(s: Sys, block: int, good: bool) { s.inited && block != 0 && good && SomeFree(s) }

  /** Nothing a fiber depends on differs but slot `i`. */
  predicate OnlySlot(s: Sys, r: Sys, i: int) {
    && |r.f| == |s.f| && r.current == s.current && r.pending == s.pending && r.inited == s.inited
    && forall j :: 0 <= j < |s.f| && j != i ==> r.f[j] == s.f[j]
  }

  lemma {:induction false} FreeFrom(f: seq<Slot>, i: nat)
    ensures var r := FirstFree(f, i);
            if r == -1 then forall j :: i <= j < |f| ==> f[j].state != Free
            else i <= r < |f| && f[r].state == Free && forall j :: i <= j < r ==> f[j].state != Free
    decreases |f| - i
  {
    if i < |f| && f[i].state != Free {
      FreeFrom(f, i + 1);
    }
  }

  /** A create takes the first free slot and makes it ready on its own new stack, or
      changes no slot's state and takes no block. */
  lemma CreateDoes(s: Sys, block: int, good: bool) returns (i: int)
    requires Inv(s) && block !in s.heap
    ensures var r := CreateS(s, block, good);
            if Creates(s, block, good) then
              && 0 < i < FIBER_MAX && s.f[i].state == Free && (forall j :: 0 < j < i ==> s.f[j].state != Free)
              && OnlySlot(s, r, i) && r.f[i].state == Ready && r.f[i].block == block && r.f[i].sp
              && r.f[i].cont == NeverRun && r.heap == s.heap + {block}
            else
              && (forall j :: 0 <= j < FIBER_MAX ==> r.f[j].state == s.f[j].state) && r.heap == s.heap
              && r.current == s.current && r.pending == s.pending && r.inited == s.inited
  {
    FreeFrom(s.f, 1);
    i := FirstFree(s.f, 1);
  }

  predicate Releases(s: Sys, j: int) {
    s.inited && 0 <= j < |s.f| && j != s.current && s.f[j].state == Dead
  }

  /** The end of a join frees a dead slot and nothing else; any other slot is
      refused, and so is the same one a second time. */
  lemma ReleaseDoes(s: Sys, j: int)
    requires Inv(s)
    ensures var r := ReleaseS(s, j);
            && (if Releases(s, j) then OnlySlot(s, r, j) && r.f[j].state == Free && r.f[j].block == 0
                  && r.heap == s.heap
                else r == s)
            && !Releases(r, j)
  {
    if Releases(s, j) {
      assert SlotOk(s.f, j);
    }
  }

  /** So a slot that was joined can be used again at once. */
  lemma JoinedReused(s: Sys, j: int, block: int)
    requires Inv(s) && Releases(s, j) && block != 0 && block !in s.heap
    ensures Creates(ReleaseS(s, j), block, true)
  {
    ReleaseDoes(s, j);
    assert j != 0;
    assert ReleaseS(s, j).f[j].state == Free;
  }

  // ---- switching -----------------------------------------------------------------------------------

  /** `n` is the first ready slot after `from`, going round. */
  predicate NextRound(f: seq<Slot>, from: int, n: int) {
    && |f| == FIBER_MAX && 0 <= from < FIBER_MAX && 0 <= n < FIBER_MAX && n != from && f[n].state == Ready
    && forall j :: 0 <= j < FIBER_MAX && 0 < Distance(from, j) < Distance(from, n) ==> f[j].state != Ready
  }

  lemma NextIs(f: seq<Slot>, from: int, j: int)
    requires |f| == FIBER_MAX && 0 <= from < FIBER_MAX && 0 <= j < FIBER_MAX && j != from && f[j].state == Ready
    ensures NextRound(f, from, NextReady(f, from))
  {
    NextCloser(f, from, j);
    var n := NextReady(f, from);
    forall i | 0 <= i < FIBER_MAX && 0 < Distance(from, i) < Distance(from, n)
      ensures f[i].state != Ready
    {
      if f[i].state == Ready {
        NextCloser(f, from, i);
        Nearer(from, n, i);
      }
    }
  }

  lemma Nearer(from: int, n: int, i: int)
    requires 0 <= from < FIBER_MAX && 0 <= n < FIBER_MAX && 0 <= i < FIBER_MAX
    requires 0 < Distance(from, i) < Distance(from, n)
    ensures n != i && Distance(n, i) >= Distance(from, i)
  {
  }

  /** A yield goes to the first other ready fiber after the one that yields, and
      changes nobody's state; alone, it goes on. */
  lemma YieldDoes(s: Sys)
    requires Inv(s) && s.inited
    ensures var r := YieldS(s);
            && (forall i :: 0 <= i < FIBER_MAX ==> r.f[i].state == s.f[i].state && r.f[i].block == s.f[i].block)
            && (if exists j :: 0 <= j < FIBER_MAX && j != s.current && s.f[j].state == Ready
                then NextRound(s.f, s.current, r.current) else r == s)
            && r.heap == s.heap - (if r.pending == 0 then Waiting(s) else {})
            && (r.pending == s.pending || r.pending == 0)
  {
    assert |s.f| == FIBER_MAX && 0 <= s.current < FIBER_MAX;
    hide Inv, Search, Arrive, NextRound;
    if j :| 0 <= j < FIBER_MAX && j != s.current && s.f[j].state == Ready {
      NextIs(s.f, s.current, j);
      NextInside(s.f, s.current, NextReady(s.f, s.current));
      ArriveDoes(s, s.f[s.current := s.f[s.current].(sp := true, cont := InSwitch)], NextReady(s.f, s.current));
    } else {
      var k := SearchFinds(s.f, s.current, 1, FIBER_MAX);
      OnlyMe(s.f, s.current, k);
      assert s.pending == 0 ==> s.heap - {} == s.heap;
    }
  }

  lemma NextInside(f: seq<Slot>, from: int, n: int)
    requires NextRound(f, from, n)
    ensures 0 <= n < FIBER_MAX && n != from
  {
  }

  lemma ArriveDoes(s: Sys, f: seq<Slot>, nxt: int)
    requires 0 <= nxt < |f|
    ensures var r := Arrive(s.(f := f), nxt);
            && r.f == f && r.current == nxt && (r.pending == s.pending || r.pending == 0)
            && r.heap == s.heap - (if r.pending == 0 then Waiting(s) else {})
  {
    assert s.heap - {} == s.heap;
  }

  lemma OnlyMe(f: seq<Slot>, from: int, k: nat)
    requires |f| == FIBER_MAX && 0 <= from < FIBER_MAX && 1 <= k <= FIBER_MAX
    requires (forall j :: 0 <= j < FIBER_MAX && j != from ==> f[j].state != Ready)
    requires f[(from + k) % FIBER_MAX].state == Ready
    ensures (from + k) % FIBER_MAX == from
  {
    assert 0 <= (from + k) % FIBER_MAX < FIBER_MAX;
  }

  /** An exit leaves its slot dead and without a stack and everyone else as they were;
      its block waits for whoever runs next, or is already back. */
  lemma ExitDoes(s: Sys)
    requires Inv(s) && s.inited && s.current > 0
    ensures var r, b := ExitS(s), s.f[s.current].block;
            && r.f[s.current].state == Dead && r.f[s.current].block == 0
            && (forall i :: 0 <= i < FIBER_MAX && i != s.current ==> r.f[i] == s.f[i])
            && 0 <= r.current < FIBER_MAX && r.current != s.current && s.f[r.current].state == Ready
            && (r.pending == b || (r.pending == 0 && b !in r.heap))
            && (s.pending != 0 ==> s.pending !in r.heap)
  {
    ExitReady(s);
    var g := Leaving(s).f;
    var nxt := NextReady(g, s.current);
    RootReachable(g, s.current);
    assert g[nxt].state == Ready;
  }

  // ---- over every run --------------------------------------------------------------------------------

  /** The slots in use besides the root's. */
  function InUse(s: Sys): set<int> { set i | 0 < i < |s.f| && s.f[i].state != Free }

  /** What one operation does to the list of fibers created and not yet joined. */
  ghost function Listed(s: Sys, op: Op, l: set<int>): set<int>
    requires Inv(s) && (op.Create? ==> op.block !in s.heap)
  {
    match op
    case Create(block, good) =>
      if Creates(s, block, good) then l + {Lowest(s)} else l
    case Release(j) => if Releases(s, j) then l - {j} else l
    case Reset => if s.inited && s.current != 0 then l else {}
    case _ => l
  }

  /** The lowest free slot. */
  ghost function Lowest(s: Sys): (i: int)
    requires Inv(s) && SomeFree(s)
    ensures 0 < i < |s.f| && s.f[i].state == Free && forall j :: 0 < j < i ==> s.f[j].state != Free
  {
    FreeFrom(s.f, 1);
    FirstFree(s.f, 1)
  }

  lemma StepListed(s: Sys, op: Op)
    requires Inv(s) && (op.Create? ==> op.block !in s.heap)
    ensures InUse(Do(s, op)) == Listed(s, op, InUse(s))
  {
    hide Conserved, Resumable;
    var r := Do(s, op);
    match op
    case Create(block, good) =>
      var i := CreateDoes(s, block, good);
      if Creates(s, block, good) {
        assert i == Lowest(s);
      }
    case Release(j) => ReleaseDoes(s, j);
    case Yield =>
      if s.inited {
        YieldDoes(s);
      }
    case Exit =>
      if s.inited && s.current > 0 {
        ExitDoes(s);
      }
    case Init(root) =>
    case Reset =>
  }

  ghost function ListedRun(s: Sys, ops: seq<Op>, l: set<int>): set<int>
    requires Inv(s) && Possible(s, ops)
    decreases |ops|
  {
    if ops == [] then l else
    StepKeeps(s, ops[0]);
    ListedRun(Do(s, ops[0]), ops[1..], Listed(s, ops[0], l))
  }

  /** Over every run the slots in use are exactly those of fibers created and not yet
      joined. */
  lemma {:induction false} RunListed(s: Sys, ops: seq<Op>)
    requires Inv(s) && Possible(s, ops)
    ensures InUse(Run(s, ops)) == ListedRun(s, ops, InUse(s))
    decreases |ops|
  {
    hide Inv, Do, Listed;
    if ops != [] {
      StepKeeps(s, ops[0]);
      StepListed(s, ops[0]);
      RunListed(Do(s, ops[0]), ops[1..]);
    }
  }
}
