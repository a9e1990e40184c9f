// The cooperative scheduler: eight slots, one running fiber, and at most one
// stack block waiting to be freed by whoever runs next.

module Fiber {
  const FIBER_MAX := 8

  datatype Status = Free | Ready | Dead

  /** Where a fiber that is not running will come back to: the start of its
      function, the far side of switch_to (which reaps), or the switch inside
      fiber_exit, which must never be returned to. */
  datatype Cont = NeverRun | InSwitch | Ended

  /** `block` is the stack's address, 0 for none; `sp` says a saved stack pointer
      exists. */
  datatype Slot = Slot(state: Status, block: int, owns: bool, sp: bool, cont: Cont)

  const EMPTY := Slot(Free, 0, false, false, NeverRun)

  /** `heap` is the set of stack blocks taken from the heap and not given back. */
  datatype Sys = Sys(f: seq<Slot>, current: int, pending: int, inited: bool, heap: set<int>)

  datatype Panic = None | NoScheduler | RootExits | NothingLeft | NoStack | DeadResumed | NotRoot

  // ---- what always holds ---------------------------------------------------------

  /** The slot's stack came from the heap and is still its own. A refused create
      leaves `owns` set on an empty slot, so both fields count. */
  predicate Holds(x: Slot) { x.owns && x.block != 0 }

  /** Blocks some slot owns. */
  function Owned(f: seq<Slot>): set<int> {
    set i | 0 <= i < |f| && Holds(f[i]) :: f[i].block
  }

  function Waiting(s: Sys): set<int> { if s.pending == 0 then {} else {s.pending} }

  /** A created fiber that can run owns a stack; nothing else has one. */
  predicate SlotOk(f: seq<Slot>, i: int)
    requires 0 <= i < |f|
  {
    && (Holds(f[i]) <==> i > 0 && f[i].state == Ready)
    && (i > 0 && f[i].block != 0 ==> f[i].owns)
    && (i == 0 ==> !f[i].owns)
  }

  predicate Distinct(f: seq<Slot>) {
    forall i, j :: 0 <= i < j < |f| && Holds(f[i]) && Holds(f[j]) ==> f[i].block != f[j].block
  }

  /** Blocks are conserved: what was taken and not given back is what slots own
      plus the one that waits, all different. */
  predicate Conserved(s: Sys) {
    && (forall i :: 0 <= i < |s.f| ==> SlotOk(s.f, i)) && Distinct(s.f)
    && s.heap == Owned(s.f) + Waiting(s) && Waiting(s) !! Owned(s.f)
  }

  /** Every ready fiber but the running one can be switched to. */
  predicate Resumable(s: Sys) {
    forall i :: 0 <= i < |s.f| && s.f[i].state == Ready && i != s.current ==> s.f[i].sp && s.f[i].cont != Ended
  }

  predicate Inv(s: Sys) {
    && |s.f| == FIBER_MAX && Conserved(s)
    && (s.inited ==>
          0 <= s.current < FIBER_MAX && s.f[0].state == Ready && s.f[s.current].state == Ready && Resumable(s))
    && (!s.inited ==> s.current == -1 && s.pending == 0 && forall i :: 0 <= i < FIBER_MAX ==> s.f[i].state == Free)
  }

  // ---- the operations, as functions of the state -----------------------------------

  /** The first ready slot among from+i, from+i+1, ..., from+FIBER_MAX; -1 if none. */
  function Search(f: seq<Slot>, from: int, i: nat): (r: int)
    requires |f| == FIBER_MAX && 0 <= from && i <= FIBER_MAX + 1
    ensures r == -1 || (0 <= r < FIBER_MAX && f[r].state == Ready)
    decreases FIBER_MAX + 1 - i
  {
    if i > FIBER_MAX then -1
    else if f[(from + i) % FIBER_MAX].state == Ready then (from + i) % FIBER_MAX
    else Search(f, from, i + 1)
  }

  function NextReady(f: seq<Slot>, from: int): int
    requires |f| == FIBER_MAX && 0 <= from
  {
    Search(f, from, 1)
  }

  function Freed(s: Sys): Sys { s.(heap := s.heap - Waiting(s), pending := 0) }

  /** Control arrives at `nxt`: a fiber resumed inside switch_to reaps. */
  function Arrive(s: Sys, nxt: int): Sys
    requires 0 <= nxt < |s.f|
  {
    if s.f[nxt].cont == InSwitch then Freed(s.(current := nxt)) else s.(current := nxt)
  }

  function YieldS(s: Sys): Sys {
    if !s.inited || |s.f| != FIBER_MAX || !(0 <= s.current < FIBER_MAX) then s else
    var nxt := NextReady(s.f, s.current);
    if nxt == -1 || nxt == s.current then s
    else Arrive(s.(f := s.f[s.current := s.f[s.current].(sp := true, cont := InSwitch)]), nxt)
  }

  /** The state fiber_exit leaves for the next fiber, just before the switch. */
  function Leaving(s: Sys): Sys
    requires 0 <= s.current < |s.f|
  {
    var block := s.f[s.current].block;
    Sys(s.f[s.current := Slot(Dead, 0, false, true, Ended)], s.current, block, true, s.heap - (Waiting(s) - {block}))
  }

  /** fiber_exit: drain an older block, hand over this one, leave. */
  function ExitS(s: Sys): Sys {
    if !s.inited || |s.f| != FIBER_MAX || !(0 < s.current < FIBER_MAX) then s else
    var u := Leaving(s);
    var nxt := NextReady(u.f, s.current);
    if nxt == -1 then s.(f := s.f[s.current := s.f[s.current].(state := Dead)]) else Arrive(u, nxt)
  }

  function FirstFree(f: seq<Slot>, i: nat): (r: int)
    ensures r == -1 || (i <= r < |f| && f[r].state == Free)
    decreases |f| - i
  {
    if i >= |f| then -1 else if f[i].state == Free then i else FirstFree(f, i + 1)
  }

  /** `block` is what the heap returned, 0 for nothing; `good` says the arch
      backend built a context inside it. */
  function CreateS(s: Sys, block: int, good: bool): Sys {
    if !s.inited || |s.f| != FIBER_MAX then s else
    var i := FirstFree(s.f, 1);
    if i == -1 || block == 0 then s
    else if !good then s.(f := s.f[i := s.f[i].(block := 0, owns := true, sp := false)])
    else s.(f := s.f[i := Slot(Ready, block, true, true, NeverRun)], heap := s.heap + {block})
  }

  /** The end of fiber_join, once slot `j` is dead. */
  function ReleaseS(s: Sys, j: int): Sys {
    if !s.inited || !(0 <= j < |s.f|) || j == s.current || s.f[j].state != Dead then s
    else s.(f := s.f[j := s.f[j].(state := Free, block := 0, owns := false, sp := false)],
            heap := if s.f[j].owns then s.heap - {s.f[j].block} else s.heap)
  }

  function InitS(s: Sys, root: int): Sys {
    if s.inited || |s.f| != FIBER_MAX then s
    else s.(f := s.f[0 := Slot(Ready, root, false, false, NeverRun)], current := 0, pending := 0, inited := true)
  }

  function ResetS(s: Sys): Sys {
    if s.inited && s.current != 0 then s
    else Sys(seq(|s.f|, i => EMPTY), -1, 0, false, s.heap - Waiting(s) - Owned(s.f))
  }

  // ---- every operation keeps it ------------------------------------------------------

  lemma OwnedAt(f: seq<Slot>, i: nat)
    requires i < |f| && Holds(f[i])
    ensures f[i].block in Owned(f)
  {
  }

  /** Changing one slot changes what is owned by that slot's block. */
  lemma OwnedUpdate(f: seq<Slot>, i: nat, x: Slot)
    requires i < |f| && Distinct(f)
    ensures Owned(f[i := x])
            == Owned(f) - (if Holds(f[i]) then {f[i].block} else {}) + (if Holds(x) then {x.block} else {})
            || (Holds(x) && x.block in Owned(f))
  {
    var g := f[i := x];
    var r := Owned(f) - (if Holds(f[i]) then {f[i].block} else {}) + (if Holds(x) then {x.block} else {});
    forall b | b in Owned(g)
      ensures b in r
    {
      var j :| 0 <= j < |g| && Holds(g[j]) && g[j].block == b;
    }
    forall b | b in r
      ensures b in Owned(g)
    {
      if Holds(x) && b == x.block {
        OwnedAt(g, i);
      } else {
        var j :| 0 <= j < |f| && Holds(f[j]) && f[j].block == b;
        assert j != i;
        OwnedAt(g, j);
      }
    }
  }

  lemma ArriveKeeps(s: Sys, nxt: int)
    requires |s.f| == FIBER_MAX && Conserved(s) && s.inited && s.f[0].state == Ready
    requires 0 <= nxt < FIBER_MAX && s.f[nxt].state == Ready
    requires forall i :: 0 <= i < |s.f| && s.f[i].state == Ready && i != nxt ==> s.f[i].sp && s.f[i].cont != Ended
    ensures Inv(Arrive(s, nxt))
  {
    var t := Arrive(s, nxt);
    assert t.f == s.f;
    assert s.heap - Waiting(s) == Owned(s.f);
  }

  lemma YieldKeeps(s: Sys)
    requires Inv(s)
    ensures Inv(YieldS(s))
  {
    if s.inited {
      var nxt := NextReady(s.f, s.current);
      if nxt != -1 && nxt != s.current {
        var x := s.f[s.current].(sp := true, cont := InSwitch);
        var g := s.f[s.current := x];
        SameHolds(s.f, g);
        ArriveKeeps(s.(f := g), nxt);
      }
    }
  }

  lemma SameHolds(f: seq<Slot>, g: seq<Slot>)
    requires |f| == |g| && forall i :: 0 <= i < |f| ==>
               g[i].block == f[i].block && g[i].owns == f[i].owns && g[i].state == f[i].state
    ensures Owned(g) == Owned(f) && (Distinct(f) ==> Distinct(g))
    ensures forall i :: 0 <= i < |f| && SlotOk(f, i) ==> SlotOk(g, i)
  {
    forall b | b in Owned(f)
      ensures b in Owned(g)
    {
      var j :| 0 <= j < |f| && Holds(f[j]) && f[j].block == b;
      OwnedAt(g, j);
    }
    forall b | b in Owned(g)
      ensures b in Owned(f)
    {
      var j :| 0 <= j < |g| && Holds(g[j]) && g[j].block == b;
      OwnedAt(f, j);
    }
  }

  /** The search takes the first ready slot, so none further than a known one. */
  lemma {:induction false} SearchFinds(f: seq<Slot>, from: int, i: nat, j: nat) returns (k: nat)
    requires |f| == FIBER_MAX && 0 <= from && i <= j <= FIBER_MAX && f[(from + j) % FIBER_MAX].state == Ready
    ensures i <= k <= j && Search(f, from, i) == (from + k) % FIBER_MAX
    decreases j - i
  {
    if f[(from + i) % FIBER_MAX].state == Ready {
      k := i;
    } else {
      k := SearchFinds(f, from, i + 1, j);
    }
  }

  /** The root is always ready, so a fiber that exits always has a successor. */
  lemma RootReachable(f: seq<Slot>, from: int)
    requires |f| == FIBER_MAX && 0 <= from < FIBER_MAX && f[0].state == Ready
    ensures NextReady(f, from) != -1
  {
    var k := SearchFinds(f, from, 1, FIBER_MAX - from);
  }

  lemma ExitReady(s: Sys)
    requires Inv(s) && s.inited && s.current > 0
    ensures var u := Leaving(s);
            var nxt := NextReady(u.f, s.current);
            && |u.f| == FIBER_MAX && Conserved(u) && 0 <= nxt < FIBER_MAX && u.f[nxt].sp && u.f[nxt].cont != Ended
            && Inv(Arrive(u, nxt))
    ensures Holds(s.f[s.current]) && s.f[s.current].block in s.heap && s.f[s.current].block != s.pending
  {
    var x := Slot(Dead, 0, false, true, Ended);
    var g := s.f[s.current := x];
    assert SlotOk(s.f, s.current);
    RootReachable(g, s.current);
    OwnedAt(s.f, s.current);
    OwnedUpdate(s.f, s.current, x);
    forall i | 0 <= i < |g|
      ensures SlotOk(g, i)
    {
      assert SlotOk(s.f, i);
    }
    NotInRest(s.f, s.current);
    ArriveKeeps(Leaving(s), NextReady(g, s.current));
  }

  lemma ExitKeeps(s: Sys)
    requires Inv(s)
    ensures Inv(ExitS(s))
  {
    if s.inited && s.current > 0 {
      ExitReady(s);
    }
  }

  lemma NotInRest(f: seq<Slot>, i: nat)
    requires i < |f| && Holds(f[i]) && Distinct(f)
    ensures f[i].block !in Owned(f[i := Slot(Dead, 0, false, true, Ended)])
  {
  }

  lemma CreateKeeps(s: Sys, block: int, good: bool)
    requires Inv(s) && block !in s.heap
    ensures Inv(CreateS(s, block, good))
  {
    if s.inited {
      var i := FirstFree(s.f, 1);
      if i != -1 && block != 0 {
        var x := if good then Slot(Ready, block, true, true, NeverRun) else s.f[i].(block := 0, owns := true,
          sp := false);
        var g := s.f[i := x];
        assert SlotOk(s.f, i);
        OwnedUpdate(s.f, i, x);
        forall j | 0 <= j < |g|
          ensures SlotOk(g, j)
        {
          assert SlotOk(s.f, j);
        }
        forall j, k | 0 <= j < k < |g| && Holds(g[j]) && Holds(g[k])
          ensures g[j].block != g[k].block
        {
          if j != i {
            OwnedAt(s.f, j);
          }
          if k != i {
            OwnedAt(s.f, k);
          }
        }
      }
    }
  }

  lemma ReleaseKeeps(s: Sys, j: int)
    requires Inv(s)
    ensures Inv(ReleaseS(s, j))
  {
    if s.inited && 0 <= j < |s.f| && j != s.current && s.f[j].state == Dead {
      var x := s.f[j].(state := Free, block := 0, owns := false, sp := false);
      var g := s.f[j := x];
      assert SlotOk(s.f, j);
      OwnedUpdate(s.f, j, x);
      forall i | 0 <= i < |g|
        ensures SlotOk(g, i)
      {
        assert SlotOk(s.f, i);
      }
    }
  }

  lemma InitKeeps(s: Sys, root: int)
    requires Inv(s)
    ensures Inv(InitS(s, root))
  {
    if !s.inited {
      var x := Slot(Ready, root, false, false, NeverRun);
      var g := s.f[0 := x];
      assert SlotOk(s.f, 0);
      OwnedUpdate(s.f, 0, x);
      forall i | 0 <= i < |g|
        ensures SlotOk(g, i)
      {
        assert SlotOk(s.f, i);
      }
    }
  }

  lemma ResetKeeps(s: Sys)
    requires Inv(s)
    ensures Inv(ResetS(s))
    ensures !s.inited || s.current == 0 ==> ResetS(s).heap == {}
  {
    if !s.inited || s.current == 0 {
      var t := ResetS(s);
      assert Owned(t.f) == {};
    }
  }

  // ---- whole runs ----------------------------------------------------------------------

  datatype Op =
    | Yield
    | Exit
    | Create(block: int, good: bool)
    | Release(j: int)
    | Init(root: int)
    | Reset

  function Do(s: Sys, op: Op): Sys {
    match op
    case Yield => YieldS(s)
    case Exit => ExitS(s)
    case Create(b, good) => CreateS(s, b, good)
    case Release(j) => ReleaseS(s, j)
    case Init(r) => InitS(s, r)
    case Reset => ResetS(s)
  }

  /** The heap never hands out a block that is still taken. */
  predicate Possible(s: Sys, ops: seq<Op>)
    decreases |ops|
  {
    ops == [] ||
    ((ops[0].Create? ==> ops[0].block !in s.heap) && Possible(Do(s, ops[0]), ops[1..]))
  }

  function Run(s: Sys, ops: seq<Op>): Sys
    decreases |ops|
  {
    if ops == [] then s else Run(Do(s, ops[0]), ops[1..])
  }

  lemma StepKeeps(s: Sys, op: Op)
    requires Inv(s) && (op.Create? ==> op.block !in s.heap)
    ensures Inv(Do(s, op))
  {
    hide Inv;
    match op
    case Yield => YieldKeeps(s);
    case Exit => ExitKeeps(s);
    case Create(b, good) => CreateKeeps(s, b, good);
    case Release(j) => ReleaseKeeps(s, j);
    case Init(r) => InitKeeps(s, r);
    case Reset => ResetKeeps(s);
  }

  /** Over every run no stack block is lost and none is in two places. */
  lemma {:induction false} RunKeeps(s: Sys, ops: seq<Op>)
    requires Inv(s) && Possible(s, ops)
    ensures Inv(Run(s, ops))
    decreases |ops|
  {
    hide Inv, Do;
    if ops != [] {
      StepKeeps(s, ops[0]);
      RunKeeps(Do(s, ops[0]), ops[1..]);
    }
  }

  // ---- fairness ------------------------------------------------------------------------

  /** How many slots round from `from` slot `j` lies. */
  function Distance(from: int, j: int): nat
    requires 0 <= from < FIBER_MAX && 0 <= j < FIBER_MAX
  {
    if j >= from then j - from else j - from + FIBER_MAX
  }

  /** Slot `j` is ready and someone else is running. */
  predicate Waits(s: Sys, j: int) {
    Inv(s) && s.inited && 0 <= j < FIBER_MAX && s.f[j].state == Ready && s.current != j
  }

  lemma Wrap(from: int, k: nat)
    requires 0 <= from < FIBER_MAX && k < FIBER_MAX
    ensures (from + k) % FIBER_MAX == if from + k < FIBER_MAX then from + k else from + k - FIBER_MAX
  {
  }

  lemma NextCloser(f: seq<Slot>, from: int, j: int)
    requires |f| == FIBER_MAX && 0 <= from < FIBER_MAX && 0 <= j < FIBER_MAX && from != j && f[j].state == Ready
    ensures var n := NextReady(f, from);
            0 <= n < FIBER_MAX && n != from && (n == j || Distance(n, j) < Distance(from, j))
  {
    var d := Distance(from, j);
    Wrap(from, d);
    var k := SearchFinds(f, from, 1, d);
    Wrap(from, k);
  }

  /** A yield or an exit is a switch, and brings the turn strictly nearer to j. */
  lemma SwitchCloser(s: Sys, op: Op, j: int)
    requires Waits(s, j) && (op.Yield? || (op.Exit? && s.current > 0))
    ensures var t := Do(s, op);
            t.inited && 0 <= t.current < FIBER_MAX && t.current != s.current
            && (t.current == j || Distance(t.current, j) < Distance(s.current, j))
  {
    hide Conserved, Resumable;
    if op.Yield? {
      NextCloser(s.f, s.current, j);
    } else {
      NextCloser(s.f[s.current := Slot(Dead, 0, false, true, Ended)], s.current, j);
    }
  }

  /** Slot `j` stays ready and is not given the processor in the whole run. */
  predicate Starves(s: Sys, ops: seq<Op>, j: int)
    decreases |ops|
  {
    Waits(s, j) && (ops != [] ==> Starves(Do(s, ops[0]), ops[1..], j))
  }

  /** How often control moved to another fiber. */
  function Switches(s: Sys, ops: seq<Op>): nat
    decreases |ops|
  {
    if ops == [] then 0
    else (if Do(s, ops[0]).current != s.current then 1 else 0) + Switches(Do(s, ops[0]), ops[1..])
  }

  lemma QuietStep(s: Sys, op: Op)
    requires s.inited && !op.Yield? && !op.Exit? && Do(s, op).inited
    ensures Do(s, op).current == s.current
  {
  }

  lemma RootExitStays(s: Sys)
    requires s.current <= 0
    ensures ExitS(s) == s
  {
  }

  lemma {:induction false} StarvedSwitches(s: Sys, ops: seq<Op>, j: int)
    requires Starves(s, ops, j)
    ensures 0 <= Run(s, ops).current < FIBER_MAX
    ensures Switches(s, ops) + Distance(Run(s, ops).current, j) <= Distance(s.current, j)
    ensures 0 < Distance(Run(s, ops).current, j)
    decreases |ops|
  {
    hide Inv, Do;
    WaitsFacts(s, j);
    if ops != [] {
      var op, t := ops[0], Do(s, ops[0]);
      WaitsFacts(t, j);
      StarvedSwitches(t, ops[1..], j);
      if op.Yield? || (op.Exit? && s.current > 0) {
        SwitchCloser(s, op, j);
      } else if op.Exit? {
        ExitIs(s);
        RootExitStays(s);
      } else {
        QuietStep(s, op);
      }
    }
  }

  lemma ExitIs(s: Sys)
    ensures Do(s, Exit) == ExitS(s)
  {
  }

  lemma WaitsFacts(s: Sys, j: int)
    requires Waits(s, j)
    ensures 0 <= s.current < FIBER_MAX && 0 <= j < FIBER_MAX && s.inited && 0 < Distance(s.current, j) <= FIBER_MAX - 1
  {
  }

  /** Short of a reset, a slot that waits goes on waiting until it is its turn. */
  lemma StaysReady(s: Sys, op: Op, j: int)
    requires Waits(s, j) && !op.Reset? && (op.Create? ==> op.block !in s.heap)
    ensures var t := Do(s, op); t.inited && 0 <= t.current < FIBER_MAX && (t.current == j || Waits(t, j))
  {
    hide Conserved, Resumable;
    StepKeeps(s, op);
    var t := Do(s, op);
    assert |t.f| == FIBER_MAX;
    if op.Exit? && s.current > 0 {
      NextCloser(Leaving(s).f, s.current, j);
    }
    assert t.f[j].state == Ready;
  }

  lemma {:induction false} FairFrom(s: Sys, ops: seq<Op>, j: int) returns (k: nat)
    requires Waits(s, j) && Possible(s, ops) && Reset !in ops
    requires 0 <= s.current < FIBER_MAX && Switches(s, ops) >= Distance(s.current, j)
    ensures k <= |ops| && Run(s, ops[..k]).current == j && Switches(s, ops[..k]) <= Distance(s.current, j)
    decreases |ops|
  {
    hide Inv, Do;
    WaitsFacts(s, j);
    assert ops != [];
    var op, t := ops[0], Do(s, ops[0]);
    StaysReady(s, op, j);
    if op.Yield? || (op.Exit? && s.current > 0) {
      SwitchCloser(s, op, j);
    } else if op.Exit? {
      ExitIs(s);
      RootExitStays(s);
    } else {
      QuietStep(s, op);
    }
    if t.current == j {
      k := 0;
    } else {
      assert Reset !in ops[1..] by {
        forall i | 0 <= i < |ops[1..]|
          ensures ops[1..][i] != Reset
        {
          assert ops[1..][i] == ops[i + 1];
        }
      }
      k := FairFrom(t, ops[1..], j);
    }
    assert ops[..k + 1][1..] == ops[1..][..k] && ops[..k + 1][0] == op;
    assert k == 0 ==> ops[1..][..k] == [];
    k := k + 1;
  }

  /** A slot that is ready gets the processor within FIBER_MAX - 1 switches, whatever
      is created, exits or is joined in between. */
  lemma FairWithin(s: Sys, ops: seq<Op>, j: int) returns (k: nat)
    requires Waits(s, j) && Possible(s, ops) && Reset !in ops && Switches(s, ops) >= FIBER_MAX - 1
    ensures k <= |ops| && Run(s, ops[..k]).current == j && Switches(s, ops[..k]) <= FIBER_MAX - 1
  {
    WaitsFacts(s, j);
    k := FairFrom(s, ops, j);
  }

  // ---- the scheduler itself --------------------------------------------------------------

  class Scheduler {
    const fibers: array<Slot>
    var current: int
    var pending: int
    var inited: bool
    var heap: set<int>

    ghost function Abs(): Sys
      reads this, fibers
    {
      Sys(fibers[..], current, pending, inited, heap)
    }

    ghost predicate Valid()
      reads this, fibers
    {
      fibers.Length == FIBER_MAX && Inv(Abs())
    }

    constructor ()
      ensures Valid() && !inited && heap == {} && fresh(fibers)
    {
      fibers := new Slot[FIBER_MAX](i => EMPTY);
      current, pending, inited, heap := -1, 0, false, {};
      new;
      assert fibers[..] == seq(FIBER_MAX, i => EMPTY);
      assert Owned(fibers[..]) == {};
    }

    /** Give a block back. It must be one that is taken, and not the stack the
        processor is standing on. */
    method Kfree(b: int)
      requires b in heap
      requires 0 <= current < fibers.Length && Holds(fibers[current]) ==> fibers[current].block != b
      modifies this`heap
      ensures heap == old(heap) - {b}
    {
      heap := heap - {b};
    }

    method NextRunnable(from: int) returns (r: int)
      requires fibers.Length == FIBER_MAX && 0 <= from
      ensures r == NextReady(fibers[..], from)
    {
      var i := 1;
      while i <= FIBER_MAX
        invariant 1 <= i <= FIBER_MAX + 1
        invariant Search(fibers[..], from, i) == NextReady(fibers[..], from)
      {
        if fibers[(from + i) % FIBER_MAX].state == Ready {
          return (from + i) % FIBER_MAX;
        }
        i := i + 1;
      }
      r := -1;
    }

    /** The far side of a switch: control is now on `nxt`'s stack. */
    method Resumed(nxt: int) returns (p: Panic)
      requires fibers.Length == FIBER_MAX && 0 <= nxt < FIBER_MAX && Conserved(Abs())
      modifies this
      ensures p == if fibers[nxt].cont == Ended then DeadResumed else None
      ensures Abs() == Arrive(old(Abs()), nxt)
    {
      current := nxt;
      p := None;
      if fibers[nxt].cont == InSwitch && pending != 0 {
        if Holds(fibers[nxt]) {
          OwnedAt(fibers[..], nxt);
        }
        Kfree(pending);
        pending := 0;
      } else if fibers[nxt].cont == Ended {
        p := DeadResumed;
      }
    }

    method YieldNow() returns (p: Panic)
      requires Valid()
      modifies this, fibers
      ensures Valid() && p == None && Abs() == YieldS(old(Abs()))
    {
      YieldKeeps(Abs());
      p := None;
      if !inited {
        return;
      }
      var me := current;
      var nxt := NextRunnable(me);
      if nxt == -1 || nxt == me {
        return;
      }
      if !fibers[nxt].sp {
        p := NoStack;
        return;
      }
      ghost var f := fibers[..];
      fibers[me] := fibers[me].(sp := true, cont := InSwitch);
      SameHolds(f, fibers[..]);
      p := Resumed(nxt);
    }

    /** Only a misuse panics: no scheduler, or the root leaving. */
    method ExitNow() returns (p: Panic)
      requires Valid()
      modifies this, fibers
      ensures Valid() && Abs() == ExitS(old(Abs()))
      ensures p == if !old(inited) then NoScheduler else if old(current) == 0 then RootExits else None
    {
      hide Inv, Conserved, Search;
      ghost var s := Abs();
      ExitKeeps(s);
      if !inited {
        return NoScheduler;
      }
      if current == 0 {
        return RootExits;
      }
      InvRange(s);
      ExitReady(s);
      var me, block := current, fibers[current].block;
      fibers[me] := fibers[me].(state := Dead);
      SameSearch(fibers[..], Leaving(s).f, me, 1);
      var nxt := NextRunnable(me);
      if nxt == -1 {
        return NothingLeft;
      }
      if pending != 0 && pending != block {
        WaitingTaken(s);
        Kfree(pending);
        pending := 0;
      }
      pending := block;
      fibers[me] := Slot(Dead, 0, false, true, Ended);
      assert Abs() == Leaving(s);
      if !fibers[nxt].sp {
        return NoStack;
      }
      p := Resumed(nxt);
    }

    /** `block` is what the heap gave, 0 for nothing. */
    method CreateNow(block: int, good: bool) returns (slot: int)
      requires Valid() && block !in heap
      modifies this, fibers
      ensures Valid() && Abs() == CreateS(old(Abs()), block, good)
      ensures slot > 0 <==> old(inited) && block != 0 && good && FirstFree(old(fibers[..]), 1) != -1
      ensures slot > 0 ==> slot < FIBER_MAX && old(fibers[..])[slot].state == Free && fibers[slot].state == Ready
    {
      hide Inv, Conserved;
      ghost var s := Abs();
      CreateKeeps(s, block, good);
      slot := -1;
      if !inited {
        return;
      }
      var i := 1;
      while i < FIBER_MAX && fibers[i].state != Free
        invariant 1 <= i <= FIBER_MAX
        invariant FirstFree(fibers[..], i) == FirstFree(fibers[..], 1)
      {
        i := i + 1;
      }
      if i == FIBER_MAX || block == 0 {
        return;
      }
      NewBlock(s, block);
      heap := heap + {block};
      fibers[i] := fibers[i].(block := block, owns := true, sp := good);
      if !good {
        FirstFreeOther(s, i);
        Kfree(block);
        fibers[i] := fibers[i].(block := 0, sp := false);
        assert heap == s.heap;
        assert Abs() == CreateS(s, block, good);
        return;
      }
      fibers[i] := fibers[i].(state := Ready, cont := NeverRun);
      slot := i;
      assert Abs() == CreateS(s, block, good);
    }

    /** The end of a join: a dead fiber's slot is given back. */
    method ReleaseNow(j: int) returns (ok: bool)
      requires Valid()
      modifies this, fibers
      ensures Valid() && Abs() == ReleaseS(old(Abs()), j)
      ensures ok <==> old(inited) && 0 <= j < FIBER_MAX && j != old(current) && old(fibers[..])[j].state == Dead
      ensures ok ==> fibers[j].state == Free && fibers[j].block == 0
      ensures forall i :: 0 <= i < FIBER_MAX && (i != j || !ok) ==> fibers[i] == old(fibers[i])
      ensures current == old(current) && pending == old(pending) && inited == old(inited) && heap == old(heap)
    {
      ReleaseKeeps(Abs(), j);
      if !inited || !(0 <= j < FIBER_MAX) || j == current || fibers[j].state != Dead {
        return false;
      }
      assert SlotOk(fibers[..], j);
      fibers[j] := fibers[j].(state := Free, block := 0, owns := false, sp := false);
      return true;
    }

    /** Only the root may tear the system down; every block goes back. */
    method ResetNow() returns (p: Panic)
      requires Valid()
      modifies this, fibers
      ensures Valid() && Abs() == ResetS(old(Abs()))
      ensures p == if old(inited) && old(current) != 0 then NotRoot else None
      ensures p == None ==> heap == {}
    {
      ghost var s := Abs();
      ResetKeeps(s);
      if inited && current != 0 {
        return NotRoot;
      }
      assert SlotOk(s.f, 0);
      if pending != 0 {
        Kfree(pending);
      }
      pending := 0;
      var i := 0;
      while i < FIBER_MAX
        invariant 0 <= i <= FIBER_MAX && fibers.Length == FIBER_MAX && current == s.current && pending == 0
        invariant inited == s.inited
        invariant forall k :: 0 <= k < i ==> fibers[k] == EMPTY
        invariant forall k :: i <= k < FIBER_MAX ==> fibers[k] == s.f[k]
        invariant heap == OwnedFrom(s.f, i)
      {
        FromNext(s.f, i);
        if fibers[i].block != 0 && fibers[i].owns {
          Kfree(fibers[i].block);
        }
        fibers[i] := EMPTY;
        i := i + 1;
      }
      current, inited := -1, false;
      assert fibers[..] == seq(FIBER_MAX, k => EMPTY);
      return None;
    }

    method InitNow(root: int)
      requires Valid()
      modifies this, fibers
      ensures Valid() && Abs() == InitS(old(Abs()), root)
    {
      InitKeeps(Abs(), root);
      if !inited {
        fibers[0] := Slot(Ready, root, false, false, NeverRun);
        current, pending, inited := 0, 0, true;
      }
    }
  }

  function OwnedFrom(f: seq<Slot>, i: int): set<int>
    requires 0 <= i
  {
    set k | i <= k < |f| && Holds(f[k]) :: f[k].block
  }

  lemma FromNext(f: seq<Slot>, i: int)
    requires 0 <= i < |f| && Distinct(f)
    ensures OwnedFrom(f, i + 1) == OwnedFrom(f, i) - (if Holds(f[i]) then {f[i].block} else {})
  {
    forall b | b in OwnedFrom(f, i + 1)
      ensures b in OwnedFrom(f, i) && (Holds(f[i]) ==> b != f[i].block)
    {
      var k :| i + 1 <= k < |f| && Holds(f[k]) && f[k].block == b;
    }
    forall b | b in OwnedFrom(f, i) && (Holds(f[i]) ==> b != f[i].block)
      ensures b in OwnedFrom(f, i + 1)
    {
      var k :| i <= k < |f| && Holds(f[k]) && f[k].block == b;
    }
  }

  lemma InvRange(s: Sys)
    requires Inv(s) && s.inited
    ensures |s.f| == FIBER_MAX && 0 <= s.current < FIBER_MAX
  {
  }

  lemma WaitingTaken(s: Sys)
    requires Inv(s) && s.pending != 0
    ensures s.pending in s.heap
  {
  }

  /** At most one block more than there are fibers is ever taken. */
  lemma HeapBound(s: Sys)
    requires Inv(s)
    ensures |s.heap| <= FIBER_MAX
  {
    assert SlotOk(s.f, 0);
    assert Owned(s.f) == OwnedFrom(s.f, 0);
    FromNext(s.f, 0);
    OwnedCount(s.f, 1);
  }

  lemma {:induction false} OwnedCount(f: seq<Slot>, i: nat)
    requires i <= |f| && Distinct(f)
    ensures |OwnedFrom(f, i)| <= |f| - i
    decreases |f| - i
  {
    if i < |f| {
      OwnedCount(f, i + 1);
      FromNext(f, i);
      var one := if Holds(f[i]) then {f[i].block} else {};
      var all, rest := OwnedFrom(f, i), OwnedFrom(f, i + 1);
      assert all == rest + all * one;
      assert all * one == if Holds(f[i]) then {f[i].block} else {} by {
        assert Holds(f[i]) ==> f[i].block in all;
      }
    } else {
      assert OwnedFrom(f, i) == {};
    }
  }

  lemma NewBlock(s: Sys, block: int)
    requires Inv(s) && s.inited && block !in s.heap
    ensures 0 <= s.current < |s.f| && (Holds(s.f[s.current]) ==> s.f[s.current].block != block)
  {
    if Holds(s.f[s.current]) {
      OwnedAt(s.f, s.current);
    }
  }

  lemma FirstFreeOther(s: Sys, i: int)
    requires Inv(s) && s.inited && 0 <= i < |s.f| && s.f[i].state == Free
    ensures i != s.current
  {
  }

  lemma {:induction false} SameSearch(f: seq<Slot>, g: seq<Slot>, from: int, i: nat)
    requires |f| == |g| == FIBER_MAX && 0 <= from && i <= FIBER_MAX + 1
    requires forall k :: 0 <= k < FIBER_MAX ==> f[k].state == g[k].state
    ensures Search(f, from, i) == Search(g, from, i)
    decreases FIBER_MAX + 1 - i
  {
    if i <= FIBER_MAX {
      SameSearch(f, g, from, i + 1);
    }
  }
}
