// The agenda: scheduled items in memory, their store on disk, and the durable
// "attempting" marker written around a boot item's action. The machine may die
// at any write and inside any action.

module Agenda {

  const MAX_ITEMS: nat := 8
  const MAX_RUNS_TOTAL: nat := 256
  const MAX_FAILURES: nat := 3

  datatype When = Boot | Every | Once

  /** What was asked for, then what happened since boot. */
  datatype Item = Item(name: string, when: When, enabled: bool, attempting: bool, period: nat, maxRuns: nat,
                       runs: nat, failures: nat, next: nat)

  datatype Disk = Absent | Spoilt | Good(items: seq<Item>)

  /** How a write of the store ends: done; refused with the old store intact;
      failed half way; or cut off by a crash before, during or after it. */
  datatype Write = Written | Refused | Halfway | DiesBefore | DiesDuring | DiesAfter

  /** How an action ends: the machine dies in it; no guard could be armed, so it
      is not attempted; it fails or faults; it succeeds. */
  datatype Act = Kills | NoGuard | Fails | Succeeds

  /** What the loader finds in a stored entry. */
  datatype Fate = Fine | Unreadable | Invalid

  /** `started` and `killed` record, since ever, whose actions were begun and
      whose the machine died in. */
  datatype Sys = Sys(disk: Disk, alive: bool, items: seq<Item>, on: bool, runs: nat, started: seq<string>,
    killed: seq<string>)

  // ---- the store -----------------------------------------------------------------------

  /** Only the first half of an item is written. */
  function Stored(it: Item): Item { it.(runs := 0, failures := 0, next := 0) }

  function Render(items: seq<Item>): (r: seq<Item>)
    ensures |r| == |items| && forall i :: 0 <= i < |items| ==> r[i] == Stored(items[i])
  {
    seq(|items|, i requires 0 <= i < |items| => Stored(items[i]))
  }

  function Flush(s: Sys, w: Write): Sys {
    match w
    case Written => s.(disk := Good(Render(s.items)))
    case Refused => s
    case Halfway => s.(disk := Spoilt)
    case DiesBefore => s.(alive := false)
    case DiesDuring => s.(disk := Spoilt, alive := false)
    case DiesAfter => s.(disk := Good(Render(s.items)), alive := false)
  }

  predicate Named(items: seq<Item>, name: string) { exists i :: 0 <= i < |items| && items[i].name == name }

  /** A marker found on disk retires its item. */
  function Admit(it: Item): Item {
    if it.attempting then Stored(it).(enabled := false, attempting := false) else Stored(it)
  }

  /** The stored entries from `i` on, added to what is already loaded. */
  function LoadFrom(stored: seq<Item>, fate: nat -> Fate, i: nat, got: seq<Item>): seq<Item>
    requires i <= |stored|
    decreases |stored| - i
  {
    if i == |stored| || |got| >= MAX_ITEMS then got
    else if !fate(i).Fine? || Named(got, stored[i].name) then LoadFrom(stored, fate, i + 1, got)
    else LoadFrom(stored, fate, i + 1, got + [Admit(stored[i])])
  }

  /** A marker was met, so the store must be rewritten. */
  function DirtyFrom(stored: seq<Item>, fate: nat -> Fate, i: nat, got: seq<Item>): bool
    requires i <= |stored|
    decreases |stored| - i
  {
    if i == |stored| || |got| >= MAX_ITEMS then false
    else
      || (!fate(i).Unreadable? && stored[i].attempting)
      || (if !fate(i).Fine? || Named(got, stored[i].name) then DirtyFrom(stored, fate, i + 1, got)
          else DirtyFrom(stored, fate, i + 1, got + [Admit(stored[i])]))
  }

  /** Reading the store afresh; `readable` is false when the device fails. */
  function Load(s: Sys, readable: bool, fate: nat -> Fate, w: Write): Sys {
    if !readable || !s.disk.Good? then s.(items := [])
    else
      var s1 := s.(items := LoadFrom(s.disk.items, fate, 0, []));
      if DirtyFrom(s.disk.items, fate, 0, []) then Flush(s1, w) else s1
  }

  // ---- running one item ------------------------------------------------------------------

  /** The writes and the action of one run. */
  datatype Plan = Plan(now: nat, mark: Write, act: Act, clear: Write, retire: Write)

  predicate Refuses(s: Sys, slot: nat)
    requires slot < |s.items|
  {
    !s.on || s.runs >= MAX_RUNS_TOTAL
  }

  function Refused1(s: Sys, slot: nat): Sys
    requires slot < |s.items|
  {
    if !s.on then s else s.(items := s.items[slot := s.items[slot].(enabled := false)])
  }

  /** Counted, and for a boot item marked on disk before it is tried. */
  function Begin(s: Sys, slot: nat, mark: Write): (r: Sys)
    requires slot < |s.items|
    ensures |r.items| == |s.items|
  {
    var it := s.items[slot].(runs := s.items[slot].runs + 1);
    var s1 := s.(items := s.items[slot := it], runs := s.runs + 1);
    if !it.when.Boot? then s1 else
    var s2 := Flush(s1.(items := s1.items[slot := it.(attempting := true)]), mark);
    if mark == Refused || mark == Halfway then s2.(items := s2.items[slot := it.(attempting := false)]) else s2
  }

  /** The action came back: the marker is cleared, the run accounted for and the
      item perhaps retired. */
  function Finish(s: Sys, slot: nat, p: Plan): (r: Sys)
    requires slot < |s.items|
    ensures |r.items| == |s.items|
  {
    var marked := s.items[slot].attempting;
    var s1 := if marked then Flush(s.(items := s.items[slot := s.items[slot].(attempting := false)]), p.clear) else s;
    if !s1.alive then s1 else Account(s1, slot, p)
  }

  function Account(s: Sys, slot: nat, p: Plan): (r: Sys)
    requires slot < |s.items|
    ensures |r.items| == |s.items|
  {
    var it := s.items[slot];
    if p.act.NoGuard? then
      s.(items := s.items[slot := it.(runs := if it.runs > 0 then it.runs - 1 else 0)],
        runs := if s.runs > 0 then s.runs - 1 else 0)
    else
      var done := it.(failures := if p.act.Succeeds? then 0 else it.failures + 1);
      var s1 := s.(items := s.items[slot := Retired(done, p.now)]);
      if Durable(done) then Flush(s1, p.retire) else s1
  }

  predicate Durable(it: Item) { it.failures >= MAX_FAILURES || (it.runs < it.maxRuns && it.when.Once?) }

  function Retired(it: Item, now: nat): Item {
    if it.failures >= MAX_FAILURES || it.runs >= it.maxRuns || !it.when.Every? then it.(enabled := false)
    else it.(next := now + it.period)
  }

  function RunItem(s: Sys, slot: nat, p: Plan): Sys
    requires slot < |s.items|
  {
    if Refuses(s, slot) then Refused1(s, slot) else
    var s1 := Begin(s, slot, p.mark);
    if !s1.alive then s1 else
    var s2 := if p.act.NoGuard? then s1 else s1.(started := s1.started + [s.items[slot].name]);
    if p.act.Kills? then s2.(alive := false, killed := s2.killed + [s.items[slot].name]) else Finish(s2, slot, p)
  }

  // ---- operations ----------------------------------------------------------------------------

  function IndexOf(items: seq<Item>, name: string, i: nat): (r: int)
    ensures r == -1 || (i <= r < |items| && items[r].name == name)
    decreases |items| - i
  {
    if i >= |items| then -1 else if items[i].name == name then i else IndexOf(items, name, i + 1)
  }

  predicate Due(it: Item, now: nat) {
    it.enabled && it.runs < it.maxRuns && !it.when.Boot? && (it.when.Once? || it.next == 0 || now >= it.next)
  }

  /** The first item due, or -1. */
  function PickFrom(items: seq<Item>, now: nat, i: nat): (r: int)
    ensures r == -1 || (i <= r < |items| && Due(items[r], now))
    decreases |items| - i
  {
    if i >= |items| then -1 else if Due(items[i], now) then i else PickFrom(items, now, i + 1)
  }

  function SaveItem(s: Sys, it: Item, w: Write): Sys {
    var clean := Stored(it).(attempting := false);
    var i := IndexOf(s.items, it.name, 0);
    if i >= 0 then Flush(s.(items := s.items[i := clean]), w)
    else if |s.items| >= MAX_ITEMS then s
    else Flush(s.(items := s.items + [clean]), w)
  }

  function RemoveItem(s: Sys, name: string, w: Write): Sys {
    var i := IndexOf(s.items, name, 0);
    if i == -1 then s else Flush(s.(items := s.items[..i] + s.items[i + 1..]), w)
  }

  function SetEnabled(s: Sys, name: string, on: bool, w: Write): Sys {
    var i := IndexOf(s.items, name, 0);
    if i == -1 then s else
    var it := s.items[i];
    Flush(s.(items := s.items[i := it.(enabled := on, failures := if on then 0 else it.failures)]), w)
  }

  /** The boot items in order; the table is walked as the runs leave it. */
  function RunBoot(s: Sys, plan: nat -> Plan, i: nat): Sys
    decreases |s.items| - i
  {
    if !s.alive || i >= |s.items| then s
    else if !s.items[i].enabled || !s.items[i].when.Boot? then RunBoot(s, plan, i + 1)
    else
      RunKeepsLength(s, i, plan(i));
      RunBoot(RunItem(s, i, plan(i)), plan, i + 1)
  }

  lemma RunKeepsLength(s: Sys, slot: nat, p: Plan)
    requires slot < |s.items|
    ensures |RunItem(s, slot, p).items| == |s.items|
  {
    hide Finish, Begin;
  }

  datatype Op =
    | PowerCut
    | PowerOn(readable: bool, fate: nat -> Fate, w: Write, plan: nat -> Plan)
    | Tick(plan1: Plan)
    | RunNow(name: string, plan1: Plan)
    | Save(it: Item, w: Write)
    | Remove(name: string, w: Write)
    | Enable(name: string, flag: bool, w: Write)
    | Switch(flag: bool)

  /** One thing that happens to the machine. */
  function Step(s: Sys, op: Op): Sys {
    match op
    case PowerCut => s.(alive := false)
    case PowerOn(readable, fate, w, plan) =>
      var s1 := Load(s.(alive := true, items := [], on := true, runs := 0), readable, fate, w);
      RunBoot(s1, plan, 0)
    case Tick(p) =>
      var i := PickFrom(s.items, p.now, 0);
      if !s.alive || !s.on || i == -1 then s else RunItem(s, i, p)
    case RunNow(name, p) =>
      var i := IndexOf(s.items, name, 0);
      if !s.alive || i == -1 then s else RunItem(s, i, p)
    case Save(it, w) => if s.alive then SaveItem(s, it, w) else s
    case Remove(name, w) => if s.alive then RemoveItem(s, name, w) else s
    case Enable(name, flag, w) => if s.alive then SetEnabled(s, name, flag, w) else s
    case Switch(flag) => if s.alive then s.(on := flag) else s
  }

  function Run(s: Sys, ops: seq<Op>): Sys
    decreases |ops|
  {
    if ops == [] then s else Run(Step(s, ops[0]), ops[1..])
  }

  // ---- what always holds ---------------------------------------------------------------------

  predicate DistinctNames(items: seq<Item>) { forall i, j :: 0 <= i < j < |items| ==> items[i].name != items[j].name }

  predicate NoneMarked(items: seq<Item>) { forall i :: 0 <= i < |items| ==> !items[i].attempting }

  predicate OneMarked(items: seq<Item>) {
    forall i, j :: 0 <= i < j < |items| ==> !(items[i].attempting && items[j].attempting)
  }

  /** Between operations: names differ, nothing in memory is marked, and the
      store marks at most one item. */
  predicate Inv(s: Sys) {
    && (s.alive ==> |s.items| <= MAX_ITEMS && DistinctNames(s.items) && NoneMarked(s.items))
    && (s.disk.Good? ==> OneMarked(s.disk.items))
  }

  lemma LogKept(s: Sys, w: Write)
    ensures Flush(s, w).started == s.started && Flush(s, w).killed == s.killed && Flush(s, w).items == s.items
  {
  }

  lemma FlushKeeps(s: Sys, w: Write)
    requires s.alive && OneMarked(s.items) && (s.disk.Good? ==> OneMarked(s.disk.items))
    ensures var r := Flush(s, w);
            && r.items == s.items && r.started == s.started && r.killed == s.killed && r.on == s.on && r.runs == s.runs
            && (r.disk.Good? ==> OneMarked(r.disk.items))
            && (r.disk == s.disk || r.disk == Spoilt || r.disk == Good(Render(s.items)))
            && (w.Written? ==> r.disk == Good(Render(s.items)))
            && (r.alive <==> w.Written? || w.Refused? || w.Halfway?)
            && (r.alive ==> (w.Refused? || w.Halfway?) || r.disk == Good(Render(s.items)))
  {
  }

  lemma {:induction false} LoadKeeps(stored: seq<Item>, fate: nat -> Fate, i: nat, got: seq<Item>)
    requires i <= |stored| && |got| <= MAX_ITEMS && DistinctNames(got) && NoneMarked(got)
    ensures var r := LoadFrom(stored, fate, i, got); |r| <= MAX_ITEMS && DistinctNames(r) && NoneMarked(r)
    decreases |stored| - i
  {
    if i < |stored| && |got| < MAX_ITEMS {
      if !fate(i).Fine? || Named(got, stored[i].name) {
        LoadKeeps(stored, fate, i + 1, got);
      } else {
        LoadKeeps(stored, fate, i + 1, got + [Admit(stored[i])]);
      }
    }
  }

  lemma NoneIsOne(items: seq<Item>)
    requires NoneMarked(items)
    ensures OneMarked(items)
  {
  }

  lemma BeginKeeps(s: Sys, slot: nat, mark: Write)
    requires Inv(s) && s.alive && slot < |s.items|
    ensures var r := Begin(s, slot, mark);
            && (r.disk.Good? ==> OneMarked(r.disk.items))
            && r.started == s.started && r.killed == s.killed
            && DistinctNames(r.items)
            && (forall i :: 0 <= i < |r.items| && i != slot ==> r.items[i] == s.items[i])
            && r.items[slot].name == s.items[slot].name && r.items[slot].when == s.items[slot].when
            && r.items[slot].enabled == s.items[slot].enabled
  {
    hide Flush;
    var it := s.items[slot].(runs := s.items[slot].runs + 1);
    var s1 := s.(items := s.items[slot := it.(attempting := true)], runs := s.runs + 1);
    assert s.(items := s.items[slot := it], runs := s.runs + 1).(items := s.(items := s.items[slot := it],
      runs := s.runs + 1).items[slot := it.(attempting := true)]) == s1;
    FlushKeeps(s1, mark);
  }

  /** Inside the guard the store marks the running boot item and no other. */
  lemma GuardMarks(s: Sys, slot: nat, mark: Write)
    requires Inv(s) && s.alive && slot < |s.items| && s.items[slot].when.Boot? && mark.Written?
    ensures var r := Begin(s, slot, mark);
            r.alive && r.disk == Good(Render(r.items)) && forall i :: 0 <= i < |r.items| ==>
              (r.disk.items[i].attempting <==> i == slot)
  {
  }

  lemma FinishKeeps(s: Sys, slot: nat, p: Plan)
    requires s.alive && slot < |s.items| <= MAX_ITEMS && DistinctNames(s.items)
    requires (s.disk.Good? ==> OneMarked(s.disk.items))
    requires forall i :: 0 <= i < |s.items| && i != slot ==> !s.items[i].attempting
    ensures Inv(Finish(s, slot, p)) && Finish(s, slot, p).started == s.started && Finish(s, slot, p).killed == s.killed
  {
    hide Flush, Account;
    var s0 := s.(items := s.items[slot := s.items[slot].(attempting := false)]);
    NoneIsOne(s0.items);
    FlushKeeps(s0, p.clear);
    var s1 := if s.items[slot].attempting then Flush(s0, p.clear) else s;
    if s1.alive {
      AccountKeeps(s1, slot, p);
    }
  }

  lemma AccountKeeps(s: Sys, slot: nat, p: Plan)
    requires Inv(s) && s.alive && slot < |s.items|
    ensures Inv(Account(s, slot, p)) && Account(s, slot, p).started == s.started
    ensures Account(s, slot, p).killed == s.killed
  {
    hide Flush, Durable;
    var it := s.items[slot];
    var done := it.(failures := if p.act.Succeeds? then 0 else it.failures + 1);
    var s1 := s.(items := s.items[slot := Retired(done, p.now)]);
    NoneIsOne(s1.items);
    FlushKeeps(s1, p.retire);
  }

  lemma RunItemKeeps(s: Sys, slot: nat, p: Plan)
    requires Inv(s) && s.alive && slot < |s.items|
    ensures Inv(RunItem(s, slot, p))
  {
    hide Begin, Finish;
    if !Refuses(s, slot) {
      BeginKeeps(s, slot, p.mark);
      var s1 := Begin(s, slot, p.mark);
      var s2 := if p.act.NoGuard? then s1 else s1.(started := s1.started + [s.items[slot].name]);
      if s1.alive && !p.act.Kills? {
        FinishKeeps(s2, slot, p);
      }
    }
  }

  lemma {:induction false} RunBootKeeps(s: Sys, plan: nat -> Plan, i: nat)
    requires Inv(s)
    ensures Inv(RunBoot(s, plan, i))
    decreases |s.items| - i
  {
    hide RunItem;
    if s.alive && i < |s.items| {
      if !s.items[i].enabled || !s.items[i].when.Boot? {
        RunBootKeeps(s, plan, i + 1);
      } else {
        RunKeepsLength(s, i, plan(i));
        RunItemKeeps(s, i, plan(i));
        RunBootKeeps(RunItem(s, i, plan(i)), plan, i + 1);
      }
    }
  }

  lemma LoadInv(s: Sys, readable: bool, fate: nat -> Fate, w: Write)
    requires s.alive && (s.disk.Good? ==> OneMarked(s.disk.items))
    ensures Inv(Load(s, readable, fate, w))
  {
    hide Flush, LoadFrom, DirtyFrom;
    if readable && s.disk.Good? {
      LoadKeeps(s.disk.items, fate, 0, []);
      var s1 := s.(items := LoadFrom(s.disk.items, fate, 0, []));
      NoneIsOne(s1.items);
      FlushKeeps(s1, w);
    }
  }

  lemma {:induction false} IndexMisses(items: seq<Item>, name: string, i: nat)
    requires i <= |items|
    ensures IndexOf(items, name, i) == -1 <==> forall j :: i <= j < |items| ==> items[j].name != name
    decreases |items| - i
  {
    if i < |items| {
      IndexMisses(items, name, i + 1);
    }
  }

  /** An edit of the table followed by a write of it. */
  lemma EditKeeps(s: Sys, items: seq<Item>, w: Write)
    requires Inv(s) && s.alive && |items| <= MAX_ITEMS && DistinctNames(items) && NoneMarked(items)
    ensures Inv(Flush(s.(items := items), w))
  {
    hide Flush;
    NoneIsOne(items);
    FlushKeeps(s.(items := items), w);
  }

  /** Every operation, whatever fails and wherever the machine dies, keeps the
      table sound and at most one marker on disk. */
  lemma StepKeeps(s: Sys, op: Op)
    requires Inv(s)
    ensures Inv(Step(s, op))
  {
    hide Flush, RunItem, RunBoot, Load;
    match op
    case PowerCut =>
    case PowerOn(readable, fate, w, plan) =>
      var s0 := s.(alive := true, items := [], on := true, runs := 0);
      LoadInv(s0, readable, fate, w);
      RunBootKeeps(Load(s0, readable, fate, w), plan, 0);
    case Tick(p) =>
      var i := PickFrom(s.items, p.now, 0);
      if s.alive && s.on && i != -1 {
        RunItemKeeps(s, i, p);
      }
    case RunNow(name, p) =>
      var i := IndexOf(s.items, name, 0);
      if s.alive && i != -1 {
        RunItemKeeps(s, i, p);
      }
    case Save(it, w) =>
      if s.alive {
        var clean := Stored(it).(attempting := false);
        var i := IndexOf(s.items, it.name, 0);
        IndexMisses(s.items, it.name, 0);
        if i >= 0 {
          EditKeeps(s, s.items[i := clean], w);
        } else if |s.items| < MAX_ITEMS {
          EditKeeps(s, s.items + [clean], w);
        }
      }
    case Remove(name, w) =>
      var i := IndexOf(s.items, name, 0);
      if s.alive && i != -1 {
        EditKeeps(s, s.items[..i] + s.items[i + 1..], w);
      }
    case Enable(name, flag, w) =>
      var i := IndexOf(s.items, name, 0);
      if s.alive && i != -1 {
        var it := s.items[i];
        EditKeeps(s, s.items[i := it.(enabled := flag, failures := if flag then 0 else it.failures)], w);
      }
    case Switch(flag) =>
  }

  lemma {:induction false} RunKeeps(s: Sys, ops: seq<Op>)
    requires Inv(s)
    ensures Inv(Run(s, ops))
    decreases |ops|
  {
    hide Step;
    if ops != [] {
      StepKeeps(s, ops[0]);
      RunKeeps(Step(s, ops[0]), ops[1..]);
    }
  }
}
