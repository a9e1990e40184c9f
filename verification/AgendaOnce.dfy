// A boot item whose action kills the machine does so at most once, until someone
// saves it again, enables it or runs it by hand.

module AgendaOnce {
  import opened Agenda

  function Times(log: seq<string>, k: string): nat {
    if log == [] then 0 else Times(log[..|log| - 1], k) + if log[|log| - 1] == k then 1 else 0
  }

  lemma TimesMore(log: seq<string>, x: string, k: string)
    ensures Times(log + [x], k) == Times(log, k) + if x == k then 1 else 0
  {
    assert (log + [x])[..|log|] == log;
  }

  /** `k` is a boot item wherever it appears. */
  predicate BootOnly(items: seq<Item>, k: string) {
    forall i :: 0 <= i < |items| && items[i].name == k ==> items[i].when.Boot?
  }

  predicate Off(items: seq<Item>, k: string) {
    forall i :: 0 <= i < |items| && items[i].name == k ==> !items[i].enabled
  }

  predicate OffOrMarked(disk: Disk, k: string) {
    disk.Good? ==> forall i :: 0 <= i < |disk.items| && disk.items[i].name == k ==>
      disk.items[i].attempting || !disk.items[i].enabled
  }

  predicate Held(s: Sys, k: string) {
    (s.alive ==> BootOnly(s.items, k)) && (s.disk.Good? ==> BootOnly(s.disk.items, k))
  }

  /** Off in memory, and on disk off or marked: no boot will start it. */
  predicate Spent(s: Sys, k: string) { (s.alive ==> Off(s.items, k)) && OffOrMarked(s.disk, k) }

  /** Nobody saves `k`, enables it or runs it by hand. */
  predicate Quiet(op: Op, k: string) {
    match op
    case Save(it, _) => it.name != k
    case Enable(name, flag, _) => name != k || !flag
    case RunNow(name, _) => name != k
    case _ => true
  }

  /** No marker write is refused with the old store left in place. */
  ghost predicate Marks(op: Op) {
    op.PowerOn? ==> forall i :: !op.plan(i).mark.Refused?
  }

  // ---- writes and loads --------------------------------------------------------------------

  lemma FlushHeld(s: Sys, w: Write, k: string)
    requires s.alive && Held(s, k)
    ensures Held(Flush(s, w), k) && Flush(s, w).started == s.started && Flush(s, w).killed == s.killed
    ensures Flush(s, w).items == s.items
  {
  }

  lemma FlushSpent(s: Sys, w: Write, k: string)
    requires s.alive && Spent(s, k)
    ensures Spent(Flush(s, w), k)
  {
  }

  lemma {:induction false} LoadHeld(stored: seq<Item>, fate: nat -> Fate, i: nat, got: seq<Item>, k: string)
    requires i <= |stored| && BootOnly(stored, k) && BootOnly(got, k)
    ensures BootOnly(LoadFrom(stored, fate, i, got), k)
    ensures OffOrMarked(Good(stored), k) && Off(got, k) ==> Off(LoadFrom(stored, fate, i, got), k)
    decreases |stored| - i
  {
    if i < |stored| && |got| < MAX_ITEMS {
      if !fate(i).Fine? || Named(got, stored[i].name) {
        LoadHeld(stored, fate, i + 1, got, k);
      } else {
        LoadHeld(stored, fate, i + 1, got + [Admit(stored[i])], k);
      }
    }
  }

  lemma LoadAll(s: Sys, readable: bool, fate: nat -> Fate, w: Write, k: string)
    requires s.alive && s.items == [] && Held(s, k)
    ensures var r := Load(s, readable, fate, w);
            Held(r, k) && r.started == s.started && r.killed == s.killed && (Spent(s, k) ==> Spent(r, k))
  {
    hide Flush, LoadFrom, DirtyFrom;
    if readable && s.disk.Good? {
      LoadHeld(s.disk.items, fate, 0, [], k);
      var s1 := s.(items := LoadFrom(s.disk.items, fate, 0, []));
      FlushHeld(s1, w, k);
      if Spent(s, k) {
        FlushSpent(s1, w, k);
      }
    }
  }

  // ---- one run -------------------------------------------------------------------------------

  /** The same but for cell `slot`, whose item keeps its name and kind. */
  predicate Like(s: Sys, r: Sys, slot: nat)
    requires slot < |s.items|
  {
    && |r.items| == |s.items|
    && (forall i :: 0 <= i < |s.items| && i != slot ==> r.items[i] == s.items[i])
    && r.items[slot].name == s.items[slot].name
    && r.items[slot].when == s.items[slot].when
    && (r.items[slot].enabled ==> s.items[slot].enabled)
  }

  lemma PutHeld(s: Sys, slot: nat, it: Item, w: Write, k: string)
    requires s.alive && slot < |s.items| && Held(s, k) && it.name == s.items[slot].name
    requires it.when == s.items[slot].when && (it.enabled ==> s.items[slot].enabled)
    ensures var s1 := s.(items := s.items[slot := it]);
            Held(s1, k) && Held(Flush(s1, w), k) && Like(s, s1, slot) && Like(s, Flush(s1, w), slot)
    ensures var s1 := s.(items := s.items[slot := it]); Spent(s, k) ==> Spent(s1, k) && Spent(Flush(s1, w), k)
  {
    hide Flush;
    var s1 := s.(items := s.items[slot := it]);
    FlushHeld(s1, w, k);
    if Spent(s, k) {
      FlushSpent(s1, w, k);
    }
  }

  lemma BeginHeld(s: Sys, slot: nat, mark: Write, k: string)
    requires s.alive && slot < |s.items| && Held(s, k)
    ensures var r := Begin(s, slot, mark); Held(r, k) && Like(s, r, slot) && (Spent(s, k) ==> Spent(r, k))
    ensures Begin(s, slot, mark).started == s.started && Begin(s, slot, mark).killed == s.killed
  {
    hide Flush, Held, Spent, Like;
    var it := s.items[slot].(runs := s.items[slot].runs + 1);
    var s1 := s.(items := s.items[slot := it], runs := s.runs + 1);
    CountOnly(s, s.runs + 1, k);
    PutHeld(s.(runs := s.runs + 1), slot, it, Written, k);
    if it.when.Boot? {
      var up := it.(attempting := true);
      var s2 := s1.(items := s1.items[slot := up]);
      PutHeld(s1, slot, up, mark, k);
      FlushHeld(s2, mark, k);
      LikeTwice(s, s1, Flush(s2, mark), slot);
      if mark == Refused || mark == Halfway {
        var s3 := Flush(s2, mark);
        StillAlive(s2, mark);
        PutHeld(s3, slot, it.(attempting := false), Written, k);
        LikeTwice(s, s3, s3.(items := s3.items[slot := it.(attempting := false)]), slot);
      }
    }
  }

  lemma CountOnly(s: Sys, n: nat, k: string)
    ensures Held(s.(runs := n), k) <==> Held(s, k)
    ensures Spent(s.(runs := n), k) <==> Spent(s, k)
    ensures forall slot: nat, r: Sys :: slot < |s.items| ==> (Like(s.(runs := n), r, slot) <==> Like(s, r, slot))
  {
  }

  lemma StillAlive(s: Sys, w: Write)
    requires s.alive && (w == Refused || w == Halfway)
    ensures Flush(s, w).alive
  {
  }

  lemma LikeTwice(s: Sys, r: Sys, q: Sys, slot: nat)
    requires slot < |s.items| && Like(s, r, slot) && Like(r, q, slot)
    ensures Like(s, q, slot)
  {
  }

  lemma AccountHeld(s: Sys, slot: nat, p: Plan, k: string)
    requires s.alive && slot < |s.items| && Held(s, k)
    ensures var r := Account(s, slot, p);
            Held(r, k) && (Spent(s, k) ==> Spent(r, k)) && r.started == s.started && r.killed == s.killed
  {
    hide Flush, Held, Spent, Like, Durable;
    var it := s.items[slot];
    if p.act.NoGuard? {
      var n := if s.runs > 0 then s.runs - 1 else 0;
      var back := it.(runs := if it.runs > 0 then it.runs - 1 else 0);
      PutHeld(s, slot, back, Written, k);
      CountOnly(s.(items := s.items[slot := back]), n, k);
    } else {
      var done := it.(failures := if p.act.Succeeds? then 0 else it.failures + 1);
      var s1 := s.(items := s.items[slot := Retired(done, p.now)]);
      PutHeld(s, slot, Retired(done, p.now), p.retire, k);
      LogKept(s1, p.retire);
    }
  }

  lemma FinishHeld(s: Sys, slot: nat, p: Plan, k: string)
    requires s.alive && slot < |s.items| && Held(s, k)
    ensures var r := Finish(s, slot, p);
            Held(r, k) && (Spent(s, k) ==> Spent(r, k)) && r.started == s.started && r.killed == s.killed
  {
    hide Flush, Held, Spent, Like, Account;
    var it := s.items[slot].(attempting := false);
    var s0 := s.(items := s.items[slot := it]);
    var s1 := if s.items[slot].attempting then Flush(s0, p.clear) else s;
    PutHeld(s, slot, it, p.clear, k);
    LogKept(s0, p.clear);
    if s1.alive {
      AccountHeld(s1, slot, p, k);
    }
  }

  /** What a run leaves alone: `k` stays a boot item, and spent once spent. The
      logs grow by the item run, or not at all. */
  lemma RunItemHeld(s: Sys, slot: nat, p: Plan, k: string)
    requires s.alive && slot < |s.items| && Held(s, k)
    ensures var r := RunItem(s, slot, p); Held(r, k) && (Spent(s, k) ==> Spent(r, k))
    ensures var r, name := RunItem(s, slot, p), s.items[slot].name;
            && (r.started == s.started || r.started == s.started + [name])
            && (r.killed == s.killed || (r.killed == s.killed + [name] && !r.alive && Begin(s, slot, p.mark).alive
                  && !Refuses(s, slot) && p.act.Kills?))
  {
    hide Begin, Finish;
    if Refuses(s, slot) {
      PutHeld(s, slot, s.items[slot].(enabled := false), Written, k);
    } else {
      BeginHeld(s, slot, p.mark, k);
      var s1 := Begin(s, slot, p.mark);
      var s2 := if p.act.NoGuard? then s1 else s1.(started := s1.started + [s.items[slot].name]);
      if s1.alive && !p.act.Kills? {
        FinishHeld(s2, slot, p, k);
      }
    }
  }

  /** A boot item that kills the machine is spent exactly unless its marker write
      was refused while the store still had it enabled and unmarked. */
  lemma KillSpends(s: Sys, slot: nat, p: Plan)
    requires Inv(s) && s.alive && slot < |s.items| && s.items[slot].when.Boot?
    requires !Refuses(s, slot) && p.act.Kills? && Begin(s, slot, p.mark).alive
    ensures var k := s.items[slot].name;
            Spent(RunItem(s, slot, p), k) <==> (p.mark.Refused? ==> OffOrMarked(s.disk, k))
  {
    var k := s.items[slot].name;
    var r := RunItem(s, slot, p);
    if p.mark.Written? {
      GuardMarks(s, slot, p.mark);
      var b := Begin(s, slot, p.mark);
      assert r.disk == b.disk;
      BeginKeeps(s, slot, p.mark);
      forall i | 0 <= i < |r.disk.items| && r.disk.items[i].name == k
        ensures r.disk.items[i].attempting
      {
        assert b.items[i].name == k;
      }
    }
  }

  // ---- one operation ----------------------------------------------------------------------------

  /** `k` died at most once more, and only by leaving it spent. */
  predicate OnceMore(s: Sys, r: Sys, k: string) {
    && Held(r, k)
    && (Spent(s, k) ==> Spent(r, k) && Times(r.started, k) == Times(s.started, k))
    && (Times(r.killed, k) == Times(s.killed, k) || (Times(r.killed, k) == Times(s.killed, k) + 1 && Spent(r, k)
          && !Spent(s, k)))
  }

  lemma OnceTwice(s: Sys, r: Sys, q: Sys, k: string)
    requires OnceMore(s, r, k) && OnceMore(r, q, k)
    ensures OnceMore(s, q, k)
  {
    hide Spent, Held;
  }

  lemma RunOther(s: Sys, slot: nat, p: Plan, k: string)
    requires s.alive && slot < |s.items| && Held(s, k) && s.items[slot].name != k
    ensures OnceMore(s, RunItem(s, slot, p), k)
  {
    hide RunItem, Spent, Held, Begin;
    RunItemHeld(s, slot, p, k);
    TimesMore(s.started, s.items[slot].name, k);
    TimesMore(s.killed, s.items[slot].name, k);
  }

  lemma RunSelf(s: Sys, slot: nat, p: Plan, k: string)
    requires Inv(s) && s.alive && slot < |s.items| && Held(s, k) && s.items[slot].name == k && s.items[slot].enabled
    requires s.items[slot].when.Boot? && !p.mark.Refused?
    ensures OnceMore(s, RunItem(s, slot, p), k)
  {
    hide RunItem, Held, Begin, Inv;
    RunItemHeld(s, slot, p, k);
    TimesMore(s.killed, k, k);
    if RunItem(s, slot, p).killed != s.killed {
      KillSpends(s, slot, p);
    }
  }

  lemma {:induction false} BootOnce(s: Sys, plan: nat -> Plan, i: nat, k: string)
    requires Inv(s) && Held(s, k) && forall j :: !plan(j).mark.Refused?
    ensures OnceMore(s, RunBoot(s, plan, i), k)
    decreases |s.items| - i
  {
    hide RunItem, Held, Spent, Inv, OnceMore;
    Nothing(s, k);
    if s.alive && i < |s.items| {
      if !s.items[i].enabled || !s.items[i].when.Boot? {
        BootOnce(s, plan, i + 1, k);
      } else {
        var r := RunItem(s, i, plan(i));
        RunKeepsLength(s, i, plan(i));
        RunItemKeeps(s, i, plan(i));
        if s.items[i].name == k {
          RunSelf(s, i, plan(i), k);
        } else {
          RunOther(s, i, plan(i), k);
        }
        Heeds(s, r, k);
        BootOnce(r, plan, i + 1, k);
        OnceTwice(s, r, RunBoot(r, plan, i + 1), k);
      }
    }
  }

  lemma Nothing(s: Sys, k: string)
    requires Held(s, k)
    ensures OnceMore(s, s, k)
  {
  }

  lemma Heeds(s: Sys, r: Sys, k: string)
    requires OnceMore(s, r, k)
    ensures Held(r, k)
  {
  }

  /** An edit that neither arms `k` nor makes it anything but a boot item. */
  lemma EditOnce(s: Sys, items: seq<Item>, w: Write, k: string)
    requires s.alive && Held(s, k) && BootOnly(items, k) && (Off(s.items, k) ==> Off(items, k))
    ensures OnceMore(s, Flush(s.(items := items), w), k)
  {
    hide Flush, Times;
    var s1 := s.(items := items);
    FlushHeld(s1, w, k);
    if Spent(s, k) {
      FlushSpent(s1, w, k);
    }
  }

  lemma StepOnce(s: Sys, op: Op, k: string)
    requires Inv(s) && Held(s, k) && Quiet(op, k) && Marks(op)
    ensures OnceMore(s, Step(s, op), k)
  {
    hide Flush, RunItem, RunBoot, Load, OnceMore, Held, Spent, PickFrom;
    Nothing(s, k);
    match op
    case PowerCut => Dead(s, k);
    case PowerOn(readable, fate, w, plan) => PowerOnOnce(s, op, k);
    case Tick(p) =>
      var i := PickFrom(s.items, p.now, 0);
      if s.alive && s.on && i != -1 {
        NotDue(s, i, p.now, k);
        RunOther(s, i, p, k);
      }
    case RunNow(name, p) =>
      var i := IndexOf(s.items, name, 0);
      if s.alive && i != -1 {
        RunOther(s, i, p, k);
      }
    case Save(it, w) =>
      if s.alive {
        SaveOnce(s, it, w, k);
      }
    case Remove(name, w) =>
      if s.alive {
        RemoveOnce(s, name, w, k);
      }
    case Enable(name, flag, w) =>
      if s.alive {
        EnableOnce(s, name, flag, w, k);
      }
    case Switch(flag) => Switched(s, flag, k);
  }

  lemma Dead(s: Sys, k: string)
    requires Held(s, k)
    ensures OnceMore(s, s.(alive := false), k)
  {
  }

  lemma Switched(s: Sys, flag: bool, k: string)
    requires Held(s, k)
    ensures OnceMore(s, s.(on := flag), k)
  {
  }

  lemma NotDue(s: Sys, i: nat, now: nat, k: string)
    requires s.alive && Held(s, k) && i < |s.items| && Due(s.items[i], now)
    ensures s.items[i].name != k
  {
  }

  lemma PowerOnOnce(s: Sys, op: Op, k: string)
    requires Inv(s) && Held(s, k) && op.PowerOn? && Marks(op)
    ensures OnceMore(s, Step(s, op), k)
  {
    hide Flush, RunBoot, Load, Times;
    var s0 := s.(alive := true, items := [], on := true, runs := 0);
    LoadInv(s0, op.readable, op.fate, op.w);
    LoadAll(s0, op.readable, op.fate, op.w, k);
    var s1 := Load(s0, op.readable, op.fate, op.w);
    BootOnce(s1, op.plan, 0, k);
  }

  lemma SaveOnce(s: Sys, it: Item, w: Write, k: string)
    requires s.alive && Held(s, k) && it.name != k
    ensures OnceMore(s, SaveItem(s, it, w), k)
  {
    hide Flush, OnceMore;
    var clean := Stored(it).(attempting := false);
    var i := IndexOf(s.items, it.name, 0);
    if i >= 0 {
      EditOnce(s, s.items[i := clean], w, k);
    } else if |s.items| >= MAX_ITEMS {
      Nothing(s, k);
    } else {
      EditOnce(s, s.items + [clean], w, k);
    }
  }

  lemma RemoveOnce(s: Sys, name: string, w: Write, k: string)
    requires s.alive && Held(s, k)
    ensures OnceMore(s, RemoveItem(s, name, w), k)
  {
    hide Flush, OnceMore;
    var i := IndexOf(s.items, name, 0);
    Nothing(s, k);
    if i != -1 {
      EditOnce(s, s.items[..i] + s.items[i + 1..], w, k);
    }
  }

  lemma EnableOnce(s: Sys, name: string, flag: bool, w: Write, k: string)
    requires s.alive && Held(s, k) && (name != k || !flag)
    ensures OnceMore(s, SetEnabled(s, name, flag, w), k)
  {
    hide Flush, OnceMore;
    var i := IndexOf(s.items, name, 0);
    Nothing(s, k);
    if i != -1 {
      var it := s.items[i];
      EditOnce(s, s.items[i := it.(enabled := flag, failures := if flag then 0 else it.failures)], w, k);
    }
  }

  // ---- all later boots ---------------------------------------------------------------------------

  ghost predicate QuietRun(ops: seq<Op>, k: string) { forall i :: 0 <= i < |ops| ==> Quiet(ops[i], k) && Marks(ops[i]) }

  /** Over any later history of boots, crashes, ticks and edits of other items,
      a boot item kills the machine at most once, and is never started again. */
  lemma {:induction false} KilledOnce(s: Sys, ops: seq<Op>, k: string)
    requires Inv(s) && Held(s, k) && QuietRun(ops, k)
    ensures OnceMore(s, Run(s, ops), k)
    decreases |ops|
  {
    hide Step, OnceMore, Inv, Held, Spent, Quiet, Marks;
    Nothing(s, k);
    if ops != [] {
      var r := Step(s, ops[0]);
      StepKeeps(s, ops[0]);
      StepOnce(s, ops[0], k);
      Heeds(s, r, k);
      KilledOnce(r, ops[1..], k);
      OnceTwice(s, r, Run(r, ops[1..]), k);
    }
  }

  // ---- an action that always kills -----------------------------------------------------------------

  function PoweredUp(s: Sys): Sys { s.(alive := true, items := [], on := true, runs := 0) }

  /** Whenever this boot comes to `k`, the machine dies in its action, unless the
      action is not even attempted. */
  predicate Deadly(s: Sys, op: Op, k: string) {
    op.PowerOn? ==>
      var got := Load(PoweredUp(s), op.readable, op.fate, op.w).items;
      forall i :: 0 <= i < |got| && got[i].name == k ==> op.plan(i).act.Kills? || op.plan(i).act.NoGuard?
  }

  predicate DeadlyRun(s: Sys, ops: seq<Op>, k: string)
    decreases |ops|
  {
    ops == [] || (Deadly(s, ops[0], k) && DeadlyRun(Step(s, ops[0]), ops[1..], k))
  }

  /** `k` was started as often as it killed the machine. */
  predicate Even(s: Sys, r: Sys, k: string) {
    Times(r.started, k) + Times(s.killed, k) == Times(s.started, k) + Times(r.killed, k)
  }

  lemma RunEven(s: Sys, slot: nat, p: Plan, k: string)
    requires s.alive && slot < |s.items| && Held(s, k)
    requires s.items[slot].name == k ==> p.act.Kills? || p.act.NoGuard?
    ensures Even(s, RunItem(s, slot, p), k)
  {
    hide Begin, Finish, Held, Times;
    var name := s.items[slot].name;
    TimesMore(s.started, name, k);
    TimesMore(s.killed, name, k);
    RunItemHeld(s, slot, p, k);
    if name == k && !Refuses(s, slot) {
      BeginHeld(s, slot, p.mark, k);
      var s1 := Begin(s, slot, p.mark);
      if s1.alive && p.act.NoGuard? {
        FinishHeld(s1, slot, p, k);
      }
    }
  }

  lemma RunNames(s: Sys, slot: nat, p: Plan)
    requires slot < |s.items|
    ensures var r := RunItem(s, slot, p);
            |r.items| == |s.items| && forall i :: 0 <= i < |s.items| ==> r.items[i].name == s.items[i].name
  {
    hide Flush;
    var s1 := Begin(s, slot, p.mark);
    BeginNames(s, slot, p.mark);
    var s2 := if p.act.NoGuard? then s1 else s1.(started := s1.started + [s.items[slot].name]);
    FinishNames(s2, slot, p);
  }

  lemma BeginNames(s: Sys, slot: nat, mark: Write)
    requires slot < |s.items|
    ensures forall i :: 0 <= i < |s.items| ==> Begin(s, slot, mark).items[i].name == s.items[i].name
  {
    hide Flush;
    var it := s.items[slot].(runs := s.items[slot].runs + 1);
    var s1 := s.(items := s.items[slot := it], runs := s.runs + 1);
    LogKept(s1.(items := s1.items[slot := it.(attempting := true)]), mark);
  }

  lemma FinishNames(s: Sys, slot: nat, p: Plan)
    requires slot < |s.items|
    ensures forall i :: 0 <= i < |s.items| ==> Finish(s, slot, p).items[i].name == s.items[i].name
  {
    hide Flush, Durable;
    var s0 := s.(items := s.items[slot := s.items[slot].(attempting := false)]);
    LogKept(s0, p.clear);
    var s1 := if s.items[slot].attempting then Flush(s0, p.clear) else s;
    var it := s1.items[slot];
    var done := it.(failures := if p.act.Succeeds? then 0 else it.failures + 1);
    LogKept(s1.(items := s1.items[slot := Retired(done, p.now)]), p.retire);
  }

  lemma {:induction false} BootEven(s: Sys, plan: nat -> Plan, i: nat, k: string)
    requires Inv(s) && Held(s, k)
    requires forall j :: 0 <= j < |s.items| && s.items[j].name == k ==> plan(j).act.Kills? || plan(j).act.NoGuard?
    ensures Even(s, RunBoot(s, plan, i), k)
    decreases |s.items| - i
  {
    hide RunItem, Held, Inv, Times, Spent;
    if s.alive && i < |s.items| {
      if !s.items[i].enabled || !s.items[i].when.Boot? {
        BootEven(s, plan, i + 1, k);
      } else {
        var r := RunItem(s, i, plan(i));
        RunNames(s, i, plan(i));
        RunItemKeeps(s, i, plan(i));
        RunItemHeld(s, i, plan(i), k);
        RunEven(s, i, plan(i), k);
        BootEven(r, plan, i + 1, k);
      }
    }
  }

  lemma StepEven(s: Sys, op: Op, k: string)
    requires Inv(s) && Held(s, k) && Quiet(op, k) && Deadly(s, op, k)
    ensures Even(s, Step(s, op), k)
  {
    hide Flush, RunItem, RunBoot, Load, Held, PickFrom, Times;
    match op
    case PowerCut =>
    case PowerOn(readable, fate, w, plan) =>
      assert Held(PoweredUp(s), k) by {
        AfterPower(s, k);
      }
      LoadInv(PoweredUp(s), readable, fate, w);
      LoadAll(PoweredUp(s), readable, fate, w, k);
      BootEven(Load(PoweredUp(s), readable, fate, w), plan, 0, k);
    case Tick(p) =>
      var i := PickFrom(s.items, p.now, 0);
      if s.alive && s.on && i != -1 {
        NotDue(s, i, p.now, k);
        RunEven(s, i, p, k);
      }
    case RunNow(name, p) =>
      var i := IndexOf(s.items, name, 0);
      if s.alive && i != -1 {
        RunEven(s, i, p, k);
      }
    case Save(it, w) => EditLogs(s, w);
    case Remove(name, w) => EditLogs(s, w);
    case Enable(name, flag, w) => EditLogs(s, w);
    case Switch(flag) =>
  }

  lemma AfterPower(s: Sys, k: string)
    requires Held(s, k)
    ensures Held(PoweredUp(s), k)
  {
  }

  lemma EditLogs(s: Sys, w: Write)
    ensures forall items :: var r := Flush(s.(items := items), w); r.started == s.started && r.killed == s.killed
  {
  }

  lemma {:induction false} AlwaysEven(s: Sys, ops: seq<Op>, k: string)
    requires Inv(s) && Held(s, k) && QuietRun(ops, k) && DeadlyRun(s, ops, k)
    ensures Even(s, Run(s, ops), k)
    decreases |ops|
  {
    hide Step, OnceMore, Inv, Held, Quiet, Marks, Deadly, Times;
    if ops != [] {
      var r := Step(s, ops[0]);
      StepKeeps(s, ops[0]);
      StepOnce(s, ops[0], k);
      Heeds(s, r, k);
      StepEven(s, ops[0], k);
      AlwaysEven(r, ops[1..], k);
    }
  }

  /** An item whose action kills the machine whenever it is begun is started at most
      once over any such history. */
  lemma StartedOnce(s: Sys, ops: seq<Op>, k: string)
    requires Inv(s) && Held(s, k) && QuietRun(ops, k) && DeadlyRun(s, ops, k)
    ensures Times(Run(s, ops).started, k) <= Times(s.started, k) + 1
  {
    hide Run, Held, Spent, DeadlyRun, Inv, QuietRun;
    KilledOnce(s, ops, k);
    AlwaysEven(s, ops, k);
  }

  // ---- what the marker does not do ------------------------------------------------------------------

  function BootItem(name: string): Item { Item(name, Boot, true, false, 10000, 64, 0, 0, 0) }

  /** With the marker write refused, the same item kills the machine again. */
  lemma RefusedMarkerKillsTwice(fate: nat -> Fate)
    requires fate(0) == Fine
    ensures var s := Sys(Good([BootItem("a")]), false, [], true, 0, [], []);
            var boot := PowerOn(true, fate, Written, _ => Plan(0, Refused, Kills, Written, Written));
            Run(s, [boot, boot]).killed == ["a", "a"]
  {
    var s := Sys(Good([BootItem("a")]), false, [], true, 0, [], []);
    var boot := PowerOn(true, fate, Written, _ => Plan(0, Refused, Kills, Written, Written));
    RefusedBoot(s, fate);
    var r := Step(s, boot);
    RefusedBoot(r, fate);
    assert Run(s, [boot, boot]) == Run(r, [boot]);
    assert Run(r, [boot]) == Run(Step(r, boot), []);
  }

  lemma RefusedBoot(s: Sys, fate: nat -> Fate)
    requires fate(0) == Fine && s.disk == Good([BootItem("a")])
    ensures var boot := PowerOn(true, fate, Written, _ => Plan(0, Refused, Kills, Written, Written));
            var r := Step(s, boot);
            r.killed == s.killed + ["a"] && r.disk == s.disk
  {
    var got := [BootItem("a")];
    assert LoadFrom(s.disk.items, fate, 0, []) == got by {
      assert LoadFrom(got, fate, 1, got) == got;
      assert [] + [Admit(got[0])] == got;
    }
    assert !DirtyFrom(s.disk.items, fate, 0, []) by {
      assert !DirtyFrom(got, fate, 1, got);
      assert [] + [Admit(got[0])] == got;
    }
    var s0 := s.(alive := true, items := got, on := true, runs := 0);
    var p := Plan(0, Refused, Kills, Written, Written);
    assert RunBoot(RunItem(s0, 0, p), _ => p, 1) == RunItem(s0, 0, p);
  }

  // A boot reads nothing but the store, so the same boot of the same store does the
  // same again, logs apart.

  function WithLogs(s: Sys, started: seq<string>, killed: seq<string>): Sys { s.(started := started, killed := killed) }

  lemma FlushLogs(s: Sys, w: Write, b: seq<string>, a: seq<string>)
    ensures Flush(WithLogs(s, b, a), w) == WithLogs(Flush(s, w), b, a)
  {
  }

  lemma BeginLogs(s: Sys, slot: nat, mark: Write, b: seq<string>, a: seq<string>)
    requires slot < |s.items|
    ensures Begin(WithLogs(s, b, a), slot, mark) == WithLogs(Begin(s, slot, mark), b, a)
  {
    hide Flush;
    var it := s.items[slot].(runs := s.items[slot].runs + 1);
    var s1 := s.(items := s.items[slot := it], runs := s.runs + 1);
    FlushLogs(s1.(items := s1.items[slot := it.(attempting := true)]), mark, b, a);
  }

  lemma FinishLogs(s: Sys, slot: nat, p: Plan, b: seq<string>, a: seq<string>)
    requires slot < |s.items|
    ensures Finish(WithLogs(s, b, a), slot, p) == WithLogs(Finish(s, slot, p), b, a)
  {
    hide Flush, Durable, Retired;
    var s0 := s.(items := s.items[slot := s.items[slot].(attempting := false)]);
    FlushLogs(s0, p.clear, b, a);
    var s1 := if s.items[slot].attempting then Flush(s0, p.clear) else s;
    LogKept(s0, p.clear);
    if s1.alive && !p.act.NoGuard? {
      var it := s1.items[slot];
      var done := it.(failures := if p.act.Succeeds? then 0 else it.failures + 1);
      FlushLogs(s1.(items := s1.items[slot := Retired(done, p.now)]), p.retire, b, a);
    }
  }

  lemma RunItemLogs(s: Sys, slot: nat, p: Plan, b: seq<string>, a: seq<string>)
    requires slot < |s.items|
    ensures var r := RunItem(WithLogs(s, [], []), slot, p);
            RunItem(WithLogs(s, b, a), slot, p) == WithLogs(r, b + r.started, a + r.killed)
  {
    hide Begin, Finish;
    if !Refuses(s, slot) {
      BeginLogs(s, slot, p.mark, b, a);
      BeginLogs(s, slot, p.mark, [], []);
      var s1 := Begin(s, slot, p.mark);
      var name := if p.act.NoGuard? then [] else [s.items[slot].name];
      var none: seq<string> := [];
      assert none + name == name && b + none == b && a + none == a;
      if s1.alive && !p.act.Kills? {
        FinishLogs(s1, slot, p, b + name, a);
        FinishLogs(s1, slot, p, name, []);
      }
    }
  }

  lemma {:induction false} RunBootLogs(s: Sys, plan: nat -> Plan, i: nat, b: seq<string>, a: seq<string>)
    ensures var r := RunBoot(WithLogs(s, [], []), plan, i);
            RunBoot(WithLogs(s, b, a), plan, i) == WithLogs(r, b + r.started, a + r.killed)
    decreases |s.items| - i
  {
    hide RunItem;
    if s.alive && i < |s.items| {
      if !s.items[i].enabled || !s.items[i].when.Boot? {
        RunBootLogs(s, plan, i + 1, b, a);
      } else {
        var p := plan(i);
        RunKeepsLength(s, i, p);
        RunKeepsLength(WithLogs(s, b, a), i, p);
        RunKeepsLength(WithLogs(s, [], []), i, p);
        RunItemLogs(s, i, p, b, a);
        var r := RunItem(WithLogs(s, [], []), i, p);
        RunBootLogs(r, plan, i + 1, b + r.started, a + r.killed);
        RunBootLogs(r, plan, i + 1, r.started, r.killed);
        var q := RunBoot(WithLogs(r, [], []), plan, i + 1);
        assert WithLogs(r, r.started, r.killed) == r;
        assert b + r.started + q.started == b + (r.started + q.started);
        assert a + r.killed + q.killed == a + (r.killed + q.killed);
      }
    }
  }

  /** What a boot of the store `disk` does, logs apart. */
  function BootOf(disk: Disk, op: Op): Sys
    requires op.PowerOn?
  {
    RunBoot(Load(Sys(disk, true, [], true, 0, [], []), op.readable, op.fate, op.w), op.plan, 0)
  }

  lemma BootReadsStore(s: Sys, op: Op)
    requires op.PowerOn?
    ensures var r := BootOf(s.disk, op); Step(s, op) == WithLogs(r, s.started + r.started, s.killed + r.killed)
  {
    hide RunBoot, LoadFrom, DirtyFrom, Flush;
    var s0 := Sys(s.disk, true, [], true, 0, [], []);
    var s1 := Load(s0, op.readable, op.fate, op.w);
    FlushLogs(s0.(items := LoadedBy(s0, op)), op.w, s.started, s.killed);
    LogKept(s0.(items := LoadedBy(s0, op)), op.w);
    assert Load(WithLogs(s0, s.started, s.killed), op.readable, op.fate, op.w) == WithLogs(s1, s.started, s.killed);
    assert WithLogs(s1, [], []) == s1;
    RunBootLogs(s1, op.plan, 0, s.started, s.killed);
  }

  function LoadedBy(s: Sys, op: Op): seq<Item>
    requires op.PowerOn?
  {
    if s.disk.Good? then LoadFrom(s.disk.items, op.fate, 0, []) else []
  }

  /** A boot that leaves the store as it found it kills the same items again when it
      is repeated. */
  lemma BootAgain(s: Sys, op: Op)
    requires op.PowerOn? && Step(s, op).disk == s.disk
    ensures var kills := BootOf(s.disk, op).killed;
            Step(s, op).killed == s.killed + kills && Run(s, [op, op]).killed == s.killed + kills + kills
  {
    hide RunBoot, Load;
    BootReadsStore(s, op);
    var r := Step(s, op);
    BootReadsStore(r, op);
    assert Run(s, [op, op]) == Run(r, [op]);
    assert Run(r, [op]) == Run(Step(r, op), []);
  }

  /** A boot that loads entry `j` of the store alone and dies in its action. */
  function OnlyBoot(j: nat): Op {
    PowerOn(true, (i: nat) => if i == j then Fine else Unreadable, Written,
      _ => Plan(0, Written, Kills, Written, Written))
  }

  lemma {:induction false} LoadOnly(stored: seq<Item>, j: nat, i: nat)
    requires i <= j < |stored| && !stored[j].attempting
    ensures LoadFrom(stored, OnlyBoot(j).fate, i, []) == [Stored(stored[j])]
    ensures !DirtyFrom(stored, OnlyBoot(j).fate, i, [])
    decreases j - i
  {
    var fate := OnlyBoot(j).fate;
    if i < j {
      LoadOnly(stored, j, i + 1);
    } else {
      assert [] + [Admit(stored[j])] == [Stored(stored[j])];
      LoadNoMore(stored, j, j + 1, [Stored(stored[j])]);
    }
  }

  lemma {:induction false} LoadNoMore(stored: seq<Item>, j: nat, i: nat, got: seq<Item>)
    requires j < i <= |stored|
    ensures LoadFrom(stored, OnlyBoot(j).fate, i, got) == got && !DirtyFrom(stored, OnlyBoot(j).fate, i, got)
    decreases |stored| - i
  {
    if i < |stored| {
      LoadNoMore(stored, j, i + 1, got);
    }
  }

  /** An item the store has on and unmarked kills the next boot that finds it so. */
  lemma ArmedKills(s: Sys, j: nat)
    requires s.disk.Good? && j < |s.disk.items|
    requires var it := s.disk.items[j]; it.when.Boot? && it.enabled && !it.attempting
    ensures Step(s, OnlyBoot(j)).killed == s.killed + [s.disk.items[j].name]
  {
    var op, it := OnlyBoot(j), Stored(s.disk.items[j]);
    LoadOnly(s.disk.items, j, 0);
    var s1 := s.(alive := true, items := [it], on := true, runs := 0);
    assert Load(s.(alive := true, items := [], on := true, runs := 0), true, op.fate, op.w) == s1;
    var r := RunItem(s1, 0, op.plan(0));
    assert r.killed == s.killed + [it.name] && !r.alive;
    assert RunBoot(s1, op.plan, 0) == RunBoot(r, op.plan, 1);
  }

  /** When can a boot item that has just killed the machine kill it again, at a boot
      nobody meddled with and whose marker writes are not refused? Exactly when its
      own marker write was refused while the store had it on and unmarked. */
  lemma KillsAgainIff(s: Sys, slot: nat, p: Plan)
    requires Inv(s) && s.alive && slot < |s.items| && s.items[slot].when.Boot? && Held(s, s.items[slot].name)
    requires !Refuses(s, slot) && p.act.Kills? && Begin(s, slot, p.mark).alive
    ensures var r, k := RunItem(s, slot, p), s.items[slot].name;
            (exists op: Op :: op.PowerOn? && Marks(op) && Times(Step(r, op).killed, k) > Times(r.killed, k)) <==>
            p.mark.Refused? && !OffOrMarked(s.disk, k)
  {
    hide RunItem, Begin, Inv, Held, Times, Step;
    var r, k := RunItem(s, slot, p), s.items[slot].name;
    KillSpends(s, slot, p);
    RunItemHeld(s, slot, p, k);
    RunItemKeeps(s, slot, p);
    if p.mark.Refused? && !OffOrMarked(s.disk, k) {
      assert !r.alive by {
        KillDies(s, slot, p);
      }
      NotSpent(r, k);
      var j :| 0 <= j < |r.disk.items| && r.disk.items[j].name == k && r.disk.items[j].enabled
        && !r.disk.items[j].attempting;
      HeldOnDisk(r, k, j);
      ArmedKills(r, j);
      TimesMore(r.killed, k, k);
      assert OnlyBoot(j).PowerOn? && Marks(OnlyBoot(j));
    } else {
      forall op: Op | op.PowerOn? && Marks(op)
        ensures Times(Step(r, op).killed, k) == Times(r.killed, k)
      {
        StepOnce(r, op, k);
      }
    }
  }

  lemma KillDies(s: Sys, slot: nat, p: Plan)
    requires slot < |s.items| && !Refuses(s, slot) && p.act.Kills?
    ensures !RunItem(s, slot, p).alive
  {
    hide Begin;
  }

  lemma NotSpent(r: Sys, k: string)
    requires !Spent(r, k) && !r.alive
    ensures r.disk.Good?
    ensures exists j ::
              0 <= j < |r.disk.items| && r.disk.items[j].name == k && r.disk.items[j].enabled
              && !r.disk.items[j].attempting
  {
  }

  lemma HeldOnDisk(r: Sys, k: string, j: nat)
    requires Held(r, k) && r.disk.Good? && j < |r.disk.items| && r.disk.items[j].name == k
    ensures r.disk.items[j].when.Boot?
  {
  }

  /** A boot item that ran is off in memory while the store still has it on; the
      next write of the store, for whatever reason, makes that durable. */
  lemma RanThenWritten(s: Sys, slot: nat, p: Plan)
    requires Inv(s) && s.alive && slot < |s.items| && s.items[slot].when.Boot? && s.items[slot].enabled
    requires !Refuses(s, slot)
    requires p.mark.Written? && p.clear.Written? && p.act.Succeeds?
    ensures var r := RunItem(s, slot, p);
            && r.disk.Good? && |r.disk.items| == |s.items| && r.disk.items[slot].enabled
            && !r.disk.items[slot].attempting
            && !r.items[slot].enabled
            && Flush(r, Written).disk.Good? && !Flush(r, Written).disk.items[slot].enabled
  {
    hide Inv;
  }
}
