// What the agenda's operations do to its items: which one a tick starts and when,
// how a run is accounted for, and what an edit changes.

module AgendaLaws {
  import opened Agenda

  // ---- which item a tick starts --------------------------------------------------------------------

  /** An enabled timed item with runs left whose time has come. */
  predicate TimeHasCome(it: Item, now: nat) {
    it.enabled && it.runs < it.maxRuns && (it.when == Once || (it.when == Every && it.next <= now))
  }

  predicate FirstDue(items: seq<Item>, now: nat, i: int) {
    0 <= i < |items| && TimeHasCome(items[i], now) && forall j :: 0 <= j < i ==> !TimeHasCome(items[j], now)
  }

  lemma {:induction false} PickIs(items: seq<Item>, now: nat, i: nat)
    ensures var r := PickFrom(items, now, i);
            if r == -1 then forall j :: i <= j < |items| ==> !TimeHasCome(items[j], now)
            else
              && i <= r < |items| && TimeHasCome(items[r], now)
              && forall j :: i <= j < r ==> !TimeHasCome(items[j], now)
    decreases |items| - i
  {
    if i < |items| && !Due(items[i], now) {
      PickIs(items, now, i + 1);
    }
  }

  /** A tick runs the first item whose time has come, if the agenda is on, and
      nothing else: no boot item, none that is off or used up, none early. */
  lemma TickDoes(s: Sys, p: Plan)
    ensures var r := Step(s, Tick(p));
            if s.alive && s.on && exists i :: 0 <= i < |s.items| && TimeHasCome(s.items[i], p.now)
            then exists i: nat :: FirstDue(s.items, p.now, i) && r == RunItem(s, i, p)
            else r == s
  {
    hide RunItem;
    PickIs(s.items, p.now, 0);
    var i := PickFrom(s.items, p.now, 0);
    if s.alive && s.on && i != -1 {
      assert FirstDue(s.items, p.now, i);
    }
  }

  // ---- how a run is accounted for --------------------------------------------------------------------

  /** Only item `i` differs. */
  predicate OnlyItem(s: Sys, r: Sys, i: int) {
    |r.items| == |s.items| && forall j :: 0 <= j < |s.items| && j != i ==> r.items[j] == s.items[j]
  }

  /** A timed item whose action came back: one run more, failures counted in a row, off
      after three of them or when its runs are used up or it was to run once; else
      due again one period later. */
  lemma TimedRun(s: Sys, i: nat, p: Plan)
    requires s.alive && s.on && s.runs < MAX_RUNS_TOTAL && i < |s.items| && !s.items[i].when.Boot?
    requires !s.items[i].attempting && (p.act.Fails? || p.act.Succeeds?)
    ensures var r, was := RunItem(s, i, p), s.items[i];
            var failures := if p.act.Succeeds? then 0 else was.failures + 1;
            && OnlyItem(s, r, i) && r.started == s.started + [was.name] && r.killed == s.killed
            && r.runs == s.runs + 1
            && r.items[i].name == was.name && r.items[i].when == was.when && r.items[i].runs == was.runs + 1
            && r.items[i].failures == failures
            && (r.items[i].enabled <==>
                  was.enabled && failures < 3 && was.runs + 1 < was.maxRuns && was.when == Every)
            && (was.when == Every && failures < 3 && was.runs + 1 < was.maxRuns ==>
                  r.items[i].next == p.now + was.period)
  {
    LogsKept(s, p.retire);
  }

  lemma LogsKept(s: Sys, w: Write)
    ensures forall t: Sys ::
              var r := Flush(t, w);
              r.items == t.items && r.started == t.started && r.killed == t.killed && r.runs == t.runs
  {
  }

  /** One not attempted, because no guard could be armed, costs no run. */
  lemma NotAttempted(s: Sys, i: nat, p: Plan)
    requires s.alive && s.on && s.runs < MAX_RUNS_TOTAL && i < |s.items| && !s.items[i].when.Boot?
    requires !s.items[i].attempting && p.act.NoGuard?
    ensures var r := RunItem(s, i, p);
            OnlyItem(s, r, i) && r.items[i] == s.items[i] && r.started == s.started && r.runs == s.runs
  {
  }

  /** With the agenda off or the budget of 256 runs spent nothing is started; the item
      is switched off in memory if the budget was the reason. */
  lemma RunRefused(s: Sys, i: nat, p: Plan)
    requires i < |s.items| && (!s.on || s.runs >= MAX_RUNS_TOTAL)
    ensures var r := RunItem(s, i, p);
            && r.started == s.started && r.killed == s.killed && r.disk == s.disk && OnlyItem(s, r, i)
            && r.items[i] == (if s.on then s.items[i].(enabled := false) else s.items[i])
  {
  }

  // ---- boot ------------------------------------------------------------------------------------------

  /** A write the machine survives, whether or not the store took it. */
  predicate Survives(w: Write) { w.Written? || w.Refused? || w.Halfway? }

  /** An action that comes back, between writes the machine survives. */
  predicate Calm(p: Plan) {
    (p.act.Fails? || p.act.Succeeds?) && Survives(p.mark) && Survives(p.clear) && Survives(p.retire)
  }

  ghost predicate AllCalm(plan: nat -> Plan) { forall j: nat :: Calm(plan(j)) }

  lemma FlushDoes(s: Sys, w: Write)
    requires s.alive && Survives(w)
    ensures var r := Flush(s, w); r == s.(disk := r.disk)
  {
  }

  /** A boot item that ran is counted, unmarked and off; the rest is as it was. */
  predicate Booted(s: Sys, r: Sys, i: int) {
    && OnlyItem(s, r, i) && 0 <= i < |s.items| && r.items[i].name == s.items[i].name
    && r.items[i].when == s.items[i].when && r.items[i].runs == s.items[i].runs + 1
    && !r.items[i].enabled && !r.items[i].attempting
    && r.alive && r.on == s.on && r.runs == s.runs + 1 && r.killed == s.killed
    && r.started == s.started + [s.items[i].name]
  }

  lemma BootRun(s: Sys, i: nat, p: Plan)
    requires s.alive && s.on && s.runs < MAX_RUNS_TOTAL && i < |s.items| && s.items[i].when.Boot? && Calm(p)
    ensures Booted(s, RunItem(s, i, p), i)
  {
    hide Flush;
    var it := s.items[i].(runs := s.items[i].runs + 1);
    var s1 := s.(items := s.items[i := it], runs := s.runs + 1);
    FlushDoes(s1.(items := s1.items[i := it.(attempting := true)]), p.mark);
    var s2 := Begin(s, i, p.mark);
    var s3 := s2.(started := s2.started + [s.items[i].name]);
    FlushDoes(s3.(items := s3.items[i := s3.items[i].(attempting := false)]), p.clear);
    BootFinishes(s3, i, p);
  }

  lemma BootFinishes(s: Sys, i: nat, p: Plan)
    requires s.alive && i < |s.items| && s.items[i].when.Boot? && Calm(p)
    ensures var r := Finish(s, i, p);
            && OnlyItem(s, r, i) && r == s.(items := r.items, disk := r.disk)
            && r.items[i].name == s.items[i].name && r.items[i].when == s.items[i].when
            && r.items[i].runs == s.items[i].runs && !r.items[i].enabled && !r.items[i].attempting
  {
    hide Flush;
    var s1 := s.(items := s.items[i := s.items[i].(attempting := false)]);
    FlushDoes(s1, p.clear);
    var s2 := if s.items[i].attempting then Flush(s1, p.clear) else s;
    var it := s2.items[i];
    var done := it.(failures := if p.act.Succeeds? then 0 else it.failures + 1);
    FlushDoes(s2.(items := s2.items[i := Retired(done, p.now)]), p.retire);
  }

  /** The names of the boot items that are on, from `i` on. */
  function BootNames(items: seq<Item>, i: nat): seq<string>
    decreases |items| - i
  {
    if i >= |items| then []
    else (if items[i].enabled && items[i].when.Boot? then [items[i].name] else []) + BootNames(items, i + 1)
  }

  lemma {:induction false} SameNames(a: seq<Item>, b: seq<Item>, i: nat)
    requires |a| == |b| && forall j :: i <= j < |a| ==> a[j] == b[j]
    ensures BootNames(a, i) == BootNames(b, i)
    decreases |a| - i
  {
    if i < |a| {
      SameNames(a, b, i + 1);
    }
  }

  /** Every boot item that was on ran once and is off; the others are as they were. */
  predicate AllBooted(a: seq<Item>, b: seq<Item>, i: nat) {
    |a| == |b| && forall j :: 0 <= j < |a| ==>
      if j >= i && a[j].enabled && a[j].when.Boot? then b[j].runs == a[j].runs + 1 && !b[j].enabled else b[j] == a[j]
  }

  lemma {:induction false} BootFrom(s: Sys, plan: nat -> Plan, i: nat)
    requires s.alive && s.on && i <= |s.items| && s.runs + |s.items| - i <= MAX_RUNS_TOTAL
    requires AllCalm(plan)
    ensures var r := RunBoot(s, plan, i);
            && r.alive && r.started == s.started + BootNames(s.items, i) && r.killed == s.killed
            && AllBooted(s.items, r.items, i)
    decreases |s.items| - i
  {
    hide RunItem, RunBoot, AllCalm, Calm, Booted, AllBooted, BootNames;
    if i == |s.items| {
      BootOver(s, plan);
    } else {
      BootOpens(s, plan, i);
      if s.items[i].enabled && s.items[i].when.Boot? {
        var s1 := RunItem(s, i, plan(i));
        OneCalm(plan, i);
        BootRun(s, i, plan(i));
        BootedSo(s, s1, i);
        BootFrom(s1, plan, i + 1);
        BootJoins(s, s1, RunBoot(s1, plan, i + 1), i);
      } else {
        BootFrom(s, plan, i + 1);
        BootSkips(s, RunBoot(s, plan, i + 1), i);
      }
    }
  }

  lemma OneCalm(plan: nat -> Plan, i: nat)
    requires AllCalm(plan)
    ensures Calm(plan(i))
  {
  }

  lemma BootOver(s: Sys, plan: nat -> Plan)
    ensures RunBoot(s, plan, |s.items|) == s && BootNames(s.items, |s.items|) == []
    ensures s.started + [] == s.started && AllBooted(s.items, s.items, |s.items|)
  {
  }

  lemma BootedSo(s: Sys, r: Sys, i: nat)
    requires Booted(s, r, i)
    ensures |r.items| == |s.items| && r.alive && r.on == s.on && r.runs == s.runs + 1 && r.killed == s.killed
  {
  }

  lemma BootOpens(s: Sys, plan: nat -> Plan, i: nat)
    requires s.alive && i < |s.items|
    ensures RunBoot(s, plan, i) ==
            if !s.items[i].enabled || !s.items[i].when.Boot? then RunBoot(s, plan, i + 1)
            else RunBoot(RunItem(s, i, plan(i)), plan, i + 1)
  {
    hide RunItem;
  }

  lemma BootJoins(s: Sys, s1: Sys, r: Sys, i: nat)
    requires Booted(s, s1, i) && s.items[i].enabled && s.items[i].when.Boot?
    requires r.started == s1.started + BootNames(s1.items, i + 1) && AllBooted(s1.items, r.items, i + 1)
    ensures r.started == s.started + BootNames(s.items, i) && AllBooted(s.items, r.items, i)
  {
    SameNames(s.items, s1.items, i + 1);
    assert s1.started + BootNames(s.items, i + 1) == s.started + ([s.items[i].name] + BootNames(s.items, i + 1));
  }

  lemma BootSkips(s: Sys, r: Sys, i: nat)
    requires i < |s.items| && !(s.items[i].enabled && s.items[i].when.Boot?)
    requires r.started == s.started + BootNames(s.items, i + 1) && AllBooted(s.items, r.items, i + 1)
    ensures r.started == s.started + BootNames(s.items, i) && AllBooted(s.items, r.items, i)
  {
    assert [] + BootNames(s.items, i + 1) == BootNames(s.items, i + 1);
  }

  /** At power-on the boot items that come back from the store switched on run once
      each, in their order, and nothing else does. */
  lemma PowerOnDoes(s: Sys, readable: bool, fate: nat -> Fate, w: Write, plan: nat -> Plan)
    requires Survives(w) && AllCalm(plan)
    ensures var got := Load(s.(alive := true, items := [], on := true, runs := 0), readable, fate, w).items;
            var r := Step(s, PowerOn(readable, fate, w, plan));
            && r.alive && r.started == s.started + BootNames(got, 0) && r.killed == s.killed
            && AllBooted(got, r.items, 0)
  {
    hide Flush, LoadFrom, DirtyFrom, RunBoot, AllCalm;
    var s0 := s.(alive := true, items := [], on := true, runs := 0);
    var s1 := Load(s0, readable, fate, w);
    if readable && s.disk.Good? {
      LoadKeeps(s.disk.items, fate, 0, []);
      FlushDoes(s0.(items := LoadFrom(s.disk.items, fate, 0, [])), w);
    }
    BootFrom(s1, plan, 0);
  }

  // ---- edits -----------------------------------------------------------------------------------------

  /** The store holds the items as they are in memory, counters aside. */
  predicate OnDisk(s: Sys) {
    s.disk.Good? && |s.disk.items| == |s.items| && forall i :: 0 <= i < |s.items| ==>
      s.disk.items[i] == s.items[i].(runs := 0, failures := 0, next := 0)
  }

  lemma WrittenOut(s: Sys, w: Write)
    ensures var r := Flush(s, w);
            && r.items == s.items && r.started == s.started && r.killed == s.killed
            && (w.Written? ==> OnDisk(r) && r.alive == s.alive)
  {
  }

  predicate Called(items: seq<Item>, name: string) { exists i :: 0 <= i < |items| && items[i].name == name }

  lemma {:induction false} IndexIs(items: seq<Item>, name: string, i: nat)
    ensures var r := IndexOf(items, name, i);
            && (r == -1 <==> forall j :: i <= j < |items| ==> items[j].name != name)
            && (r != -1 ==> i <= r < |items| && items[r].name == name)
    decreases |items| - i
  {
    if i < |items| && items[i].name != name {
      IndexIs(items, name, i + 1);
    }
  }

  /** Enabling or disabling sets the flag of the item called that, and enabling
      forgives its failures; nothing else changes, and the store has it. */
  lemma EnableDoes(s: Sys, name: string, flag: bool, w: Write) returns (i: int)
    requires s.alive
    ensures var r := Step(s, Enable(name, flag, w));
            if !Called(s.items, name) then r == s
            else
              && 0 <= i < |s.items| && s.items[i].name == name && OnlyItem(s, r, i)
              && r.items[i] == s.items[i].(enabled := flag, failures := if flag then 0 else s.items[i].failures)
              && (w.Written? ==> OnDisk(r))
  {
    IndexIs(s.items, name, 0);
    i := IndexOf(s.items, name, 0);
    if i != -1 {
      var it := s.items[i];
      WrittenOut(s.(items := s.items[i := it.(enabled := flag, failures := if flag then 0 else it.failures)]), w);
    }
  }

  /** What was asked for, with nothing run yet and no marker. */
  predicate AsAsked(got: Item, it: Item) {
    && got.name == it.name && got.when == it.when && got.enabled == it.enabled && got.period == it.period
    && got.maxRuns == it.maxRuns && !got.attempting && got.runs == 0 && got.failures == 0 && got.next == 0
  }

  /** A save puts the item in place of the one with its name, or after the others; it
      is refused only when it is new and there is no room. */
  lemma SaveDoes(s: Sys, it: Item, w: Write) returns (i: int)
    requires s.alive
    ensures var r := Step(s, Save(it, w));
            if !Called(s.items, it.name) && |s.items| >= MAX_ITEMS then r == s
            else
              && 0 <= i < |r.items| && AsAsked(r.items[i], it) && (w.Written? ==> OnDisk(r))
              && (if Called(s.items, it.name) then |r.items| == |s.items| && s.items[i].name == it.name
                  else i == |s.items| == |r.items| - 1)
              && forall j :: 0 <= j < |s.items| && j != i ==> r.items[j] == s.items[j]
  {
    IndexIs(s.items, it.name, 0);
    i := IndexOf(s.items, it.name, 0);
    var clean := Stored(it).(attempting := false);
    if i >= 0 {
      WrittenOut(s.(items := s.items[i := clean]), w);
    } else {
      i := |s.items|;
      WrittenOut(s.(items := s.items + [clean]), w);
    }
  }

  /** A removal takes out the item called that and keeps the others in order. */
  lemma RemoveDoes(s: Sys, name: string, w: Write) returns (i: int)
    requires s.alive
    ensures var r := Step(s, Remove(name, w));
            if !Called(s.items, name) then r == s
            else
              && 0 <= i < |s.items| && s.items[i].name == name && r.items == s.items[..i] + s.items[i + 1..]
              && (DistinctNames(s.items) ==> !Called(r.items, name)) && (w.Written? ==> OnDisk(r))
  {
    IndexIs(s.items, name, 0);
    i := IndexOf(s.items, name, 0);
    RemoveOpens(s, name, w, i);
    hide IndexOf, Step, Flush, OnDisk, DistinctNames;
    if i != -1 {
      WrittenOut(s.(items := s.items[..i] + s.items[i + 1..]), w);
      TakenOut(s.items, i);
      hide Called;
    }
  }

  lemma RemoveOpens(s: Sys, name: string, w: Write, i: int)
    requires s.alive && i == IndexOf(s.items, name, 0) < |s.items|
    ensures Step(s, Remove(name, w)) ==
            if i == -1 then s else Flush(s.(items := s.items[..i] + s.items[i + 1..]), w)
  {
    hide Flush, IndexOf;
  }

  lemma TakenOut(items: seq<Item>, i: nat)
    requires i < |items|
    ensures DistinctNames(items) ==> !Called(items[..i] + items[i + 1..], items[i].name)
  {
    var rest := items[..i] + items[i + 1..];
    if DistinctNames(items) {
      forall j | 0 <= j < |rest|
        ensures rest[j].name != items[i].name
      {
        assert rest[j] == items[if j < i then j else j + 1];
      }
    }
  }

  /** Running by name runs that item, whatever its time. */
  lemma RunNowDoes(s: Sys, name: string, p: Plan)
    requires s.alive
    ensures var r := Step(s, RunNow(name, p));
            if !Called(s.items, name) then r == s
            else exists i: nat :: i < |s.items| && s.items[i].name == name && r == RunItem(s, i, p)
  {
    hide RunItem;
    IndexIs(s.items, name, 0);
    var i := IndexOf(s.items, name, 0);
    if i != -1 {
      assert s.items[i].name == name && Step(s, RunNow(name, p)) == RunItem(s, i, p);
    }
  }

  // ---- loading ---------------------------------------------------------------------------------------

  /** As stored; but one found marked, because the machine died in it, is off. */
  predicate AsStored(got: Item, it: Item) {
    && got.name == it.name && got.when == it.when && got.period == it.period && got.maxRuns == it.maxRuns
    && (got.enabled <==> it.enabled && !it.attempting) && !got.attempting
    && got.runs == 0 && got.failures == 0 && got.next == 0
  }

  /** A store of few enough usable items with different names comes back whole. */
  lemma LoadDoes(s: Sys, fate: nat -> Fate, w: Write)
    requires s.disk.Good? && |s.disk.items| <= MAX_ITEMS && DistinctNames(s.disk.items)
    requires forall i: nat :: i < |s.disk.items| ==> fate(i) == Fine
    ensures var r := Load(s, true, fate, w);
            |r.items| == |s.disk.items| && forall i :: 0 <= i < |r.items| ==> AsStored(r.items[i], s.disk.items[i])
  {
    hide Flush, LoadFrom, DirtyFrom;
    LoadedFrom(s.disk.items, fate, 0, []);
    LogKept(s.(items := LoadFrom(s.disk.items, fate, 0, [])), w);
  }

  lemma {:induction false} LoadedFrom(stored: seq<Item>, fate: nat -> Fate, i: nat, got: seq<Item>)
    requires i == |got| <= |stored| <= MAX_ITEMS && DistinctNames(stored)
    requires forall j: nat :: j < |stored| ==> fate(j) == Fine
    requires forall j :: 0 <= j < |got| ==> AsStored(got[j], stored[j])
    ensures var r := LoadFrom(stored, fate, i, got);
            |r| == |stored| && forall j :: 0 <= j < |r| ==> AsStored(r[j], stored[j])
    decreases |stored| - i
  {
    if i < |stored| {
      assert !Named(got, stored[i].name);
      LoadedFrom(stored, fate, i + 1, got + [Admit(stored[i])]);
    }
  }
}
