// The agenda's table in place: a fixed array of items and the store, each
// operation equal to its counterpart on values.

module AgendaTable {
  import opened Agenda

  class Table {
    const item: array<Item>
    var n: nat
    var on: bool
    var running: bool
    var runs: nat
    var disk: Disk
    var alive: bool
    ghost var started: seq<string>
    ghost var killed: seq<string>

    ghost predicate Valid()
      reads this, item
    {
      n <= item.Length == MAX_ITEMS && (alive ==> !running)
    }

    ghost predicate Shaped()
      reads this, item
    {
      n <= item.Length == MAX_ITEMS
    }

    ghost function Abs(): Sys
      requires Shaped()
      reads this, item
    {
      Sys(disk, alive, item[..n], on, runs, started, killed)
    }

    /** A machine that is off, with this store. */
    constructor (store: Disk)
      ensures Valid() && fresh(item) && Abs() == Sys(store, false, [], true, 0, [], [])
    {
      item := new Item[MAX_ITEMS](_ => Item("", Boot, false, false, 0, 0, 0, 0, 0));
      n, on, running, runs, disk, alive, started, killed := 0, true, false, 0, store, false, [], [];
    }

    method WriteStore(w: Write) returns (ok: bool)
      requires Shaped()
      modifies this`disk, this`alive
      ensures Shaped() && Abs() == Flush(old(Abs()), w)
      ensures ok <==> w.Written?
    {
      ok := w.Written?;
      match w
      case Written =>
        disk := Good(Render(item[..n]));
      case Refused =>
      case Halfway =>
        disk := Spoilt;
      case DiesBefore =>
        alive := false;
      case DiesDuring =>
        disk, alive := Spoilt, false;
      case DiesAfter =>
        disk, alive := Good(Render(item[..n])), false;
    }

    method Put(slot: nat, it: Item)
      requires Shaped() && slot < n
      modifies item
      ensures item[..n] == old(item[..n])[slot := it]
      ensures item[slot] == it
    {
      item[slot] := it;
    }

    method Find(name: string) returns (i: int)
      requires Shaped()
      ensures i == IndexOf(Abs().items, name, 0)
    {
      i := 0;
      while i < n
        invariant 0 <= i <= n && IndexOf(item[..n], name, 0) == IndexOf(item[..n], name, i)
      {
        if item[i].name == name {
          return;
        }
        i := i + 1;
      }
      i := -1;
    }

    method PickDue(now: nat) returns (i: int)
      requires Shaped()
      ensures i == PickFrom(Abs().items, now, 0)
    {
      i := 0;
      while i < n
        invariant 0 <= i <= n && PickFrom(item[..n], now, 0) == PickFrom(item[..n], now, i)
      {
        if Due(item[i], now) {
          return;
        }
        i := i + 1;
      }
      i := -1;
    }

    /** Reads the store into the table, retiring whatever it finds marked. */
    method LoadStore(readable: bool, fate: nat -> Fate, w: Write)
      requires Valid() && alive
      modifies this`n, item, this`disk, this`alive
      ensures Valid() && Abs() == Load(old(Abs()), readable, fate, w)
    {
      hide Flush, IndexOf;
      n := 0;
      if !readable || !disk.Good? {
        return;
      }
      var stored, dirty, i := disk.items, false, 0;
      while i < |stored| && n < MAX_ITEMS
        invariant 0 <= i <= |stored| && Valid() && alive
        invariant disk == old(disk)
        invariant LoadFrom(stored, fate, 0, []) == LoadFrom(stored, fate, i, item[..n])
        invariant DirtyFrom(stored, fate, 0, []) == (dirty || DirtyFrom(stored, fate, i, item[..n]))
      {
        var it := stored[i];
        if !fate(i).Unreadable? {
          dirty := dirty || it.attempting;
          var at := Find(it.name);
          NamedIs(item[..n], it.name, at);
          if fate(i).Fine? && at == -1 {
            ghost var got := item[..n];
            item[n] := Admit(it);
            n := n + 1;
            assert item[..n] == got + [Admit(it)];
          }
        }
        i := i + 1;
      }
      if dirty {
        var ok := WriteStore(w);
      }
    }

    /** One run of the item in cell `slot`. */
    method RunOne(slot: nat, p: Plan)
      requires Valid() && alive && slot < n && NoneMarked(Abs().items)
      modifies this, item
      ensures Valid() && Abs() == RunItem(old(Abs()), slot, p) && n == old(n)
    {
      hide Flush, Account;
      if !on || running {
        return;
      }
      if runs >= MAX_RUNS_TOTAL {
        Put(slot, item[slot].(enabled := false));
        return;
      }
      var name := item[slot].name;
      var marked := Mark(slot, p.mark);
      if !alive {
        return;
      }
      if !p.act.NoGuard? {
        started := started + [name];
      }
      if p.act.Kills? {
        alive := false;
        killed := killed + [name];
        return;
      }
      if marked {
        Put(slot, item[slot].(attempting := false));
        var ok := WriteStore(p.clear);
      }
      if !alive {
        return;
      }
      running := false;
      Settle(slot, p);
    }

    /** Counts the run and, for a boot item, records on disk that it is about to
        be tried. */
    method Mark(slot: nat, w: Write) returns (marked: bool)
      requires Valid() && alive && slot < n && NoneMarked(Abs().items)
      modifies this`running, this`runs, this`disk, this`alive, item
      ensures Shaped() && Abs() == Begin(old(Abs()), slot, w)
      ensures alive ==> marked == item[slot].attempting
    {
      running := true;
      Put(slot, item[slot].(runs := item[slot].runs + 1));
      runs := runs + 1;
      marked := item[slot].when.Boot?;
      if marked {
        Put(slot, item[slot].(attempting := true));
        var ok := WriteStore(w);
        if !ok && alive {
          Put(slot, item[slot].(attempting := false));
          marked := false;
        }
      }
    }

    /** Accounts for a run that came back, retiring the item where due. */
    method Settle(slot: nat, p: Plan)
      requires Shaped() && alive && slot < n
      modifies this`runs, this`disk, this`alive, item
      ensures Shaped() && Abs() == Account(old(Abs()), slot, p)
    {
      hide Flush;
      if p.act.NoGuard? {
        Put(slot, item[slot].(runs := if item[slot].runs > 0 then item[slot].runs - 1 else 0));
        if runs > 0 {
          runs := runs - 1;
        }
        return;
      }
      var it, durable := item[slot].(failures := if p.act.Succeeds? then 0 else item[slot].failures + 1), false;
      if it.failures >= MAX_FAILURES {
        Put(slot, it.(enabled := false));
        durable := true;
      } else if it.runs >= it.maxRuns {
        Put(slot, it.(enabled := false));
      } else if it.when.Once? {
        Put(slot, it.(enabled := false));
        durable := true;
      } else if it.when.Boot? {
        Put(slot, it.(enabled := false));
      } else {
        Put(slot, it.(next := p.now + it.period));
      }
      if durable {
        var ok := WriteStore(p.retire);
      }
    }

    /** Every enabled boot item in order, until the table ends or the machine does. */
    method RunBootItems(plan: nat -> Plan)
      requires Valid() && Inv(Abs())
      modifies this, item
      ensures Valid() && Abs() == RunBoot(old(Abs()), plan, 0)
    {
      hide RunItem, Inv;
      if !alive {
        return;
      }
      var i := 0;
      while i < n
        invariant Valid() && Inv(Abs()) && 0 <= i <= n && alive
        invariant RunBoot(old(Abs()), plan, 0) == RunBoot(Abs(), plan, i)
      {
        if item[i].enabled && item[i].when.Boot? {
          Unmarked(Abs());
          RunItemKeeps(Abs(), i, plan(i));
          RunOne(i, plan(i));
          if !alive {
            return;
          }
        }
        i := i + 1;
      }
    }

    /** Power on: an empty memory, the store, the boot items. */
    method BringUp(readable: bool, fate: nat -> Fate, w: Write, plan: nat -> Plan)
      requires Valid() && Inv(Abs())
      modifies this, item
      ensures Valid() && Abs() == Step(old(Abs()), PowerOn(readable, fate, w, plan))
    {
      hide RunBoot, Load;
      alive, running, n, on, runs := true, false, 0, true, 0;
      LoadInv(Abs(), readable, fate, w);
      LoadStore(readable, fate, w);
      RunBootItems(plan);
    }

    method TickOnce(p: Plan)
      requires Valid() && Inv(Abs())
      modifies this, item
      ensures Valid() && Abs() == Step(old(Abs()), Tick(p))
    {
      hide RunItem;
      if !alive || !on || running {
        return;
      }
      var i := PickDue(p.now);
      if i != -1 {
        RunOne(i, p);
      }
    }

    method SaveOne(it: Item, w: Write)
      requires Valid() && Inv(Abs()) && alive
      modifies this`n, this`disk, this`alive, item
      ensures Valid() && Abs() == Step(old(Abs()), Save(it, w))
    {
      hide Flush, Inv, IndexOf, RunBoot, Load, RunItem, RemoveItem, SetEnabled, PickFrom;
      var i := Find(it.name);
      if i == -1 {
        if n >= MAX_ITEMS {
          return;
        }
        ghost var was := item[..n];
        item[n] := Stored(it).(attempting := false);
        n := n + 1;
        assert item[..n] == was + [Stored(it).(attempting := false)];
      } else {
        Put(i, Stored(it).(attempting := false));
      }
      var ok := WriteStore(w);
    }

    /** Moves every item after cell `i` down by one. */
    method CloseGap(i: nat)
      requires Shaped() && i < n
      modifies this`n, item
      ensures Shaped() && item[..n] == old(item[..n])[..i] + old(item[..n])[i + 1..]
    {
      ghost var was := item[..n];
      var j := i;
      while j + 1 < n
        invariant i <= j < n == |was| <= item.Length
        invariant forall x :: 0 <= x < i ==> item[x] == was[x]
        invariant forall x :: i <= x < j ==> item[x] == was[x + 1]
        invariant forall x :: j < x < n ==> item[x] == was[x]
      {
        item[j] := item[j + 1];
        j := j + 1;
      }
      n := n - 1;
    }

    method RemoveOne(name: string, w: Write)
      requires Valid() && Inv(Abs()) && alive
      modifies this`n, this`disk, this`alive, item
      ensures Valid() && Abs() == Step(old(Abs()), Remove(name, w))
    {
      hide Flush, Inv, IndexOf, Step;
      RemoveNothing(Abs(), name, w);
      var i := Find(name);
      if i == -1 {
        return;
      }
      RemoveOpens(Abs(), name, w, i);
      CloseGap(i);
      var ok := WriteStore(w);
    }

    method EnableOne(name: string, flag: bool, w: Write)
      requires Valid() && Inv(Abs()) && alive
      modifies this`disk, this`alive, item
      ensures Valid() && Abs() == Step(old(Abs()), Enable(name, flag, w))
    {
      hide Flush, Inv, IndexOf, RunBoot, Load, RunItem, SaveItem, RemoveItem, PickFrom;
      var i := Find(name);
      if i == -1 {
        return;
      }
      Put(i, item[i].(enabled := flag, failures := if flag then 0 else item[i].failures));
      var ok := WriteStore(w);
    }
  }

  lemma RemoveOpens(s: Sys, name: string, w: Write, i: int)
    requires s.alive && i == IndexOf(s.items, name, 0) && i != -1
    ensures Step(s, Remove(name, w)) == Flush(s.(items := s.items[..i] + s.items[i + 1..]), w)
  {
    hide Flush;
  }

  lemma RemoveNothing(s: Sys, name: string, w: Write)
    ensures s.alive && IndexOf(s.items, name, 0) == -1 ==> Step(s, Remove(name, w)) == s
  {
    hide Flush;
  }

  lemma Unmarked(s: Sys)
    requires Inv(s) && s.alive
    ensures NoneMarked(s.items)
  {
  }

  lemma NamedIs(items: seq<Item>, name: string, at: int)
    requires at == IndexOf(items, name, 0)
    ensures Named(items, name) <==> at != -1
  {
    IndexMisses(items, name, 0);
  }
}
