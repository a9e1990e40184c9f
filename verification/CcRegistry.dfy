// The registry and the store in place, each operation equal to its counterpart
// on values, with every intermediate state of the two files on record.

module CcRegistry {
  import opened Basics
  import opened CcStore

  class Registry {
    const compiler: Compiler
    var cur: Files
    var bak: Files
    const prog: array<Prog>
    var n: nat
    var img: Option<string>
    var imgVersion: nat
    var imgSerial: nat
    var serial: nat
    var have: bool
    var image: string
    var entry: nat
    /** The files of the program being saved, after each write and part of one. */
    ghost var trail: seq<Pair>

    ghost predicate Valid()
      reads this, prog
    {
      n <= prog.Length == MAX_PROGRAMS
    }

    ghost function Abs(): Sys
      requires Valid()
      reads this, prog
    {
      Sys(cur, bak, prog[..n], img, imgVersion, imgSerial, serial, have, image, entry)
    }

    ghost function Here(name: string): Pair
      reads this
    {
      Pair(At(cur, name), At(bak, name))
    }

    constructor (compiler: Compiler, cur: Files, bak: Files)
      ensures Valid() && fresh(prog) && this.compiler == compiler
      ensures Abs() == Sys(cur, bak, [], None, 0, 0, 0, false, "", 0)
    {
      this.compiler, this.cur, this.bak := compiler, cur, bak;
      prog := new Prog[MAX_PROGRAMS](_ => Prog("", 0, 0, ""));
      n, img, imgVersion, imgSerial, serial, have, image, entry, trail := 0, None, 0, 0, 0, false, "", 0, [];
    }

    method CompileNow(src: string)
      requires Valid()
      modifies this`serial, this`have, this`image, this`entry
      ensures Abs() == Compile(old(Abs()), compiler, src)
    {
      have := false;
      var main := compiler(src);
      if main.None? {
        return;
      }
      have, image, entry := true, src, main.value;
      serial := serial + 1;
    }

    method FindProg(name: string) returns (i: int)
      requires Valid()
      ensures i == Find(Abs().prog, name, 0)
    {
      i := 0;
      while i < n
        invariant 0 <= i <= n && Find(prog[..n], name, 0) == Find(prog[..n], name, i)
      {
        if prog[i].name == name {
          return;
        }
        i := i + 1;
      }
      i := -1;
    }

    /** The current file, then the backup. */
    method Source(name: string, w: Reads) returns (r: Option<Rec>)
      ensures r == First(At(cur, name), At(bak, name), name, w)
    {
      var attempt := 0;
      while attempt < 2
        invariant 0 <= attempt <= 2
        invariant attempt == 1 ==> !(w.cur && Parsed(At(cur, name), name).Some?)
        invariant attempt == 2 ==> First(At(cur, name), At(bak, name), name, w).None?
      {
        var f := if attempt == 0 then At(cur, name) else At(bak, name);
        if if attempt == 0 then w.cur else w.bak {
          r := Parsed(f, name);
          if r.Some? {
            return;
          }
        }
        attempt := attempt + 1;
      }
      r := None;
    }

    /** The file is cut to nothing first, so a crash in between leaves it torn. */
    method WriteBak(name: string, f: File, w: Write) returns (ok: bool)
      modifies this`bak, this`trail
      ensures bak == Wrote(old(bak), name, f, w) && (ok <==> w.Written?)
      ensures old(trail) <= trail
      ensures forall k :: |old(trail)| <= k < |trail| ==>
                trail[k].cur == At(cur, name) && (trail[k].bak == old(At(bak, name)) || Torn(trail[k].bak)
                  || (w.Written? && trail[k].bak == f))
    {
      ok := w.Written?;
      if w.Kept? {
        return;
      }
      bak := bak[name := if w.Ruined? && Torn(w.left) then w.left else Corrupt];
      trail := trail + [Here(name)];
      if ok {
        bak := bak[name := f];
        trail := trail + [Here(name)];
      }
    }

    method WriteCur(name: string, f: File, w: Write) returns (ok: bool)
      modifies this`cur, this`trail
      ensures cur == Wrote(old(cur), name, f, w) && (ok <==> w.Written?)
      ensures old(trail) <= trail
      ensures forall k :: |old(trail)| <= k < |trail| ==>
                trail[k].bak == At(bak, name) && (trail[k].cur == old(At(cur, name)) || Torn(trail[k].cur)
                  || (w.Written? && trail[k].cur == f))
    {
      ok := w.Written?;
      if w.Kept? {
        return;
      }
      cur := cur[name := if w.Ruined? && Torn(w.left) then w.left else Corrupt];
      trail := trail + [Here(name)];
      if ok {
        cur := cur[name := f];
        trail := trail + [Here(name)];
      }
    }

    /** The backup, the record, the registry, the name of the image. */
    method CommitNow(i: int, rec: Rec, works: bool, wb: Write, wc: Write)
      requires Valid() && i == Find(Abs().prog, rec.name, 0) && (i == -1 ==> n < MAX_PROGRAMS)
      modifies this`cur, this`bak, this`trail, this`n, this`img, this`imgVersion, this`imgSerial, prog
      ensures Valid() && Abs() == Commit(old(Abs()), i, rec, works, wb, wc)
      ensures old(trail) <= trail
      ensures forall k :: |old(trail)| <= k < |trail| ==>
              SaveReaches(i != -1 && works, old(Here(rec.name)), rec, trail[k])
    {
      hide Find;
      var f := At(cur, rec.name);
      var ok := true;
      if i != -1 && !f.Missing? && !f.Unreadable? && works {
        ok := WriteBak(rec.name, f, wb);
      }
      if !ok {
        return;
      }
      ok := WriteCur(rec.name, Good(rec), wc);
      if !ok {
        return;
      }
      Register(i, Prog(rec.name, rec.version, rec.nparam, rec.src));
    }

    method Register(i: int, p: Prog)
      requires Valid() && (i == -1 || 0 <= i < n) && (i == -1 ==> n < MAX_PROGRAMS)
      modifies this`n, this`img, this`imgVersion, this`imgSerial, prog
      ensures Valid() && prog[..n] == if i == -1 then old(prog[..n]) + [p] else old(prog[..n])[i := p]
      ensures img == Some(p.name) && imgVersion == p.version && imgSerial == serial
    {
      if i == -1 {
        prog[n] := p;
        n := n + 1;
      } else {
        prog[i] := p;
      }
      img, imgVersion, imgSerial := Some(p.name), p.version, serial;
    }

    method SaveNow(name: string, nparam: nat, src: string, fits: bool, works: bool, wb: Write, wc: Write)
      requires Valid()
      modifies this, prog
      ensures Valid() && Abs() == Save(old(Abs()), compiler, name, nparam, src, fits, works, wb, wc)
      ensures old(trail) <= trail
      ensures var i := Find(old(Abs()).prog, name, 0);
              var rec := NewRec(old(Abs()), name, nparam, src);
              forall k :: |old(trail)| <= k < |trail| ==> SaveReaches(i != -1 && works, old(Here(name)), rec, trail[k])
    {
      hide Commit, SaveReaches;
      CompileNow(src);
      if !have || entry != nparam {
        return;
      }
      var i := FindProg(name);
      if i == -1 && n >= MAX_PROGRAMS {
        return;
      }
      if !fits {
        return;
      }
      CommitNow(i, Rec(name, if i == -1 then 1 else prog[i].version + 1, nparam, src), works, wb, wc);
    }

    method DeleteNow(name: string, gone: bool, bakGone: bool)
      requires Valid()
      modifies this, prog
      ensures Valid() && Abs() == Delete(old(Abs()), name, gone, bakGone)
    {
      var i := FindProg(name);
      if i == -1 {
        return;
      }
      if gone {
        cur := cur - {name};
      }
      if bakGone {
        bak := bak - {name};
      }
      CloseGap(i);
      if img == Some(name) {
        img := None;
      }
    }

    method CloseGap(i: nat)
      requires Valid() && i < n
      modifies this`n, prog
      ensures Valid() && prog[..n] == old(prog[..n])[..i] + old(prog[..n])[i + 1..]
    {
      ghost var was := prog[..n];
      var j := i;
      while j + 1 < n
        invariant i <= j < n == |was| <= prog.Length
        invariant forall x :: 0 <= x < i ==> prog[x] == was[x]
        invariant forall x :: i <= x < j ==> prog[x] == was[x + 1]
        invariant forall x :: j < x < n ==> prog[x] == was[x]
      {
        prog[j] := prog[j + 1];
        j := j + 1;
      }
      n := n - 1;
    }

    method CallNow(name: string, nargs: nat, w: Reads) returns (r: Outcome)
      requires Valid()
      modifies this
      ensures Valid() && (Abs(), r) == Call(old(Abs()), compiler, name, nargs, w)
    {
      hide First, Find;
      var i := FindProg(name);
      if i == -1 || nargs != prog[i].nparam {
        return Failed;
      }
      var cached := img == Some(name) && imgVersion == prog[i].version && imgSerial == serial && have;
      if !cached {
        var rec := Source(name, w);
        if rec.None? {
          return Failed;
        }
        CompileNow(rec.value.src);
        if !have {
          img := None;
          return Failed;
        }
        if entry != prog[i].nparam {
          return Failed;
        }
        img, imgVersion, imgSerial := Some(name), prog[i].version, serial;
      }
      if !have || nargs != entry {
        return Failed;
      }
      return Ran(image);
    }

    method InitNow(dir: seq<string>, given: string -> Reads)
      requires Valid()
      modifies this, prog
      ensures Valid() && Abs() == Init(old(Abs()), dir, given)
    {
      hide First;
      ghost var s := Abs();
      n, img, imgVersion, imgSerial := 0, None, 0, 0;
      var i := 0;
      while i < |dir|
        invariant 0 <= i <= |dir| && Valid() && Abs() == Init(s, dir, given).(prog := prog[..n])
        invariant LoadAll(s, dir, given, []) == LoadAll(s, dir[i..], given, prog[..n])
      {
        assert dir[i..][0] == dir[i] && dir[i..][1..] == dir[i + 1..];
        var rec := Source(dir[i], given(dir[i]));
        if rec.Some? && n < MAX_PROGRAMS {
          ghost var was := prog[..n];
          prog[n] := ProgOf(rec.value);
          n := n + 1;
          assert prog[..n] == was + [prog[n - 1]];
        }
        i := i + 1;
      }
      assert dir[i..] == [];
    }
  }
}
