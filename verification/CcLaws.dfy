// What the program store's operations do to the registry and the files: a saved
// program runs its new text, a deleted one is gone, and the others are left alone.

module CcLaws {
  import opened Basics
  import opened CcStore

  /** `p` is registered. */
  predicate Has(s: Sys, p: Prog) { p in s.prog }

  predicate Known(s: Sys, name: string) { exists i :: 0 <= i < |s.prog| && s.prog[i].name == name }

  lemma FindNamed(s: Sys, name: string)
    requires Distinct(s.prog)
    ensures Find(s.prog, name, 0) == -1 <==> !Known(s, name)
    ensures forall p :: Has(s, p) && p.name == name ==>
              Find(s.prog, name, 0) != -1 && s.prog[Find(s.prog, name, 0)] == p
  {
    FindMisses(s.prog, name, 0);
  }

  /** Programs with other names, and their files, are as they were. */
  ghost predicate OthersKept(s: Sys, r: Sys, name: string) {
    && (forall p: Prog :: p.name != name ==> (Has(r, p) <==> Has(s, p)))
    && Elsewhere(s, r, name)
  }

  /** After a delete the name is not registered, a call of it finds nothing, and no
      other program is touched. */
  lemma DeleteDoes(s: Sys, c: Compiler, name: string, gone: bool, bakGone: bool, nargs: nat, w: Reads)
    requires Distinct(s.prog)
    ensures var r := Delete(s, name, gone, bakGone);
            && !Known(r, name) && Call(r, c, name, nargs, w) == (r, Failed) && OthersKept(s, r, name)
            && (gone && Known(s, name) ==> At(r.cur, name) == Missing)
            && (bakGone && Known(s, name) ==> At(r.bak, name) == Missing)
  {
    var r := Delete(s, name, gone, bakGone);
    DeleteFiles(s, name, gone, bakGone);
    DeleteRegistry(s, name, gone, bakGone);
    hide Delete, Find, At, Call, Elsewhere, Distinct;
    CallMissing(r, c, name, nargs, w);
  }

  lemma DeleteFiles(s: Sys, name: string, gone: bool, bakGone: bool)
    ensures var r := Delete(s, name, gone, bakGone);
            && Elsewhere(s, r, name)
            && (gone && Known(s, name) ==> At(r.cur, name) == Missing)
            && (bakGone && Known(s, name) ==> At(r.bak, name) == Missing)
  {
    FindMisses(s.prog, name, 0);
  }

  lemma DeleteRegistry(s: Sys, name: string, gone: bool, bakGone: bool)
    requires Distinct(s.prog)
    ensures var r := Delete(s, name, gone, bakGone);
            && !Known(r, name) && Find(r.prog, name, 0) == -1
            && forall p: Prog :: p.name != name ==> (Has(r, p) <==> Has(s, p))
  {
    var r := Delete(s, name, gone, bakGone);
    var i := Find(s.prog, name, 0);
    FindMisses(s.prog, name, 0);
    if i != -1 {
      Closed(s.prog, i);
    }
    FindMisses(r.prog, name, 0);
  }

  lemma CallMissing(s: Sys, c: Compiler, name: string, nargs: nat, w: Reads)
    requires Find(s.prog, name, 0) == -1
    ensures Call(s, c, name, nargs, w) == (s, Failed)
  {
  }

  lemma Closed(prog: seq<Prog>, i: nat)
    requires i < |prog| && Distinct(prog)
    ensures var rest := prog[..i] + prog[i + 1..];
            && (forall j :: 0 <= j < |rest| ==> rest[j].name != prog[i].name)
            && forall p: Prog :: p.name != prog[i].name ==> (p in rest <==> p in prog)
  {
    var rest := prog[..i] + prog[i + 1..];
    forall p: Prog | p.name != prog[i].name
      ensures p in rest <==> p in prog
    {
      if p in prog {
        var j :| 0 <= j < |prog| && prog[j] == p;
        assert rest[if j < i then j else j - 1] == p;
      }
    }
  }

  /** A save both of whose writes went through registers the new version, and the next
      call runs its text, whatever can be read; others are not touched. */
  lemma SaveRuns(s: Sys, c: Compiler, name: string, nparam: nat, src: string, works: bool, wb: Write, wc: Write,
                 w: Reads)
    requires Distinct(s.prog) && Commits(s, c, name, nparam, src, true)
    requires Lands(s, Find(s.prog, name, 0), NewRec(s, name, nparam, src), works, wb, wc)
    ensures var r := Save(s, c, name, nparam, src, true, works, wb, wc);
            var was := Find(s.prog, name, 0);
            && Has(r, Prog(name, if was == -1 then 1 else s.prog[was].version + 1, nparam, src))
            && Call(r, c, name, nparam, w) == (r, Ran(src)) && Distinct(r.prog)
            && OthersKept(s, r, name)
  {
    var r := Save(s, c, name, nparam, src, true, works, wb, wc);
    var i, rec := Find(s.prog, name, 0), NewRec(s, name, nparam, src);
    FindMisses(s.prog, name, 0);
    var k := if i == -1 then |s.prog| else i;
    assert r.prog == if i == -1 then s.prog + [ProgOf(rec)] else s.prog[i := ProgOf(rec)];
    assert r.prog[k] == ProgOf(rec);
    Replaced(s.prog, r.prog, k, ProgOf(rec));
    FindNamed(r, name);
    assert Has(r, ProgOf(rec));
  }

  lemma Replaced(a: seq<Prog>, b: seq<Prog>, k: nat, p: Prog)
    requires k <= |a| && b == (if k == |a| then a + [p] else a[k := p]) && Distinct(a)
    requires forall j :: 0 <= j < |a| && j != k ==> a[j].name != p.name
    requires k < |a| ==> a[k].name == p.name
    ensures Distinct(b)
    ensures forall q: Prog :: q.name != p.name ==> (q in b <==> q in a)
  {
    forall q: Prog | q.name != p.name
      ensures q in b <==> q in a
    {
      if q in a {
        var j :| 0 <= j < |a| && a[j] == q;
        assert b[j] == q;
      }
    }
  }

  /** A save that does not get that far leaves the registry as it was. */
  lemma SaveStops(s: Sys, c: Compiler, name: string, nparam: nat, src: string, fits: bool, works: bool, wb: Write,
                  wc: Write)
    requires !Commits(s, c, name, nparam, src, fits) ||
             !Lands(s, Find(s.prog, name, 0), NewRec(s, name, nparam, src), works, wb, wc)
    ensures var r := Save(s, c, name, nparam, src, fits, works, wb, wc);
            r.prog == s.prog && Elsewhere(s, r, name)
            && (!Commits(s, c, name, nparam, src, fits) ==> r.cur == s.cur && r.bak == s.bak)
  {
  }

  /** A call changes neither registry nor files; when it finds the program and it has
      the right number of arguments, it runs what it has or what the store gives. */
  lemma CallDoes(s: Sys, c: Compiler, name: string, nargs: nat, w: Reads)
    ensures var r := Call(s, c, name, nargs, w); r.0.prog == s.prog && r.0.cur == s.cur && r.0.bak == s.bak
    ensures var i := Find(s.prog, name, 0);
            i != -1 && nargs == s.prog[i].nparam && !Cached(s, s.prog[i]) && Found(s, name, w).Some?
              && c(Found(s, name, w).value.src) == Some(nargs) ==>
              Call(s, c, name, nargs, w).1 == Ran(Found(s, name, w).value.src)
  {
  }

  /** A record for `p` is found under one of the names listed. */
  predicate Supplies(s: Sys, dir: seq<string>, given: string -> Reads, p: Prog) {
    exists k :: 0 <= k < |dir| && Found(s, dir[k], given(dir[k])) == Some(RecOf(p))
  }

  /** Start-up registers, of a directory that fits, exactly the programs with a record
      there, each as its record says. */
  lemma InitDoes(s: Sys, dir: seq<string>, given: string -> Reads)
    requires |dir| <= MAX_PROGRAMS
    ensures var r := Init(s, dir, given);
            && r.cur == s.cur && r.bak == s.bak && r.img.None?
            && forall p :: Has(r, p) <==> Supplies(s, dir, given, p)
  {
    hide Supplies;
    var r := Init(s, dir, given);
    forall p
      ensures Has(r, p) <==> Supplies(s, dir, given, p)
    {
      LoadedAre(s, dir, given, [], p);
    }
  }

  lemma {:induction false} LoadedAre(s: Sys, dir: seq<string>, given: string -> Reads, got: seq<Prog>, p: Prog)
    requires |got| + |dir| <= MAX_PROGRAMS
    ensures p in LoadAll(s, dir, given, got) <==> p in got || Supplies(s, dir, given, p)
    decreases |dir|
  {
    hide Found, Supplies;
    if dir == [] {
      NoneSupplies(s, dir, given, p);
    } else {
      var rec := Found(s, dir[0], given(dir[0]));
      var more := if rec.None? then got else got + [ProgOf(rec.value)];
      LoadedAre(s, dir[1..], given, more, p);
      if rec.Some? {
        SameRec(rec.value, p);
      }
      FirstOrRest(s, dir, given, p);
    }
  }

  lemma NoneSupplies(s: Sys, dir: seq<string>, given: string -> Reads, p: Prog)
    requires dir == []
    ensures !Supplies(s, dir, given, p)
  {
  }

  lemma SameRec(rec: Rec, p: Prog)
    ensures ProgOf(rec) == p <==> rec == RecOf(p)
  {
  }

  lemma FirstOrRest(s: Sys, dir: seq<string>, given: string -> Reads, p: Prog)
    requires dir != []
    ensures Supplies(s, dir, given, p) <==>
            Found(s, dir[0], given(dir[0])) == Some(RecOf(p)) || Supplies(s, dir[1..], given, p)
  {
    hide Found;
    if k :| 0 <= k < |dir| && Found(s, dir[k], given(dir[k])) == Some(RecOf(p)) {
      assert k > 0 ==> dir[1..][k - 1] == dir[k];
    }
    if k :| 0 <= k < |dir[1..]| && Found(s, dir[1..][k], given(dir[1..][k])) == Some(RecOf(p)) {
      assert dir[k + 1] == dir[1..][k];
    }
  }
}
