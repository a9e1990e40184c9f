// The program store: records on disk with one backup each, the registry in
// memory, and the one compiled image the code buffer holds.

module CcStore {
  import opened Basics

  const MAX_PROGRAMS: nat := 16
  const MAX_VERSION: nat := 1_000_000

  /** A record as it was built; its checksum makes anything else unreadable as one. */
  datatype Rec = Rec(name: string, version: nat, nparam: nat, src: string)

  /** What a path holds: nothing, something that cannot be read, bytes that are
      no record, or a record. */
  datatype File = Missing | Unreadable | Corrupt | Good(rec: Rec)

  type Files = map<string, File>

  function At(files: Files, name: string): File { if name in files then files[name] else Missing }

  /** A record with a version outside this range is not taken back. */
  predicate Usable(rec: Rec) { 1 <= rec.version <= MAX_VERSION }

  /** The record `file` is accepted as when looked for under `name`. */
  function Parsed(file: File, name: string): (r: Option<Rec>)
    ensures r.Some? ==> r.value.name == name && Usable(r.value) && file == Good(r.value)
  {
    if file.Good? && file.rec.name == name && Usable(file.rec) then Some(file.rec) else None
  }

  /** Which reads of a name's two files work this time. */
  datatype Reads = Reads(cur: bool, bak: bool)

  const ALL := Reads(true, true)

  /** The current file if it reads as a record, otherwise the backup. */
  function First(cur: File, bak: File, name: string, w: Reads): (r: Option<Rec>)
    ensures r.Some? ==> r.value.name == name
  {
    if w.cur && Parsed(cur, name).Some? then Parsed(cur, name)
    else if w.bak then Parsed(bak, name)
    else None
  }

  // ---- saving, and where a crash can cut it -----------------------------------------------

  /** A write cut short leaves bytes that are no record, or nothing readable. */
  predicate Torn(f: File) { f.Corrupt? || f.Unreadable? }

  predicate BacksUp(copies: bool, cur: File) { copies && !cur.Missing? && !cur.Unreadable? }

  datatype Pair = Pair(cur: File, bak: File)

  /** Every state of the two files in which a crash can leave a save of `rec`.
      `copies` says that the program is registered and its current file was read. */
  ghost predicate SaveReaches(copies: bool, was: Pair, rec: Rec, now: Pair) {
    || now == was
    || (BacksUp(copies, was.cur) && now.cur == was.cur && (Torn(now.bak) || now.bak == was.cur))
    || (Torn(now.cur) && now.bak == SavedBackup(copies, was))
    || now == Pair(Good(rec), SavedBackup(copies, was))
  }

  function SavedBackup(copies: bool, was: Pair): File { if BacksUp(copies, was.cur) then was.cur else was.bak }

  /** What start-up loads: only names with a current file are looked at. */
  function Loads(p: Pair, name: string): Option<Rec> {
    if p.cur.Missing? then None else First(p.cur, p.bak, name, ALL)
  }

  /** After a crash anywhere, start-up finds the old record or the new one. */
  ghost predicate CrashSafe(copies: bool, was: Pair, rec: Rec) {
    forall now :: SaveReaches(copies, was, rec, now) ==>
      Loads(now, rec.name) == Loads(was, rec.name) || Loads(now, rec.name) == Some(rec)
  }

  /** The current file is copied, or its backup already stands in for it; and a
      damaged current file is not about to be copied over a good backup. */
  predicate Guarded(copies: bool, was: Pair, rec: Rec) {
    if Parsed(was.cur, rec.name).Some? then
      copies || Parsed(was.bak, rec.name) == Parsed(was.cur, rec.name)
      || Parsed(was.bak, rec.name) == Some(rec)
    else
      !BacksUp(copies, was.cur)
  }

  lemma Unsafe(copies: bool, was: Pair, rec: Rec, now: Pair)
    requires SaveReaches(copies, was, rec, now)
    requires Loads(now, rec.name) != Loads(was, rec.name) && Loads(now, rec.name) != Some(rec)
    ensures !CrashSafe(copies, was, rec)
  {
  }

  /** A save survives a crash at any point exactly when it is guarded. */
  lemma SaveSafeIff(copies: bool, was: Pair, rec: Rec)
    requires Loads(was, rec.name).Some?
    ensures CrashSafe(copies, was, rec) <==> Guarded(copies, was, rec)
  {
    if !Guarded(copies, was, rec) {
      Unsafe(copies, was, rec, Pair(Corrupt, SavedBackup(copies, was)));
    }
  }

  /** From an intact current file that is backed up (its program is registered and
      the save could read it) a crash is harmless. */
  lemma IntactSafe(was: Pair, rec: Rec, prev: Rec)
    requires Parsed(was.cur, rec.name) == Some(prev)
    ensures CrashSafe(true, was, rec) && Loads(was, rec.name) == Some(prev)
  {
    SaveSafeIff(true, was, rec);
  }

  /** An intact file that is not backed up, because its program is not registered
      (the registry was full when the machine started) or because the save could
      not read it, is lost if the save is cut off. */
  lemma UncopiedLost(prev: Rec, rec: Rec)
    requires prev.name == rec.name && prev != rec && Usable(prev)
    ensures var was := Pair(Good(prev), Missing);
            Loads(was, rec.name) == Some(prev) && SaveReaches(false, was, rec, Pair(Corrupt, Missing))
              && Loads(Pair(Corrupt, Missing), rec.name) == None
  {
  }

  /** A program recovered from its backup is lost if its next save is cut off:
      the damaged file is copied over the good one. */
  lemma RecoveredLost(prev: Rec, rec: Rec)
    requires prev.name == rec.name && prev != rec && Usable(prev)
    ensures var was := Pair(Corrupt, Good(prev));
            Loads(was, rec.name) == Some(prev) && SaveReaches(true, was, rec, Pair(Corrupt, Corrupt))
              && Loads(Pair(Corrupt, Corrupt), rec.name) == None
  {
  }

  // ---- the registry and the image --------------------------------------------------------------

  /** A registered program. The source text is not kept in memory by the program
      itself; it is here to say which text the registered version stands for. */
  datatype Prog = Prog(name: string, version: nat, nparam: nat, src: string)

  /** `image` is the text the code buffer was compiled from and `entry` its
      main's parameter count; `img` names the program it is believed to be. */
  datatype Sys = Sys(
    cur: Files, bak: Files, prog: seq<Prog>,
    img: Option<string>, imgVersion: nat, imgSerial: nat,
    serial: nat, have: bool, image: string, entry: nat)

  /** main's parameter count, for a text that compiles. */
  type Compiler = string -> Option<nat>

  function Compile(s: Sys, c: Compiler, src: string): Sys {
    if c(src).None? then s.(have := false)
    else s.(have := true, image := src, entry := c(src).value, serial := s.serial + 1)
  }

  function Find(prog: seq<Prog>, name: string, i: nat): (r: int)
    ensures r == -1 || (i <= r < |prog| && prog[r].name == name)
    decreases |prog| - i
  {
    if i >= |prog| then -1 else if prog[i].name == name then i else Find(prog, name, i + 1)
  }

  datatype Write = Written | Kept | Ruined(left: File)

  function Wrote(files: Files, name: string, f: File, w: Write): Files {
    match w
    case Written => files[name := f]
    case Kept => files
    case Ruined(left) => files[name := if Torn(left) then left else Corrupt]
  }

  /** One save: compile, check the arity, back up, write, register. `fits` is
      whether the record fits its buffer, `works` whether reading the current
      file works. */
  function Save(s: Sys, c: Compiler, name: string, nparam: nat, src: string, fits: bool, works: bool, wb: Write,
                wc: Write): Sys {
    var s1 := Compile(s, c, src);
    var i := Find(s.prog, name, 0);
    if c(src).None? || c(src).value != nparam || (i == -1 && |s.prog| >= MAX_PROGRAMS) || !fits then s1
    else Commit(s1, i, NewRec(s, name, nparam, src), works, wb, wc)
  }

  /** The backup, the record, then the registry and the name of the image. */
  function Commit(s: Sys, i: int, rec: Rec, works: bool, wb: Write, wc: Write): Sys
    requires i == -1 || 0 <= i < |s.prog|
  {
    var cur := At(s.cur, rec.name);
    var backs := Backs(s, i, rec, works);
    var s1 := if backs then s.(bak := Wrote(s.bak, rec.name, cur, wb)) else s;
    if backs && !wb.Written? then s1
    else if !wc.Written? then s1.(cur := Wrote(s.cur, rec.name, Good(rec), wc))
    else
      var p := ProgOf(rec);
      s1.(cur := s.cur[rec.name := Good(rec)],
          prog := if i == -1 then s.prog + [p] else s.prog[i := p],
          img := Some(rec.name), imgVersion := rec.version, imgSerial := s.serial)
  }

  function Delete(s: Sys, name: string, gone: bool, bakGone: bool): Sys {
    var i := Find(s.prog, name, 0);
    if i == -1 then s
    else s.(cur := if gone then s.cur - {name} else s.cur, bak := if bakGone then s.bak - {name} else s.bak,
            prog := s.prog[..i] + s.prog[i + 1..], img := if s.img == Some(name) then None else s.img)
  }

  datatype Outcome = Failed | Ran(image: string)

  predicate Cached(s: Sys, p: Prog) {
    s.img == Some(p.name) && s.imgVersion == p.version && s.imgSerial == s.serial && s.have
  }

  /** One call: the image is used as it stands, or the program is compiled again
      from what the store gives. */
  function Call(s: Sys, c: Compiler, name: string, nargs: nat, w: Reads): (Sys, Outcome) {
    var i := Find(s.prog, name, 0);
    if i == -1 || nargs != s.prog[i].nparam then (s, Failed)
    else if Cached(s, s.prog[i]) then (s, RunImage(s, nargs))
    else
      var rec := First(At(s.cur, name), At(s.bak, name), name, w);
      if rec.None? then (s, Failed) else
      var s1 := Compile(s, c, rec.value.src);
      if c(rec.value.src).None? then (s1.(img := None), Failed)
      else if c(rec.value.src).value != s.prog[i].nparam then (s1, Failed)
      else
        var s2 := s1.(img := Some(name), imgVersion := s.prog[i].version, imgSerial := s1.serial);
        (s2, RunImage(s2, nargs))
  }

  function RunImage(s: Sys, nargs: nat): Outcome { if s.have && nargs == s.entry then Ran(s.image) else Failed }

  /** What start-up finds for `name`. */
  function Found(s: Sys, name: string, w: Reads): (r: Option<Rec>)
    ensures r.Some? ==> r.value.name == name
  {
    First(At(s.cur, name), At(s.bak, name), name, w)
  }

  function ProgOf(rec: Rec): Prog { Prog(rec.name, rec.version, rec.nparam, rec.src) }

  /** Start-up: every name with a current file, in directory order. `given` says
      for each name which of its files can be read this time. */
  function LoadAll(s: Sys, dir: seq<string>, given: string -> Reads, prog: seq<Prog>): seq<Prog> {
    if dir == [] then prog
    else
      var rec := Found(s, dir[0], given(dir[0]));
      if rec.None? || |prog| >= MAX_PROGRAMS then LoadAll(s, dir[1..], given, prog)
      else LoadAll(s, dir[1..], given, prog + [ProgOf(rec.value)])
  }

  function Init(s: Sys, dir: seq<string>, given: string -> Reads): Sys {
    s.(prog := LoadAll(s, dir, given, []), img := None, imgVersion := 0, imgSerial := 0)
  }

  datatype Op =
    | CompileOp(src: string)
    | SaveOp(name: string, nparam: nat, src: string, fits: bool, works: bool, wb: Write, wc: Write)
    | DeleteOp(name: string, gone: bool, bakGone: bool)
    | CallOp(name: string, nargs: nat, w: Reads)
    | InitOp(dir: seq<string>, given: string -> Reads)
    | RebootOp(dir: seq<string>, given: string -> Reads)

  /** The machine went down: only the files are left. */
  function Off(s: Sys): Sys { s.(serial := 0, have := false) }

  function Step(s: Sys, c: Compiler, op: Op): Sys {
    match op
    case CompileOp(src) => Compile(s, c, src)
    case SaveOp(name, nparam, src, fits, works, wb, wc) => Save(s, c, name, nparam, src, fits, works, wb, wc)
    case DeleteOp(name, gone, bakGone) => Delete(s, name, gone, bakGone)
    case CallOp(name, nargs, w) => Call(s, c, name, nargs, w).0
    case InitOp(dir, given) => Init(s, dir, given)
    case RebootOp(dir, given) => Init(Off(s), dir, given)
  }

  function Run(s: Sys, c: Compiler, ops: seq<Op>): Sys
    decreases |ops|
  {
    if ops == [] then s else Run(Step(s, c, ops[0]), c, ops[1..])
  }

  // ---- the code that runs is the program's own -----------------------------------------------------

  function RecOf(p: Prog): Rec { Rec(p.name, p.version, p.nparam, p.src) }

  predicate Distinct(prog: seq<Prog>) { forall i, j :: 0 <= i < j < |prog| ==> prog[i].name != prog[j].name }

  /** What the store gives for a registered program is its registered version. */
  predicate Backed(s: Sys, p: Prog) {
    var rec := Found(s, p.name, ALL);
    rec.None? || rec == Some(RecOf(p))
  }

  /** If the image would be used for `p` as it stands, it is compiled from p's text. */
  predicate Honest(s: Sys, p: Prog) { Cached(s, p) ==> s.image == p.src && s.entry == p.nparam }

  predicate Inv(s: Sys) {
    && Distinct(s.prog)
    && s.imgSerial <= s.serial
    && forall i :: 0 <= i < |s.prog| ==> Backed(s, s.prog[i]) && Honest(s, s.prog[i])
  }

  /** Directories list a name once. */
  predicate Listed(op: Op) {
    (op.InitOp? || op.RebootOp?) ==> forall i, j :: 0 <= i < j < |op.dir| ==> op.dir[i] != op.dir[j]
  }

  predicate ListedRun(ops: seq<Op>) { forall i :: 0 <= i < |ops| ==> Listed(ops[i]) }

  // The three reads that can go wrong. Each guard is decided by the state before
  // the operation and by which of its reads and writes work.

  /** A call that has to compile is not handed an older text because the current
      record could not be read just now. */
  predicate CallGuard(s: Sys, c: Compiler, name: string, nargs: nat, w: Reads) {
    var i := Find(s.prog, name, 0);
    i != -1 && nargs == s.prog[i].nparam && !Cached(s, s.prog[i]) ==>
      var bak := Parsed(At(s.bak, name), name);
      || w.cur || Parsed(At(s.cur, name), name).None?
      || !w.bak || bak.None? || bak.value.src == s.prog[i].src || c(bak.value.src) != Some(nargs)
  }

  predicate Commits(s: Sys, c: Compiler, name: string, nparam: nat, src: string, fits: bool) {
    fits && c(src) == Some(nparam) && (Find(s.prog, name, 0) == -1 ==> |s.prog| < MAX_PROGRAMS)
  }

  /** The record a save builds. */
  function NewRec(s: Sys, name: string, nparam: nat, src: string): Rec {
    var i := Find(s.prog, name, 0);
    Rec(name, if i == -1 then 1 else s.prog[i].version + 1, nparam, src)
  }

  predicate Backs(s: Sys, i: int, rec: Rec, works: bool) { BacksUp(i != -1, At(s.cur, rec.name)) && works }

  /** Both writes of the save went through. */
  predicate Lands(s: Sys, i: int, rec: Rec, works: bool, wb: Write, wc: Write) {
    wc.Written? && (Backs(s, i, rec, works) ==> wb.Written?)
  }

  /** A save that could not read the current record, and so made no backup of it,
      does not ruin it while the backup holds another version; and a record whose
      version is too high to be taken back does not stand over a readable backup. */
  predicate CommitGuard(s: Sys, i: int, rec: Rec, works: bool, wb: Write, wc: Write)
    requires i == -1 || 0 <= i < |s.prog|
  {
    var cur, bak := Parsed(At(s.cur, rec.name), rec.name), Parsed(At(s.bak, rec.name), rec.name);
    && (i != -1 && !works && wc.Ruined? ==> cur.None? || bak.None? || bak == Some(RecOf(s.prog[i])))
    && (Lands(s, i, rec, works, wb, wc) ==> Usable(rec) || (if Backs(s, i, rec, works) then cur else bak).None?)
  }

  predicate SaveGuard(s: Sys, c: Compiler, name: string, nparam: nat, src: string, fits: bool, works: bool, wb: Write,
                      wc: Write) {
    Commits(s, c, name, nparam, src, fits) ==>
      CommitGuard(s, Find(s.prog, name, 0), NewRec(s, name, nparam, src), works, wb, wc)
  }

  /** No program is registered from its backup because its current record, which
      is another version, could not be read just now. `n` are registered already. */
  predicate LoadGuard(s: Sys, dir: seq<string>, given: string -> Reads, n: nat) {
    dir == [] ||
    var rec := Found(s, dir[0], given(dir[0]));
    if rec.None? || n >= MAX_PROGRAMS then LoadGuard(s, dir[1..], given, n)
    else
      && (var cur := Parsed(At(s.cur, dir[0]), dir[0]); given(dir[0]).cur || cur.None? || cur == rec)
      && LoadGuard(s, dir[1..], given, n + 1)
  }

  predicate Guard(s: Sys, c: Compiler, op: Op) {
    match op
    case SaveOp(name, nparam, src, fits, works, wb, wc) => SaveGuard(s, c, name, nparam, src, fits, works, wb, wc)
    case CallOp(name, nargs, w) => CallGuard(s, c, name, nargs, w)
    case InitOp(dir, given) => LoadGuard(s, dir, given, 0)
    case RebootOp(dir, given) => LoadGuard(s, dir, given, 0)
    case _ => true
  }

  predicate GuardedRun(s: Sys, c: Compiler, ops: seq<Op>)
    decreases |ops|
  {
    ops == [] || (Guard(s, c, ops[0]) && GuardedRun(Step(s, c, ops[0]), c, ops[1..]))
  }

  lemma {:induction false} FindMisses(prog: seq<Prog>, name: string, i: nat)
    requires i <= |prog|
    ensures Find(prog, name, i) == -1 <==> forall j :: i <= j < |prog| ==> prog[j].name != name
    decreases |prog| - i
  {
    if i < |prog| {
      FindMisses(prog, name, i + 1);
    }
  }

  lemma CompileKeeps(s: Sys, c: Compiler, src: string)
    requires Inv(s)
    ensures Inv(Compile(s, c, src)) && forall p :: !Cached(Compile(s, c, src), p)
  {
    var r := Compile(s, c, src);
    forall i | 0 <= i < |s.prog|
      ensures Backed(r, r.prog[i]) && Honest(r, r.prog[i])
    {
      assert Backed(s, s.prog[i]);
    }
  }

  /** Only the files of `name` differ. */
  ghost predicate Elsewhere(s: Sys, r: Sys, name: string) {
    forall n :: n != name ==> At(r.cur, n) == At(s.cur, n) && At(r.bak, n) == At(s.bak, n)
  }

  /** Changing the files of `name` alone, to ones that give its registered
      version or nothing, keeps the invariant while the image is nobody's. */
  lemma FilesKeep(s: Sys, r: Sys, name: string)
    requires Inv(s) && Elsewhere(s, r, name) && r.prog == s.prog && r.imgSerial <= r.serial
    requires forall p :: !Cached(r, p)
    requires forall i :: 0 <= i < |s.prog| && s.prog[i].name == name ==> Backed(r, s.prog[i])
    ensures Inv(r)
  {
    forall i | 0 <= i < |r.prog|
      ensures Backed(r, r.prog[i]) && Honest(r, r.prog[i])
    {
      assert Backed(s, s.prog[i]);
    }
  }

  /** Every way the writes of a save can end keeps the invariant, except that the
      current record is ruined with no backup of it made, or that the new one cannot
      be taken back while its backup can. */
  lemma CommitKeeps(s: Sys, i: int, rec: Rec, works: bool, wb: Write, wc: Write)
    requires Inv(s) && (forall p :: !Cached(s, p)) && i == Find(s.prog, rec.name, 0)
    requires s.have && s.image == rec.src && s.entry == rec.nparam
    ensures Inv(Commit(s, i, rec, works, wb, wc)) <==> CommitGuard(s, i, rec, works, wb, wc)
  {
    var r := Commit(s, i, rec, works, wb, wc);
    FindMisses(s.prog, rec.name, 0);
    if Lands(s, i, rec, works, wb, wc) {
      CommitDone(s, r, i, rec);
    } else {
      assert forall p :: Cached(r, p) <==> Cached(s, p);
      CommitBacked(s, r, i, rec, works, wb, wc);
    }
  }

  lemma CommitBacked(s: Sys, r: Sys, i: int, rec: Rec, works: bool, wb: Write, wc: Write)
    requires Inv(s) && (forall p :: !Cached(s, p) && !Cached(r, p)) && i == Find(s.prog, rec.name, 0)
    requires !Lands(s, i, rec, works, wb, wc)
    requires r == Commit(s, i, rec, works, wb, wc)
    ensures Inv(r) <==> CommitGuard(s, i, rec, works, wb, wc)
  {
    FindMisses(s.prog, rec.name, 0);
    CommitFiles(s, r, i, rec, works, wb, wc);
    hide Commit, CommitGuard, Cached, Backed;
    if i == -1 || Backed(r, s.prog[i]) {
      FilesKeep(s, r, rec.name);
    }
  }

  lemma CommitFiles(s: Sys, r: Sys, i: int, rec: Rec, works: bool, wb: Write, wc: Write)
    requires i == -1 || (0 <= i < |s.prog| && s.prog[i].name == rec.name && Backed(s, s.prog[i]))
    requires !Lands(s, i, rec, works, wb, wc) && r == Commit(s, i, rec, works, wb, wc)
    ensures Elsewhere(s, r, rec.name) && r.prog == s.prog && r.imgSerial == s.imgSerial && r.serial == s.serial
    ensures if i == -1 then CommitGuard(s, i, rec, works, wb, wc)
            else Backed(r, s.prog[i]) <==> CommitGuard(s, i, rec, works, wb, wc)
  {
  }

  lemma CommitDone(s: Sys, r: Sys, i: int, rec: Rec)
    requires Inv(s) && i == Find(s.prog, rec.name, 0) && Elsewhere(s, r, rec.name) && At(r.cur, rec.name) == Good(rec)
    requires r.prog == if i == -1 then s.prog + [ProgOf(rec)] else s.prog[i := ProgOf(rec)]
    requires r.img == Some(rec.name) && r.imgSerial == r.serial && r.image == rec.src && r.entry == rec.nparam
    ensures Inv(r) <==> Usable(rec) || Parsed(At(r.bak, rec.name), rec.name).None?
  {
    FindMisses(s.prog, rec.name, 0);
    var k := if i == -1 then |s.prog| else i;
    assert r.prog[k] == ProgOf(rec);
    assert Backed(r, r.prog[k]) <==> Usable(rec) || Parsed(At(r.bak, rec.name), rec.name).None?;
    forall j | 0 <= j < |r.prog|
      ensures (j != k ==> Backed(r, r.prog[j])) && Honest(r, r.prog[j])
    {
      if j != k {
        assert Backed(s, s.prog[j]);
      }
    }
  }

  lemma SaveKeeps(s: Sys, c: Compiler, name: string, nparam: nat, src: string, fits: bool, works: bool, wb: Write,
                  wc: Write)
    requires Inv(s)
    ensures Inv(Save(s, c, name, nparam, src, fits, works, wb, wc)) <==>
            SaveGuard(s, c, name, nparam, src, fits, works, wb, wc)
  {
    hide Cached, Commit, Inv, Parsed;
    CompileKeeps(s, c, src);
    if Commits(s, c, name, nparam, src, fits) {
      CommitKeeps(Compile(s, c, src), Find(s.prog, name, 0), NewRec(s, name, nparam, src), works, wb, wc);
    }
  }

  lemma DeleteKeeps(s: Sys, name: string, gone: bool, bakGone: bool)
    requires Inv(s)
    ensures Inv(Delete(s, name, gone, bakGone))
  {
    var r := Delete(s, name, gone, bakGone);
    var i := Find(s.prog, name, 0);
    if i != -1 {
      forall j | 0 <= j < |r.prog|
        ensures Backed(r, r.prog[j]) && Honest(r, r.prog[j])
      {
        var k := if j < i then j else j + 1;
        assert r.prog[j] == s.prog[k] && s.prog[k].name != name;
        assert Backed(s, s.prog[k]) && Honest(s, s.prog[k]);
      }
    }
  }

  /** A call keeps the invariant exactly when it is guarded; and if it runs an
      image, cached or compiled afresh, that is the text of the registered version
      of the program called, again exactly when it is guarded. */
  lemma CallRunsOwn(s: Sys, c: Compiler, name: string, nargs: nat, w: Reads)
    requires Inv(s)
    ensures var r := Call(s, c, name, nargs, w);
            && (Inv(r.0) <==> CallGuard(s, c, name, nargs, w))
            && (r.1.Ran? ==>
                  var i := Find(s.prog, name, 0);
                  && i != -1 && nargs == s.prog[i].nparam
                  && (r.1.image == s.prog[i].src <==> CallGuard(s, c, name, nargs, w)))
  {
    var i := Find(s.prog, name, 0);
    if i != -1 && nargs == s.prog[i].nparam && !Cached(s, s.prog[i]) {
      var rec := Found(s, name, w);
      assert Backed(s, s.prog[i]);
      if rec.Some? {
        CallCompiled(s, c, name, i, rec.value.src);
      }
    }
  }

  lemma CallCompiled(s: Sys, c: Compiler, name: string, i: nat, src: string)
    requires Inv(s) && i < |s.prog| && s.prog[i].name == name
    ensures var s1 := Compile(s, c, src);
            && Inv(s1) && Inv(s1.(img := None))
            && (c(src) == Some(s.prog[i].nparam) ==>
                  (Inv(s1.(img := Some(name), imgVersion := s.prog[i].version, imgSerial := s1.serial)) <==>
                    src == s.prog[i].src))
  {
    var s1 := Compile(s, c, src);
    CompileKeeps(s, c, src);
    FilesKeep(s1, s1.(img := None), name);
    if c(src) == Some(s.prog[i].nparam) {
      var s2 := s1.(img := Some(name), imgVersion := s.prog[i].version, imgSerial := s1.serial);
      assert Cached(s2, s2.prog[i]);
      assert Honest(s2, s2.prog[i]) <==> src == s.prog[i].src;
      forall j | 0 <= j < |s2.prog|
        ensures Backed(s2, s2.prog[j]) && (j != i ==> Honest(s2, s2.prog[j]))
      {
        assert Backed(s, s.prog[j]);
        assert j != i ==> s.prog[j].name != name;
      }
    }
  }

  lemma {:induction false} LoadKeeps(s: Sys, dir: seq<string>, given: string -> Reads, prog: seq<Prog>)
    requires forall i, j :: 0 <= i < j < |dir| ==> dir[i] != dir[j]
    requires Distinct(prog) && (forall i :: 0 <= i < |prog| ==> prog[i].name !in dir)
    ensures var r := LoadAll(s, dir, given, prog);
            && Distinct(r) && prog <= r
            && ((forall i :: |prog| <= i < |r| ==> Backed(s, r[i])) <==> LoadGuard(s, dir, given, |prog|))
    decreases |dir|
  {
    hide Backed;
    if dir != [] {
      var rec := Found(s, dir[0], given(dir[0]));
      if rec.None? || |prog| >= MAX_PROGRAMS {
        LoadKeeps(s, dir[1..], given, prog);
      } else {
        var more := prog + [ProgOf(rec.value)];
        LoadKeeps(s, dir[1..], given, more);
        LoadedBacked(s, dir[0], given(dir[0]), rec.value);
        var r := LoadAll(s, dir[1..], given, more);
        assert r[|prog|] == ProgOf(rec.value);
      }
    }
  }

  lemma LoadedBacked(s: Sys, name: string, w: Reads, rec: Rec)
    requires Found(s, name, w) == Some(rec)
    ensures var cur := Parsed(At(s.cur, name), name);
            Backed(s, ProgOf(rec)) <==> w.cur || cur.None? || cur == Some(rec)
  {
  }

  lemma InitKeeps(s: Sys, dir: seq<string>, given: string -> Reads)
    requires forall i, j :: 0 <= i < j < |dir| ==> dir[i] != dir[j]
    ensures Inv(Init(s, dir, given)) <==> LoadGuard(s, dir, given, 0)
  {
    hide LoadAll, Found, LoadGuard;
    LoadKeeps(s, dir, given, []);
    var r := Init(s, dir, given);
    forall i | 0 <= i < |r.prog|
      ensures (Backed(r, r.prog[i]) <==> Backed(s, r.prog[i])) && Honest(r, r.prog[i])
    {
      SameFiles(s, r, r.prog[i]);
    }
  }

  lemma SameFiles(s: Sys, r: Sys, p: Prog)
    requires r.cur == s.cur && r.bak == s.bak
    ensures Backed(r, p) <==> Backed(s, p)
  {
  }

  lemma {:induction false} SameGuard(s: Sys, r: Sys, dir: seq<string>, given: string -> Reads, n: nat)
    requires r.cur == s.cur && r.bak == s.bak
    ensures LoadGuard(r, dir, given, n) <==> LoadGuard(s, dir, given, n)
  {
    if dir != [] {
      SameGuard(s, r, dir[1..], given, n);
      SameGuard(s, r, dir[1..], given, n + 1);
    }
  }

  /** Every operation keeps the invariant exactly when it is guarded. */
  lemma StepKeeps(s: Sys, c: Compiler, op: Op)
    requires Inv(s) && Listed(op)
    ensures Inv(Step(s, c, op)) <==> Guard(s, c, op)
  {
    hide Inv, Save, Call, Delete, Init, Compile, LoadGuard, SaveGuard, CallGuard;
    match op
    case CompileOp(src) => CompileKeeps(s, c, src);
    case SaveOp(name, nparam, src, fits, works, wb, wc) => SaveKeeps(s, c, name, nparam, src, fits, works, wb, wc);
    case DeleteOp(name, gone, bakGone) => DeleteKeeps(s, name, gone, bakGone);
    case CallOp(name, nargs, w) => CallRunsOwn(s, c, name, nargs, w);
    case InitOp(dir, given) => InitKeeps(s, dir, given);
    case RebootOp(dir, given) =>
      InitKeeps(Off(s), dir, given);
      SameGuard(s, Off(s), dir, given, 0);
  }

  /** The invariant holds after every step of a run exactly when every step was
      guarded. */
  lemma {:induction false} RunKeeps(s: Sys, c: Compiler, ops: seq<Op>)
    requires Inv(s) && ListedRun(ops)
    ensures GuardedRun(s, c, ops) <==> forall k :: 0 <= k <= |ops| ==> Inv(Run(s, c, ops[..k]))
    decreases |ops|
  {
    hide Step, Inv, Listed, Guard;
    if ops == [] {
      assert ops[..0] == [];
    } else {
      var s1 := Step(s, c, ops[0]);
      StepKeeps(s, c, ops[0]);
      forall k | 1 <= k <= |ops|
        ensures Run(s, c, ops[..k]) == Run(s1, c, ops[1..][..k - 1])
      {
        assert ops[..k][1..] == ops[1..][..k - 1];
      }
      assert Run(s, c, ops[..0]) == s;
      assert Run(s, c, ops[..1]) == s1 by {
        assert ops[1..][..0] == [];
      }
      if Inv(s1) {
        RunKeeps(s1, c, ops[1..]);
        ShiftedInv(s, s1, c, ops);
      }
    }
  }

  lemma ShiftedInv(s: Sys, s1: Sys, c: Compiler, ops: seq<Op>)
    requires ops != [] && Inv(s)
    requires forall k :: 1 <= k <= |ops| ==> Run(s, c, ops[..k]) == Run(s1, c, ops[1..][..k - 1])
    ensures (forall k :: 0 <= k <= |ops| ==> Inv(Run(s, c, ops[..k]))) <==>
            (forall k :: 0 <= k <= |ops[1..]| ==> Inv(Run(s1, c, ops[1..][..k])))
  {
    hide Inv, Run;
    if forall k :: 0 <= k <= |ops| ==> Inv(Run(s, c, ops[..k])) {
      forall k | 0 <= k <= |ops[1..]|
        ensures Inv(Run(s1, c, ops[1..][..k]))
      {
        assert Inv(Run(s, c, ops[..k + 1]));
      }
    }
    if forall k :: 0 <= k <= |ops[1..]| ==> Inv(Run(s1, c, ops[1..][..k])) {
      forall k | 0 <= k <= |ops|
        ensures Inv(Run(s, c, ops[..k]))
      {
        if k == 0 {
          RunNothing(s, c, ops[..0]);
        } else {
          assert Inv(Run(s1, c, ops[1..][..k - 1]));
        }
      }
    }
  }

  lemma RunNothing(s: Sys, c: Compiler, ops: seq<Op>)
    requires ops == []
    ensures Run(s, c, ops) == s
  {
  }

  /** After any guarded history, whatever a call runs is the text of the version
      registered under the name called exactly when the call is guarded too. */
  lemma NeverForeign(s: Sys, c: Compiler, ops: seq<Op>, name: string, nargs: nat, w: Reads)
    requires Inv(s) && ListedRun(ops) && GuardedRun(s, c, ops)
    ensures var now := Run(s, c, ops);
            var r := Call(now, c, name, nargs, w);
            r.1.Ran? ==>
              var i := Find(now.prog, name, 0);
              i != -1 && (r.1.image == now.prog[i].src <==> CallGuard(now, c, name, nargs, w))
  {
    hide Run, Call, Inv, CallGuard;
    RunKeeps(s, c, ops);
    assert ops[..|ops|] == ops;
    CallRunsOwn(Run(s, c, ops), c, name, nargs, w);
  }

  // ---- whatever fails, the code that runs was saved under the name called ------------------------

  /** The texts that stand in the store, each with the name it is filed under. */
  function Filed(s: Sys): set<(string, string)> {
    FiledIn(s.cur) + FiledIn(s.bak)
  }

  function FiledIn(files: Files): set<(string, string)> {
    set n | n in files && files[n].Good? && files[n].rec.name == n :: (n, files[n].rec.src)
  }

  /** All that was ever filed during a run. */
  function EverFiled(s: Sys, c: Compiler, ops: seq<Op>): set<(string, string)>
    decreases |ops|
  {
    Filed(s) + if ops == [] then {} else EverFiled(Step(s, c, ops[0]), c, ops[1..])
  }

  /** An image believed to be a program's was filed under its name. */
  predicate Named(s: Sys, past: set<(string, string)>) {
    s.imgSerial <= s.serial && (s.img.Some? && s.imgSerial == s.serial && s.have ==> (s.img.value, s.image) in past)
  }

  lemma FoundFiled(s: Sys, name: string, w: Reads)
    ensures Found(s, name, w).Some? ==> (name, Found(s, name, w).value.src) in Filed(s)
  {
  }

  lemma CommitNamed(s: Sys, i: int, rec: Rec, works: bool, wb: Write, wc: Write, past: set<(string, string)>)
    requires Named(s, past) && s.image == rec.src && (i == -1 || 0 <= i < |s.prog|)
    ensures var r := Commit(s, i, rec, works, wb, wc); Named(r, past + Filed(r))
  {
    var r := Commit(s, i, rec, works, wb, wc);
    if r.img == Some(rec.name) && At(r.cur, rec.name) == Good(rec) {
      assert rec.name in r.cur && r.cur[rec.name] == Good(rec);
    }
  }

  lemma StepNamed(s: Sys, c: Compiler, op: Op, past: set<(string, string)>)
    requires Named(s, past) && Filed(s) <= past
    ensures Named(Step(s, c, op), past + Filed(Step(s, c, op)))
  {
    hide Commit, Filed, LoadAll;
    match op
    case CompileOp(src) =>
    case SaveOp(name, nparam, src, fits, works, wb, wc) =>
      var i := Find(s.prog, name, 0);
      if Commits(s, c, name, nparam, src, fits) {
        CommitNamed(Compile(s, c, src), i, NewRec(s, name, nparam, src), works, wb, wc, past);
      }
    case DeleteOp(name, gone, bakGone) =>
    case CallOp(name, nargs, w) => CallNamed(s, c, name, nargs, w, past);
    case InitOp(dir, given) =>
    case RebootOp(dir, given) =>
  }

  lemma CallNamed(s: Sys, c: Compiler, name: string, nargs: nat, w: Reads, past: set<(string, string)>)
    requires Named(s, past) && Filed(s) <= past
    ensures var r := Call(s, c, name, nargs, w); Named(r.0, past) && (r.1.Ran? ==> (name, r.1.image) in past)
  {
    hide Filed;
    FoundFiled(s, name, w);
  }

  /** Over every run, whatever reads and writes fail in it, the text a call runs was
      at some time filed in the store under the name called: never another
      program's code. */
  lemma {:induction false} NeverOthers(s: Sys, c: Compiler, ops: seq<Op>, past: set<(string, string)>,
      name: string, nargs: nat, w: Reads)
    requires Named(s, past)
    ensures var r := Call(Run(s, c, ops), c, name, nargs, w);
            r.1.Ran? ==> (name, r.1.image) in past + EverFiled(s, c, ops)
    decreases |ops|
  {
    hide Call, Step, Filed;
    var all := past + Filed(s);
    NamedMore(s, past, all);
    if ops == [] {
      CallNamed(s, c, name, nargs, w, all);
    } else {
      var s1 := Step(s, c, ops[0]);
      StepNamed(s, c, ops[0], all);
      NeverOthers(s1, c, ops[1..], all + Filed(s1), name, nargs, w);
      assert Filed(s1) <= EverFiled(s1, c, ops[1..]);
    }
  }

  lemma NamedMore(s: Sys, past: set<(string, string)>, all: set<(string, string)>)
    requires Named(s, past) && past <= all
    ensures Named(s, all)
  {
  }

  // ---- the unguarded cases do go wrong -----------------------------------------------------------

  /** A registered program the store no longer backs: the next call runs what the
      store gives, under the registered version's name, if it compiles to the
      registered number of parameters. */
  lemma UnbackedRuns(s: Sys, c: Compiler, i: nat)
    requires Distinct(s.prog) && i < |s.prog| && !Backed(s, s.prog[i]) && !Cached(s, s.prog[i])
    requires c(Found(s, s.prog[i].name, ALL).value.src) == Some(s.prog[i].nparam)
    ensures var p := s.prog[i];
            var src := Found(s, p.name, ALL).value.src;
            var r := Call(s, c, p.name, p.nparam, ALL);
            r.1 == Ran(src) && Cached(r.0, p) && Call(r.0, c, p.name, p.nparam, ALL).1 == Ran(src)
  {
    FindMisses(s.prog, s.prog[i].name, 0);
    assert Find(s.prog, s.prog[i].name, 0) == i;
  }

  /** A current record that fails to read at start-up and reads later is run as the
      older version its backup registered. */
  lemma GlitchMislabels(c: Compiler, disk: Sys, v1: string, v2: string)
    requires v1 != v2 && c(v2) == Some(0)
    requires At(disk.cur, "p") == Good(Rec("p", 2, 0, v2)) && At(disk.bak, "p") == Good(Rec("p", 1, 0, v1))
    ensures var s := Step(disk, c, RebootOp(["p"], _ => Reads(false, true)));
            var first := Call(s, c, "p", 0, ALL);
            && s.prog == [Prog("p", 1, 0, v1)]
            && first.1 == Ran(v2)
            && Cached(first.0, s.prog[0]) && Call(first.0, c, "p", 0, ALL).1 == Ran(v2)
  {
    var p := Prog("p", 1, 0, v1);
    var none: seq<string> := [];
    assert ["p"][1..] == none;
    assert LoadAll(Off(disk), none, _ => Reads(false, true), [p]) == [p];
    assert [] + [p] == [p];
    assert LoadAll(Off(disk), ["p"], _ => Reads(false, true), []) == [p];
    var s := Step(disk, c, RebootOp(["p"], _ => Reads(false, true)));
    UnbackedRuns(s, c, 0);
  }

  /** A current record that fails to read during a call is run as its backup, and
      kept as the image of the registered version. */
  lemma CallMislabels(s: Sys, c: Compiler, v1: string, v2: string)
    requires v1 != v2 && c(v1) == Some(0) && Inv(s) && s.prog == [Prog("p", 2, 0, v2)] && !Cached(s, s.prog[0])
    requires At(s.cur, "p") == Good(Rec("p", 2, 0, v2)) && At(s.bak, "p") == Good(Rec("p", 1, 0, v1))
    ensures var r := Call(s, c, "p", 0, Reads(false, true));
            r.1 == Ran(v1) && Cached(r.0, s.prog[0]) && Call(r.0, c, "p", 0, ALL).1 == Ran(v1)
  {
    assert Find(s.prog, "p", 0) == 0;
  }

  /** A current record that fails to read during a save is not backed up; if the
      save then ruins it, the backup's older version is run as the registered one. */
  lemma SaveMislabels(s: Sys, c: Compiler, v1: string, v2: string, v3: string)
    requires v1 != v2 && c(v1) == Some(0) && c(v3) == Some(0) && Inv(s) && s.prog == [Prog("p", 2, 0, v2)]
    requires At(s.cur, "p") == Good(Rec("p", 2, 0, v2)) && At(s.bak, "p") == Good(Rec("p", 1, 0, v1))
    ensures var r := Save(s, c, "p", 0, v3, true, false, Written, Ruined(Corrupt));
            r.prog == s.prog && Call(r, c, "p", 0, ALL).1 == Ran(v1)
  {
    assert Find(s.prog, "p", 0) == 0;
    var r := Save(s, c, "p", 0, v3, true, false, Written, Ruined(Corrupt));
    UnbackedRuns(r, c, 0);
  }

  /** After a million saves the next one cannot be taken back: everything works, yet
      the next start finds the version before it, and so does a call once something
      else was compiled. */
  lemma MillionthLost(s: Sys, c: Compiler, v1: string, v2: string, x: string)
    requires v1 != v2 && c(v1) == Some(0) && c(v2) == Some(0) && c(x).Some?
    requires s.prog == [Prog("p", MAX_VERSION, 0, v1)] && At(s.cur, "p") == Good(Rec("p", MAX_VERSION, 0, v1))
    ensures var r := Save(s, c, "p", 0, v2, true, true, Written, Written);
            && r.prog == [Prog("p", MAX_VERSION + 1, 0, v2)]
            && Found(r, "p", ALL) == Some(Rec("p", MAX_VERSION, 0, v1))
            && Call(Compile(r, c, x), c, "p", 0, ALL).1 == Ran(v1)
  {
    assert Find(s.prog, "p", 0) == 0;
    var r := Save(s, c, "p", 0, v2, true, true, Written, Written);
    UnbackedRuns(Compile(r, c, x), c, 0);
  }
}
