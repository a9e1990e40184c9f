// What statements mean as parsed: lists in order, the taken branch, loops, and a
// switch that goes to the label its value equals once converted; and that the trees
// the code generator is handed mean the same.

module CNodes {
  import opened Basics
  import opened Words
  import opened CTree
  import opened X64
  import opened Gen
  import opened Emit
  import opened SimUnit
  import opened Compiled
  import opened CTypes
  import opened COps
  import opened CCases
  import opened CParsed

  // ---- where a switch goes -------------------------------------------------------------------

  /** Section 6.8.4.2 of C11: the label, converted to the type of the condition,
      equals its value. */
  predicate Matches(lab: Label, v: int, t: Ty) { lab.Some? && Is(v, lab.value, t) }

  /** The label that matches, or else the default, if there is one. */
  function Target(ls: seq<Label>, v: int, t: Ty): Option<Label> {
    if ls == [] then None
    else if Matches(ls[0], v, t) then Some(ls[0])
    else
      var r := Target(ls[1..], v, t);
      if r == None && ls[0] == None then Some(None) else r
  }

  lemma {:induction false} TargetIs(ls: seq<Label>, v: int, t: Ty)
    ensures var r := Target(ls, v, t);
            && (r.Some? ==> r.value in ls)
            && (r.Some? && r.value.Some? ==> Matches(r.value, v, t))
            && (r.None? || r.value.None? ==> forall lab :: lab in ls ==> !Matches(lab, v, t))
            && (r.None? <==> (forall lab :: lab in ls ==> !Matches(lab, v, t)) && None !in ls)
  {
    hide Is;
    if ls != [] {
      TargetIs(ls[1..], v, t);
      assert ls == [ls[0]] + ls[1..];
    }
  }

  // ---- the meaning ---------------------------------------------------------------------------

  /** Running `n` from its start, or from the label `k` inside it. */
  function MeanN(w: World, n: Node, k: Option<Label>, fp: int, sp: int, mem: Mem, fuel: nat): (r: Out<Flow>)
    ensures r.Ok? ==> r.fuel <= fuel
    decreases fuel, n, 1
  {
    match n
    case Plain(s) => Exec(w, s, None, fp, sp, mem, fuel)
    case Block(l) => MeanL(w, l, k, fp, sp, mem, fuel)
    case IfN(c, t, f) =>
      if k.Some? then
        if k.value in Written(t) then MeanN(w, t, k, fp, sp, mem, fuel)
        else if f.Some? then MeanN(w, f.value, k, fp, sp, mem, fuel)
        else Wild
      else
        var b := EvalE(w, c, fp, sp, mem, fuel);
        if !b.Ok? then b.Fail()
        else if b.v != 0 then MeanN(w, t, None, fp, sp, b.mem, b.fuel)
        else if f.Some? then MeanN(w, f.value, None, fp, sp, b.mem, b.fuel)
        else Ok(Next, b.mem, b.fuel)
    case LoopN(init, _, _, _, _) =>
      var i := if k.Some? then Ok(Next, mem, fuel) else MeanInit(w, init, fp, sp, mem, fuel);
      if i.Ok? && i.v.Next? then MeanLoop(w, n, k, fp, sp, i.mem, i.fuel) else i
    case CaseN(mark, b) => MeanN(w, b, if k == Some(mark) then None else k, fp, sp, mem, fuel)
    case SwitchN(c, b) =>
      var v := EvalE(w, c, fp, sp, mem, fuel);
      if !v.Ok? then v.Fail() else
      var to := Target(Written(b), v.v, ETy(c));
      if to.None? then Ok(Next, v.mem, v.fuel)
      else
        var x := MeanN(w, b, to, fp, sp, v.mem, v.fuel);
        if x.Ok? && x.v.Brk? then Ok(Next, x.mem, x.fuel) else x
  }

  function MeanL(w: World, l: Nodes, k: Option<Label>, fp: int, sp: int, mem: Mem, fuel: nat): (r: Out<Flow>)
    ensures r.Ok? ==> r.fuel <= fuel
    decreases fuel, l, 1
  {
    if l.End? then Ok(Next, mem, fuel)
    else if k.Some? && k.value !in Written(l.head) then MeanL(w, l.tail, k, fp, sp, mem, fuel)
    else
      var x := MeanN(w, l.head, k, fp, sp, mem, fuel);
      if x.Ok? && x.v.Next? then MeanL(w, l.tail, None, fp, sp, x.mem, x.fuel) else x
  }

  /** The initialisers of a `for`, in order. */
  function MeanInit(w: World, init: seq<Simple>, fp: int, sp: int, mem: Mem, fuel: nat): (r: Out<Flow>)
    ensures r.Ok? ==> r.fuel <= fuel
    decreases fuel, |init|
  {
    if init == [] then Ok(Next, mem, fuel)
    else
      var x := Exec(w, init[0], None, fp, sp, mem, fuel);
      if x.Ok? && x.v.Next? then MeanInit(w, init[1..], fp, sp, x.mem, x.fuel) else x
  }

  /** The loop from its top, or from a label in it. */
  function MeanLoop(w: World, n: Node, k: Option<Label>, fp: int, sp: int, mem: Mem, fuel: nat): (r: Out<Flow>)
    requires n.LoopN?
    ensures r.Ok? ==> r.fuel <= fuel
    decreases fuel, n, 0
  {
    var t := if n.testFirst && k.None? then EvalO(w, n.cond, fp, sp, mem, fuel) else Ok(1, mem, fuel);
    if !t.Ok? then t.Fail() else if t.v == 0 then Ok(Next, t.mem, t.fuel) else
    var b := MeanN(w, n.body, k, fp, sp, t.mem, t.fuel);
    if !b.Ok? || b.v.Gone? then b else if b.v.Brk? then Ok(Next, b.mem, b.fuel)
    else MeanTail(w, n, fp, sp, b.mem, b.fuel)
  }

  /** From the `continue` point: the post expression, a trailing test, one unit of
      fuel, and around again. */
  function MeanTail(w: World, n: Node, fp: int, sp: int, mem: Mem, fuel: nat): (r: Out<Flow>)
    requires n.LoopN?
    ensures r.Ok? ==> r.fuel <= fuel
    decreases fuel, n, 0, 0
  {
    var p := EvalO(w, n.post, fp, sp, mem, fuel);
    if !p.Ok? then p.Fail() else
    var u := if n.testFirst then Ok(1, p.mem, p.fuel) else EvalO(w, n.cond, fp, sp, p.mem, p.fuel);
    if !u.Ok? then u.Fail() else if u.v == 0 then Ok(Next, u.mem, u.fuel)
    else if u.fuel == 0 then NoFuel(u.mem)
    else MeanLoop(w, n, None, fp, sp, u.mem, u.fuel - 1)
  }

  /** A function: its parameters, then its statements; falling off the end gives 0. */
  function MeanF(w: World, f: Func, n: Node, vs: seq<int>, top: int, mem: Mem, fuel: nat): Out<int> {
    var fp := top - 16;
    if fuel == 0 then NoFuel(mem)
    else if fp - f.frame < w.limit then NoStack(mem, fuel - 1)
    else
      var p := PutParams(w, f.params, vs, fp, mem, fuel - 1);
      if !p.Ok? then p else
      var b := MeanN(w, n, None, fp, fp - f.frame, p.mem, fuel - 1);
      match b
      case Ok(Gone(v), m, n) => Ok(v, m, n)
      case Ok(Next, m, n) => Ok(0, m, n)
      case Ok(_, _, _) => Wild
      case _ => b.Fail()
  }

  // ---- labels and keys -----------------------------------------------------------------------

  /** A label keeps its value if the type has it, and otherwise becomes the one value
      of the type that differs by a multiple of the range; that is the pattern the
      parser computes. */
  lemma KeyIs(lab: Label, t: Ty)
    requires t.Int?
    ensures lab.None? ==> KeyOf(lab, t) == Default
    ensures lab.Some? ==>
              var k := KeyOf(lab, t);
              && k.CaseOf? && Is(k.v, lab.value, t) && (Fits(lab.value, t.w, t.uns) ==> k.v == lab.value)
              && Enc(k.v) == AsType(Enc(lab.value), t)
  {
    hide Is;
    if lab.Some? {
      AsIs(lab.value, t);
      AsTypeIs(lab.value, t);
      if Fits(lab.value, t.w, t.uns) {
        FittingIs(KeyOf(lab, t).v, lab.value, t);
      }
    }
  }

  lemma KeyMatches(lab: Label, v: int, t: Ty)
    requires t.Int?
    ensures KeyOf(lab, t) == CaseOf(v) <==> Matches(lab, v, t)
  {
    hide Is, KeyOf;
    KeyIs(lab, t);
    if lab.Some? && Is(v, lab.value, t) {
      IsUnique(v, KeyOf(lab, t).v, lab.value, t);
    }
  }

  /** Different labels of the switch convert to different keys. */
  ghost predicate Apart(all: set<Label>, t: Ty) {
    forall a, b :: a in all && b in all && KeyOf(a, t) == KeyOf(b, t) ==> a == b
  }

  ghost predicate Among(ls: seq<Label>, all: set<Label>) { forall lab :: lab in ls ==> lab in all }

  /** In the tree of a part the walk comes to, a key is found exactly where its label
      was written. */
  lemma CaseWhere(n: Node, t: Ty, lab: Label, all: set<Label>)
    requires Reached(n) && Apart(all, t) && Among(Written(n), all) && lab in all
    ensures HasCase(Tree(n, Some(t)), KeyOf(lab, t)) <==> lab in Written(n)
  {
    hide Tree, Labels, Cases, KeyOf, Reached, Walk, Written;
    var s := Tree(n, Some(t));
    LostIff(n, t);
    WalksAll(n);
    LabelsAreCases(s);
    var k, ks := KeyOf(lab, t), KeysOf(Walk(n), t);
    assert k in ToSet(Labels(s)) <==> k in multiset(Labels(s));
    assert k in multiset(ks) <==> k in ks;
    assert lab in Walk(n) <==> lab in multiset(Walk(n));
    assert lab in Written(n) <==> lab in multiset(Written(n));
    if k in ks {
      var i :| 0 <= i < |ks| && ks[i] == k;
      assert Walk(n)[i] in multiset(Walk(n));
      assert Walk(n)[i] in Written(n);
    }
    if lab in Walk(n) {
      var i :| 0 <= i < |Walk(n)| && Walk(n)[i] == lab;
      assert ks[i] == k;
    }
  }

  function LabelSet(b: Node): set<Label> { set lab | lab in Written(b) }

  lemma AcceptedApart(b: Node, t: Ty)
    requires Accepted(b, t) && Reached(b)
    ensures Apart(LabelSet(b), t)
  {
    hide Walk, Written, Reached, KeyOf, Rise;
    var all, ks := LabelSet(b), KeysOf(Walk(b), t);
    WalksAll(b);
    forall x, y | x in all && y in all && KeyOf(x, t) == KeyOf(y, t)
      ensures x == y
    {
      assert x in multiset(Written(b)) && y in multiset(Written(b));
      assert x in Walk(b) && y in Walk(b);
      var i :| 0 <= i < |Walk(b)| && Walk(b)[i] == x;
      var j :| 0 <= j < |Walk(b)| && Walk(b)[j] == y;
      assert ks[i] == ks[j];
    }
  }

  /** The generated switch goes where the written one does. */
  lemma SwitchTarget(b: Node, t: Ty, v: int)
    requires t.Int? && Accepted(b, t) && Reached(b)
    ensures var ks, to := KeysOf(Walk(b), t), Target(Written(b), v, t);
            && (to.None? <==> v !in Values(ks) && Default !in ks)
            && (to.Some? ==> KeyOf(to.value, t) == if v in Values(ks) then CaseOf(v) else Default)
  {
    hide Walk, Written, Reached, KeyOf, Rise, Values, Target, Matches, NoTwice;
    var ks, to := KeysOf(Walk(b), t), Target(Written(b), v, t);
    TargetIs(Written(b), v, t);
    InValues(ks, v);
    WalksAll(b);
    forall lab
      ensures lab in Written(b) <==> lab in Walk(b)
      ensures lab in Written(b) ==> KeyOf(lab, t) in ks
      ensures KeyOf(lab, t) == CaseOf(v) <==> Matches(lab, v, t)
      ensures KeyOf(lab, t) == Default <==> lab == None
    {
      assert lab in multiset(Written(b)) <==> lab in multiset(Walk(b));
      if lab in Walk(b) {
        var i :| 0 <= i < |Walk(b)| && Walk(b)[i] == lab;
        assert ks[i] == KeyOf(lab, t);
      }
      KeyMatches(lab, v, t);
      KeyIs(lab, t);
    }
    if CaseOf(v) in ks {
      var i :| 0 <= i < |ks| && ks[i] == CaseOf(v);
      assert Matches(Walk(b)[i], v, t);
    }
    if Default in ks {
      var i :| 0 <= i < |ks| && ks[i] == Default;
      assert Walk(b)[i] == None;
    }
  }

  // ---- the trees mean the same ---------------------------------------------------------------

  /** Every switch was accepted and found all its labels. */
  predicate Sound(n: Node) {
    match n
    case Plain(_) => true
    case Block(l) => SoundL(l)
    case IfN(_, t, f) => Sound(t) && (f.Some? ==> Sound(f.value))
    case LoopN(_, _, _, _, b) => Sound(b)
    case CaseN(_, b) => Sound(b)
    case SwitchN(c, b) => ETy(c).Int? && Accepted(b, ETy(c)) && Reached(b) && Sound(b)
  }

  predicate SoundL(l: Nodes) { l.More? ==> Sound(l.head) && SoundL(l.tail) }

  lemma {:induction false} ParsedSound(w: World, n: Node, ret: Ty, brk: bool, cont: bool, sw: bool)
    requires WellParsed(w, n, ret, brk, cont, sw) && AllReached(n)
    ensures Sound(n)
    decreases n
  {
    hide WellTyped, WellFormed, Accepted, Reached, ETy;
    match n
    case Plain(_) =>
    case Block(l) => ParsedSoundL(w, l, ret, brk, cont, sw);
    case IfN(_, t, f) =>
      ParsedSound(w, t, ret, brk, cont, sw);
      if f.Some? {
        ParsedSound(w, f.value, ret, brk, cont, sw);
      }
    case LoopN(_, _, _, _, b) => ParsedSound(w, b, ret, true, true, sw);
    case CaseN(_, b) => ParsedSound(w, b, ret, brk, cont, sw);
    case SwitchN(_, b) => ParsedSound(w, b, ret, true, cont, true);
  }

  lemma {:induction false} ParsedSoundL(w: World, l: Nodes, ret: Ty, brk: bool, cont: bool, sw: bool)
    requires WellParsedL(w, l, ret, brk, cont, sw) && AllReachedL(l)
    ensures SoundL(l)
    decreases l
  {
    if l.More? {
      ParsedSound(w, l.head, ret, brk, cont, sw);
      ParsedSoundL(w, l.tail, ret, brk, cont, sw);
    }
  }

  /** A label to start from is written in the part and the walk comes to all of it;
      `all` are the labels of the switch around. */
  ghost predicate Enters(n: Node, k: Option<Label>, walk: Option<Ty>, all: set<Label>) {
    k.Some? ==> walk.Some? && k.value in Written(n) && Reached(n) && Apart(all, walk.value) && Among(Written(n), all)
  }

  ghost predicate EntersL(l: Nodes, k: Option<Label>, walk: Option<Ty>, all: set<Label>) {
    k.Some? ==> walk.Some? && k.value in WrittenL(l) && ReachedL(l) && Apart(all, walk.value) && Among(WrittenL(l), all)
  }

  function KeyFor(k: Option<Label>, walk: Option<Ty>): Option<Key> {
    if k.Some? && walk.Some? then Some(KeyOf(k.value, walk.value)) else None
  }

  /** The tree handed to the generator means what the statement does as parsed. */
  lemma {:induction false} TreeMeans(w: World, n: Node, k: Option<Label>, walk: Option<Ty>, all: set<Label>, fp: int,
                                     sp: int, mem: Mem, fuel: nat)
    requires Sound(n) && Enters(n, k, walk, all)
    ensures MeanN(w, n, k, fp, sp, mem, fuel) == Exec(w, Tree(n, walk), KeyFor(k, walk), fp, sp, mem, fuel)
    decreases fuel, n, 1
  {
    hide Sound, KeyOf, Reached;
    match n
    case Plain(_) =>
    case Block(l) =>
      hide Exec, MeanL;
      BlockMeans(w, l, k, walk, all, fp, sp, mem, fuel);
    case IfN(_, _, _) =>
      hide Exec, MeanN;
      IfMeans(w, n, k, walk, all, fp, sp, mem, fuel);
    case LoopN(_, _, _, _, _) =>
      hide Exec, MeanN;
      ForMeans(w, n, k, walk, all, fp, sp, mem, fuel);
    case CaseN(_, _) =>
      hide Exec, MeanN;
      CaseMeans(w, n, k, walk, all, fp, sp, mem, fuel);
    case SwitchN(_, _) =>
      hide Exec, MeanN;
      SwitchMeans(w, n, k, walk, fp, sp, mem, fuel);
  }

  lemma {:induction false} BlockMeans(w: World, l: Nodes, k: Option<Label>, walk: Option<Ty>, all: set<Label>, fp: int,
                                      sp: int, mem: Mem, fuel: nat)
    requires Sound(Block(l)) && Enters(Block(l), k, walk, all)
    ensures MeanL(w, l, k, fp, sp, mem, fuel) == Exec(w, Tree(Block(l), walk), KeyFor(k, walk), fp, sp, mem, fuel)
    decreases fuel, l, 2
  {
    hide Exec, MeanL, KeyOf;
    var into := if Starts(l) then walk else None;
    assert Tree(Block(l), walk) == TreeL(l, into);
    ListMeans(w, l, k, into, all, fp, sp, mem, fuel);
  }

  lemma {:induction false} ListMeans(w: World, l: Nodes, k: Option<Label>, walk: Option<Ty>, all: set<Label>, fp: int,
                                     sp: int, mem: Mem, fuel: nat)
    requires SoundL(l) && EntersL(l, k, walk, all)
    ensures MeanL(w, l, k, fp, sp, mem, fuel) == Exec(w, TreeL(l, walk), KeyFor(k, walk), fp, sp, mem, fuel)
    decreases fuel, l, 1
  {
    hide KeyOf, Sound, MeanN, Tree, Reached, Written, Apart;
    if l.More? {
      var key := KeyFor(k, walk);
      var a, b := Tree(l.head, walk), TreeL(l.tail, walk);
      SeqOpens(w, a, b, key, fp, sp, mem, fuel);
      ListOpens(w, l, k, fp, sp, mem, fuel);
      hide Exec, MeanL;
      if k.Some? {
        CaseWhere(l.head, walk.value, k.value, all);
      }
      if k.Some? && k.value !in Written(l.head) {
        ListMeans(w, l.tail, k, walk, all, fp, sp, mem, fuel);
      } else {
        TreeMeans(w, l.head, k, walk, all, fp, sp, mem, fuel);
        var x := MeanN(w, l.head, k, fp, sp, mem, fuel);
        if x.Ok? && x.v.Next? {
          ListMeans(w, l.tail, None, walk, all, fp, sp, x.mem, x.fuel);
        }
      }
    }
  }

  lemma SeqOpens(w: World, a: Stmt, b: Stmt, k: Option<Key>, fp: int, sp: int, mem: Mem, fuel: nat)
    ensures Exec(w, Seq(a, b), k, fp, sp, mem, fuel) ==
            if k.Some? && !HasCase(a, k.value) then Exec(w, b, k, fp, sp, mem, fuel)
            else
              var x := Exec(w, a, k, fp, sp, mem, fuel);
              if x.Ok? && x.v.Next? then Exec(w, b, None, fp, sp, x.mem, x.fuel) else x
  {
    hide HasCase;
  }

  lemma ListOpens(w: World, l: Nodes, k: Option<Label>, fp: int, sp: int, mem: Mem, fuel: nat)
    requires l.More?
    ensures MeanL(w, l, k, fp, sp, mem, fuel) ==
            if k.Some? && k.value !in Written(l.head) then MeanL(w, l.tail, k, fp, sp, mem, fuel)
            else
              var x := MeanN(w, l.head, k, fp, sp, mem, fuel);
              if x.Ok? && x.v.Next? then MeanL(w, l.tail, None, fp, sp, x.mem, x.fuel) else x
  {
    hide MeanN, Written;
  }

  lemma {:induction false} IfMeans(w: World, n: Node, k: Option<Label>, walk: Option<Ty>, all: set<Label>, fp: int,
                                   sp: int, mem: Mem, fuel: nat)
    requires n.IfN? && Sound(n) && Enters(n, k, walk, all)
    ensures MeanN(w, n, k, fp, sp, mem, fuel) == Exec(w, Tree(n, walk), KeyFor(k, walk), fp, sp, mem, fuel)
    decreases fuel, n, 0
  {
    hide KeyOf, Apart, EvalE;
    var t, f := Tree(n.t, walk), if n.f.Some? then Some(Tree(n.f.value, walk)) else None;
    assert Tree(n, walk) == If(n.c, t, f);
    IfOpens(w, n.c, t, f, KeyFor(k, walk), fp, sp, mem, fuel);
    IfNOpens(w, n, k, fp, sp, mem, fuel);
    hide Exec, MeanN, Tree;
    if k.Some? {
      CaseWhere(n.t, walk.value, k.value, all);
      if k.value in Written(n.t) {
        TreeMeans(w, n.t, k, walk, all, fp, sp, mem, fuel);
      } else if n.f.Some? {
        TreeMeans(w, n.f.value, k, walk, all, fp, sp, mem, fuel);
      }
    } else {
      var b := EvalE(w, n.c, fp, sp, mem, fuel);
      if b.Ok? {
        TreeMeans(w, n.t, None, walk, all, fp, sp, b.mem, b.fuel);
        if n.f.Some? {
          TreeMeans(w, n.f.value, None, walk, all, fp, sp, b.mem, b.fuel);
        }
      }
    }
  }

  lemma IfOpens(w: World, c: Expr, t: Stmt, f: Option<Stmt>, k: Option<Key>, fp: int, sp: int, mem: Mem, fuel: nat)
    ensures var b := EvalE(w, c, fp, sp, mem, fuel);
            Exec(w, If(c, t, f), k, fp, sp, mem, fuel) ==
            if k.Some? then
              if HasCase(t, k.value) then Exec(w, t, k, fp, sp, mem, fuel)
              else if f.Some? then Exec(w, f.value, k, fp, sp, mem, fuel) else Wild
            else if !b.Ok? then b.Fail()
            else if b.v != 0 then Exec(w, t, None, fp, sp, b.mem, b.fuel)
            else if f.Some? then Exec(w, f.value, None, fp, sp, b.mem, b.fuel)
            else Ok(Next, b.mem, b.fuel)
  {
    hide HasCase, EvalE;
  }

  lemma IfNOpens(w: World, n: Node, k: Option<Label>, fp: int, sp: int, mem: Mem, fuel: nat)
    requires n.IfN?
    ensures var b := EvalE(w, n.c, fp, sp, mem, fuel);
            MeanN(w, n, k, fp, sp, mem, fuel) ==
            if k.Some? then
              if k.value in Written(n.t) then MeanN(w, n.t, k, fp, sp, mem, fuel)
              else if n.f.Some? then MeanN(w, n.f.value, k, fp, sp, mem, fuel) else Wild
            else if !b.Ok? then b.Fail()
            else if b.v != 0 then MeanN(w, n.t, None, fp, sp, b.mem, b.fuel)
            else if n.f.Some? then MeanN(w, n.f.value, None, fp, sp, b.mem, b.fuel)
            else Ok(Next, b.mem, b.fuel)
  {
    hide Written, EvalE;
  }

  lemma {:induction false} CaseMeans(w: World, n: Node, k: Option<Label>, walk: Option<Ty>, all: set<Label>, fp: int,
                                     sp: int, mem: Mem, fuel: nat)
    requires n.CaseN? && Sound(n) && Enters(n, k, walk, all)
    ensures MeanN(w, n, k, fp, sp, mem, fuel) == Exec(w, Tree(n, walk), KeyFor(k, walk), fp, sp, mem, fuel)
    decreases fuel, n, 0
  {
    hide KeyOf;
    var key := if walk.Some? then KeyOf(n.mark, walk.value) else Buried;
    var b, kk := Tree(n.body, walk), KeyFor(k, walk);
    var rest := if k == Some(n.mark) then None else k;
    CaseOpens(w, key, b, kk, fp, sp, mem, fuel);
    assert MeanN(w, n, k, fp, sp, mem, fuel) == MeanN(w, n.body, rest, fp, sp, mem, fuel);
    assert Tree(n, walk) == Case(key, b);
    hide Exec, MeanN, Tree;
    if k.Some? {
      assert n.mark in Written(n);
    }
    assert (if kk == Some(key) then None else kk) == KeyFor(rest, walk);
    TreeMeans(w, n.body, rest, walk, all, fp, sp, mem, fuel);
  }

  lemma CaseOpens(w: World, key: Key, b: Stmt, k: Option<Key>, fp: int, sp: int, mem: Mem, fuel: nat)
    ensures Exec(w, Case(key, b), k, fp, sp, mem, fuel) ==
            Exec(w, b, if k == Some(key) then None else k, fp, sp, mem, fuel)
  {
  }

  lemma {:induction false} SwitchMeans(w: World, n: Node, k: Option<Label>, walk: Option<Ty>, fp: int, sp: int,
                                       mem: Mem,
                                       fuel: nat)
    requires n.SwitchN? && Sound(n) && k.None?
    ensures MeanN(w, n, k, fp, sp, mem, fuel) == Exec(w, Tree(n, walk), None, fp, sp, mem, fuel)
    decreases fuel, n, 0
  {
    hide KeyOf, Accepted, Reached, Target, EvalE, ETy;
    var t := ETy(n.c);
    var ks, b := KeysOf(Walk(n.body), t), Tree(n.body, Some(t));
    TreeSwitch(n.c, n.body);
    SwitchOpens(w, n.c, ks, b, fp, sp, mem, fuel);
    SwitchNOpens(w, n, fp, sp, mem, fuel);
    hide Exec, MeanN, Tree, Walk, Written, Values;
    var v := EvalE(w, n.c, fp, sp, mem, fuel);
    if v.Ok? {
      SwitchTarget(n.body, t, v.v);
      TargetIs(Written(n.body), v.v, t);
      AcceptedApart(n.body, t);
      var to := Target(Written(n.body), v.v, t);
      if to.Some? {
        TreeMeans(w, n.body, to, Some(t), LabelSet(n.body), fp, sp, v.mem, v.fuel);
      }
    }
  }

  lemma SwitchOpens(w: World, c: Expr, ks: seq<Key>, b: Stmt, fp: int, sp: int, mem: Mem, fuel: nat)
    ensures var v := EvalE(w, c, fp, sp, mem, fuel);
            Exec(w, SwitchOf(c, ks, b), None, fp, sp, mem, fuel) ==
            if !v.Ok? then v.Fail()
            else if v.v !in Values(ks) && Default !in ks then Ok(Next, v.mem, v.fuel)
            else
              var x := Exec(w, b, Some(if v.v in Values(ks) then CaseOf(v.v) else Default), fp, sp, v.mem, v.fuel);
              if x.Ok? && x.v.Brk? then Ok(Next, x.mem, x.fuel) else x
  {
    hide Values, EvalE;
  }

  lemma SwitchNOpens(w: World, n: Node, fp: int, sp: int, mem: Mem, fuel: nat)
    requires n.SwitchN?
    ensures var v := EvalE(w, n.c, fp, sp, mem, fuel);
            MeanN(w, n, None, fp, sp, mem, fuel) ==
            if !v.Ok? then v.Fail() else
            var to := Target(Written(n.body), v.v, ETy(n.c));
            if to.None? then Ok(Next, v.mem, v.fuel)
            else
              var x := MeanN(w, n.body, to, fp, sp, v.mem, v.fuel);
              if x.Ok? && x.v.Brk? then Ok(Next, x.mem, x.fuel) else x
  {
    hide Written, EvalE, Target, ETy;
  }

  // ---- loops ---------------------------------------------------------------------------------

  lemma {:induction false} AfterMeans(w: World, init: seq<Simple>, s: Stmt, k: Option<Key>, fp: int, sp: int, mem: Mem,
                                      fuel: nat)
    ensures var i := if k.Some? then Ok(Next, mem, fuel) else MeanInit(w, init, fp, sp, mem, fuel);
            Exec(w, After(init, s), k, fp, sp, mem, fuel) ==
            if i.Ok? && i.v.Next? then Exec(w, s, k, fp, sp, i.mem, i.fuel) else i
    decreases |init|
  {
    if init != [] {
      SeqOpens(w, init[0], After(init[1..], s), k, fp, sp, mem, fuel);
      assert Cases(init[0]) == {};
      hide Exec;
      if k.Some? {
        AfterMeans(w, init[1..], s, k, fp, sp, mem, fuel);
      } else {
        var x := Exec(w, init[0], None, fp, sp, mem, fuel);
        if x.Ok? && x.v.Next? {
          AfterMeans(w, init[1..], s, k, fp, sp, x.mem, x.fuel);
        }
      }
    }
  }

  function LoopOf(n: Node, walk: Option<Ty>): Stmt
    requires n.LoopN?
  {
    Loop(n.cond, n.testFirst, n.post, Tree(n.body, walk))
  }

  lemma {:induction false} ForMeans(w: World, n: Node, k: Option<Label>, walk: Option<Ty>, all: set<Label>, fp: int,
                                    sp: int, mem: Mem, fuel: nat)
    requires n.LoopN? && Sound(n) && Enters(n, k, walk, all)
    ensures MeanN(w, n, k, fp, sp, mem, fuel) == Exec(w, Tree(n, walk), KeyFor(k, walk), fp, sp, mem, fuel)
    decreases fuel, n, 0, 2
  {
    hide KeyOf;
    var s, key := LoopOf(n, walk), KeyFor(k, walk);
    assert Tree(n, walk) == After(n.init, s);
    AfterMeans(w, n.init, s, key, fp, sp, mem, fuel);
    ForOpens(w, n, k, fp, sp, mem, fuel);
    var i := if k.Some? then Ok(Next, mem, fuel) else MeanInit(w, n.init, fp, sp, mem, fuel);
    if i.Ok? && i.v.Next? {
      LoopOpens(w, s, key, fp, sp, i.mem, i.fuel);
      hide Exec, MeanN, MeanLoop, Iterate, Tree, MeanInit;
      LoopMeans(w, n, k, walk, all, fp, sp, i.mem, i.fuel);
    }
  }

  lemma ForOpens(w: World, n: Node, k: Option<Label>, fp: int, sp: int, mem: Mem, fuel: nat)
    requires n.LoopN?
    ensures var i := if k.Some? then Ok(Next, mem, fuel) else MeanInit(w, n.init, fp, sp, mem, fuel);
            MeanN(w, n, k, fp, sp, mem, fuel) ==
            if i.Ok? && i.v.Next? then MeanLoop(w, n, k, fp, sp, i.mem, i.fuel) else i
  {
    hide MeanLoop, MeanInit;
  }

  lemma LoopOpens(w: World, s: Stmt, k: Option<Key>, fp: int, sp: int, mem: Mem, fuel: nat)
    requires s.Loop?
    ensures Exec(w, s, k, fp, sp, mem, fuel) == Iterate(w, s, k, fp, sp, mem, fuel)
  {
    hide Iterate;
  }

  lemma {:induction false} LoopMeans(w: World, n: Node, k: Option<Label>, walk: Option<Ty>, all: set<Label>, fp: int,
                                     sp: int, mem: Mem, fuel: nat)
    requires n.LoopN? && Sound(n) && Enters(n, k, walk, all)
    ensures MeanLoop(w, n, k, fp, sp, mem, fuel) == Iterate(w, LoopOf(n, walk), KeyFor(k, walk), fp, sp, mem, fuel)
    decreases fuel, n, 0, 1
  {
    hide KeyOf, EvalO, Exec, MeanN, Tail, MeanTail, Tree, Apart;
    var s := LoopOf(n, walk);
    var t := if n.testFirst && k.None? then EvalO(w, n.cond, fp, sp, mem, fuel) else Ok(1, mem, fuel);
    if t.Ok? && t.v != 0 {
      TreeMeans(w, n.body, k, walk, all, fp, sp, t.mem, t.fuel);
      var b := MeanN(w, n.body, k, fp, sp, t.mem, t.fuel);
      if b.Ok? && (b.v.Next? || b.v.Cont?) {
        TailMeans(w, n, walk, all, fp, sp, b.mem, b.fuel);
      }
    }
  }

  lemma {:induction false} TailMeans(w: World, n: Node, walk: Option<Ty>, all: set<Label>, fp: int, sp: int, mem: Mem,
                                     fuel: nat)
    requires n.LoopN? && Sound(n)
    ensures MeanTail(w, n, fp, sp, mem, fuel) == Tail(w, LoopOf(n, walk), fp, sp, mem, fuel)
    decreases fuel, n, 0, 0
  {
    hide EvalO, Exec, MeanN, MeanLoop, Iterate, Tree, Sound;
    var p := EvalO(w, n.post, fp, sp, mem, fuel);
    if p.Ok? {
      var u := if n.testFirst then Ok(1, p.mem, p.fuel) else EvalO(w, n.cond, fp, sp, p.mem, p.fuel);
      if u.Ok? && u.v != 0 && u.fuel > 0 {
        LoopMeans(w, n, None, walk, all, fp, sp, u.mem, u.fuel - 1);
      }
    }
  }

  // ---- functions and the unit ----------------------------------------------------------------

  /** Every function of a unit the generator accepts means what was parsed. */
  lemma FunctionMeans(w: World, ns: seq<Node>, entry: nat, cap: nat, i: nat, vs: seq<int>, top: int, mem: Mem,
                      fuel: nat)
    requires ParsedUnit(w, ns) && entry < |w.funcs| && !EmitUnit(w.funcs, entry, cap).fails && i < |ns|
    ensures RunFunc(w, w.funcs[i], vs, top, mem, fuel) == MeanF(w, w.funcs[i], ns[i], vs, top, mem, fuel)
  {
    hide EmitUnit, Sound, Exec, MeanN, PutParams, Tree, AllReached;
    RefusedForSize(w, ns, entry, cap);
    assert ParsedFunc(w, w.funcs[i], ns[i]);
    ParsedSound(w, ns[i], w.funcs[i].ret, false, false, false);
    var f, fp := w.funcs[i], top - 16;
    if fuel > 0 {
      var p := PutParams(w, f.params, vs, fp, mem, fuel - 1);
      if p.Ok? {
        TreeMeans(w, ns[i], None, None, {}, fp, fp - f.frame, p.mem, fuel - 1);
      }
    }
  }

  /** From statements as parsed to the buffer: running it gives what the entry
      function means. */
  lemma ParsedRuns(w: World, ns: seq<Node>, entry: nat, cap: nat, s: State) returns (n: nat)
    requires ParsedUnit(w, ns) && entry < |w.funcs| && !EmitUnit(w.funcs, entry, cap).fails
    requires s.status == Running && s.pc == 0 && 0 <= s.fuel
    requires s.rt.limit == w.limit && s.rt.prsp % 16 == 0
    ensures var r := MeanF(w, w.funcs[entry], ns[entry], Incoming(w, entry, s), s.rt.prsp, s.mem, s.fuel);
            && Finished(w, entry, s, Run(w, Buffer(w.funcs, entry, cap), s, n), r)
            && (r.Wild? || n <= 8 + MaxWeight(w.funcs) * (s.fuel + 1))
  {
    hide EmitUnit, ParsedUnit, Run, RunFunc, MeanF, Finished, Incoming, MaxWeight, Buffer;
    ParsedLength(w, ns);
    n := AcceptedRuns(w, ns, entry, cap, s);
    FunctionMeans(w, ns, entry, cap, entry, Incoming(w, entry, s), s.rt.prsp, s.mem, s.fuel);
  }

  lemma ParsedLength(w: World, ns: seq<Node>)
    requires ParsedUnit(w, ns)
    ensures |ns| == |w.funcs|
  {
  }

  /** One case alone: the statement is begun exactly when the value of the condition
      equals the label converted to its type. */
  lemma OneCase(w: World, c: Expr, v: int, s: Simple, fp: int, sp: int, mem: Mem, fuel: nat)
    requires ETy(c).Int?
    ensures var n := SwitchN(c, Block(Lone(CaseN(Some(v), Plain(s)))));
            var x := EvalE(w, c, fp, sp, mem, fuel);
            x.Ok? ==>
              MeanN(w, n, None, fp, sp, mem, fuel) ==
              if !Is(x.v, v, ETy(c)) then Ok(Next, x.mem, x.fuel)
              else
                var r := Exec(w, s, None, fp, sp, x.mem, x.fuel);
                if r.Ok? && r.v.Brk? then Ok(Next, r.mem, r.fuel) else r
  {
    hide Exec, EvalE, ETy, Is;
    var k := CaseN(Some(v), Plain(s));
    var b := Block(Lone(k));
    LoneIs(k);
    assert Written(k) == [Some(v)] + [] && Written(b) == [Some(v)];
    SwitchNOpens(w, SwitchN(c, b), fp, sp, mem, fuel);
    var x := EvalE(w, c, fp, sp, mem, fuel);
    if x.Ok? {
      TargetIs([Some(v)], x.v, ETy(c));
      assert Some(v) in [Some(v)];
      if Is(x.v, v, ETy(c)) {
        var to: Option<Label> := Some(Some(v));
        assert Target([Some(v)], x.v, ETy(c)) == to;
        ListOpens(w, Lone(k), to, fp, sp, x.mem, x.fuel);
        var r := Exec(w, s, None, fp, sp, x.mem, x.fuel);
        assert MeanN(w, Plain(s), None, fp, sp, x.mem, x.fuel) == r;
        assert MeanN(w, k, to, fp, sp, x.mem, x.fuel) == r;
        if r.Ok? {
          assert MeanL(w, End, None, fp, sp, r.mem, r.fuel) == Ok(Next, r.mem, r.fuel);
        }
        assert MeanN(w, b, to, fp, sp, x.mem, x.fuel) == MeanL(w, Lone(k), to, fp, sp, x.mem, x.fuel) == r;
      }
    }
  }
}
