// The trees the code generator is handed, from statements as parsed: which labels
// their switches missed, when they are well formed, and when a unit is refused.

module CParsed {
  import opened Basics
  import opened Words
  import opened CTree
  import opened X64
  import opened Gen
  import opened Emit
  import opened EmitFitsS
  import opened SimUnit
  import opened Compiled
  import opened CCases

  // ---- labels the walk never comes to --------------------------------------------------------

  /** Every block that holds a label starts with a block, a case, an if or a loop. */
  predicate Reached(n: Node) {
    match n
    case Plain(_) => true
    case Block(l) => (WrittenL(l) != [] ==> Starts(l)) && ReachedL(l)
    case IfN(_, t, f) => Reached(t) && (f.Some? ==> Reached(f.value))
    case LoopN(_, _, _, _, b) => Reached(b)
    case CaseN(_, b) => Reached(b)
    case SwitchN(_, _) => true
  }

  predicate ReachedL(l: Nodes) { l.More? ==> Reached(l.head) && ReachedL(l.tail) }

  function Missed(n: Node): multiset<Label> {
    match n
    case Plain(_) => multiset{}
    case Block(l) => if Starts(l) then MissedL(l) else multiset(WrittenL(l))
    case IfN(_, t, f) => Missed(t) + (if f.Some? then Missed(f.value) else multiset{})
    case LoopN(_, _, _, _, b) => Missed(b)
    case CaseN(_, b) => Missed(b)
    case SwitchN(_, _) => multiset{}
  }

  function MissedL(l: Nodes): multiset<Label> {
    if l.End? then multiset{} else Missed(l.head) + MissedL(l.tail)
  }

  /** Each label written is found once by the walk or missed. */
  lemma {:induction false} FoundOrMissed(n: Node)
    ensures multiset(Written(n)) == multiset(Walk(n)) + Missed(n)
    decreases n
  {
    match n
    case Plain(_) =>
    case Block(l) => FoundOrMissedL(l);
    case IfN(_, t, f) =>
      FoundOrMissed(t);
      if f.Some? {
        FoundOrMissed(f.value);
      }
      FoundIf(n);
    case LoopN(_, _, _, _, b) => FoundOrMissed(b);
    case CaseN(_, b) => FoundOrMissed(b);
    case SwitchN(_, _) =>
  }

  lemma FoundIf(n: Node)
    requires n.IfN? && multiset(Written(n.t)) == multiset(Walk(n.t)) + Missed(n.t)
    requires n.f.Some? ==> multiset(Written(n.f.value)) == multiset(Walk(n.f.value)) + Missed(n.f.value)
    ensures multiset(Written(n)) == multiset(Walk(n)) + Missed(n)
  {
    hide Walk;
    WalkBody(n);
    if n.f.Some? {
      var t, f := n.t, n.f.value;
      assert Written(n) == Written(t) + Written(f) && Missed(n) == Missed(t) + Missed(f);
      Sums(Written(t), Written(f), multiset(Walk(t)), multiset(Walk(f)), Missed(t), Missed(f));
    } else {
      assert Written(n) == Written(n.t) && Missed(n) == Missed(n.t) && Walk(n) == Walk(n.t);
    }
  }

  lemma {:induction false} FoundOrMissedL(l: Nodes)
    ensures multiset(WrittenL(l)) == multiset(WalkL(l)) + MissedL(l)
    decreases l
  {
    if l.More? {
      FoundOrMissed(l.head);
      FoundOrMissedL(l.tail);
    }
  }

  lemma {:induction false} MissedIff(n: Node)
    ensures Missed(n) == multiset{} <==> Reached(n)
    decreases n
  {
    match n
    case Plain(_) =>
    case Block(l) =>
      MissedIffL(l);
      if WrittenL(l) == [] {
        FoundOrMissedL(l);
      }
    case IfN(_, t, f) =>
      MissedIff(t);
      if f.Some? {
        MissedIff(f.value);
      }
    case LoopN(_, _, _, _, b) => MissedIff(b);
    case CaseN(_, b) => MissedIff(b);
    case SwitchN(_, _) =>
  }

  lemma {:induction false} MissedIffL(l: Nodes)
    ensures MissedL(l) == multiset{} <==> ReachedL(l)
    decreases l
  {
    if l.More? {
      MissedIff(l.head);
      MissedIffL(l.tail);
    }
  }

  /** The walk gathers every label of the switch exactly when every block among its
      statements that holds one starts with a block, a case, an if or a loop. */
  lemma WalksAll(n: Node)
    ensures multiset(Walk(n)) == multiset(Written(n)) <==> Reached(n)
  {
    FoundOrMissed(n);
    MissedIff(n);
  }

  // ---- the tree ------------------------------------------------------------------------------

  /** What the generator is handed: labels the walk found are converted to `walk`,
      the type of the switch around; the others stay without a place to go to. */
  function Tree(n: Node, walk: Option<Ty>): Stmt {
    match n
    case Plain(s) => s
    case Block(l) => TreeL(l, if Starts(l) then walk else None)
    case IfN(c, t, f) => If(c, Tree(t, walk), if f.Some? then Some(Tree(f.value, walk)) else None)
    case LoopN(init, c, first, p, b) => After(init, Loop(c, first, p, Tree(b, walk)))
    case CaseN(v, b) => Case(if walk.Some? then KeyOf(v, walk.value) else Buried, Tree(b, walk))
    case SwitchN(c, b) => SwitchOf(c, KeysOf(Walk(b), ETy(c)), Tree(b, Some(ETy(c))))
  }

  function TreeL(l: Nodes, walk: Option<Ty>): Stmt {
    if l.End? then Nop else Seq(Tree(l.head, walk), TreeL(l.tail, walk))
  }

  function After(init: seq<Simple>, s: Stmt): Stmt {
    if init == [] then s else Seq(init[0], After(init[1..], s))
  }

  function SwitchOf(c: Expr, ks: seq<Key>, b: Stmt): Stmt { Switch(c, Values(ks), Default in ks, b) }

  /** The labels of a tree in order; a nested switch owns its own. */
  function Labels(s: Stmt): seq<Key> {
    match s
    case Seq(a, b) => Labels(a) + Labels(b)
    case If(_, t, f) => Labels(t) + (if f.Some? then Labels(f.value) else [])
    case Loop(_, _, _, b) => Labels(b)
    case Case(k, b) => [k] + Labels(b)
    case _ => []
  }

  function ToSet(ks: seq<Key>): set<Key> { set k | k in ks }

  lemma {:induction false} LabelsAreCases(s: Stmt)
    ensures ToSet(Labels(s)) == Cases(s)
    ensures NoTwice(Labels(s)) <==> DistinctCases(s)
  {
    match s
    case Seq(a, b) =>
      LabelsAreCases(a);
      LabelsAreCases(b);
      Joined(Labels(a), Labels(b));
    case If(_, t, f) =>
      LabelsAreCases(t);
      if f.Some? {
        LabelsAreCases(f.value);
        Joined(Labels(t), Labels(f.value));
      } else {
        assert Labels(s) == Labels(t);
      }
    case Loop(_, _, _, b) => LabelsAreCases(b);
    case Case(k, b) =>
      LabelsAreCases(b);
      Joined([k], Labels(b));
    case _ =>
  }

  lemma Joined(a: seq<Key>, b: seq<Key>)
    ensures ToSet(a + b) == ToSet(a) + ToSet(b)
    ensures NoTwice(a + b) <==> NoTwice(a) && NoTwice(b) && ToSet(a) !! ToSet(b)
  {
    var all := a + b;
    if k :| k in a && k in b {
      var i :| 0 <= i < |a| && a[i] == k;
      var j :| 0 <= j < |b| && b[j] == k;
      assert all[i] == all[|a| + j];
      assert !NoTwice(all) && k in ToSet(a) && k in ToSet(b);
    } else if NoTwice(all) {
      assert forall i, j :: 0 <= i < j < |a| ==> all[i] == a[i] && all[j] == a[j];
      assert forall i, j :: 0 <= i < j < |b| ==> all[|a| + i] == b[i] && all[|a| + j] == b[j];
    } else {
      var i, j :| 0 <= i < j < |all| && all[i] == all[j];
      WhereTwice(a, b, i, j);
    }
  }

  lemma WhereTwice(a: seq<Key>, b: seq<Key>, i: nat, j: nat)
    requires i < j < |a + b| && (a + b)[i] == (a + b)[j]
    ensures !NoTwice(a) || !NoTwice(b) || exists k :: k in a && k in b
  {
    if j < |a| {
      assert a[i] == a[j];
    } else if i < |a| {
      assert a[i] in a && a[i] in b;
    } else {
      assert b[i - |a|] == b[j - |a|];
    }
  }

  // ---- labels of the tree --------------------------------------------------------------------

  function Lost(n: nat): multiset<Key> { multiset{}[Buried := n] }

  function Bag(ls: seq<Label>, ty: Ty): multiset<Key> { multiset(KeysOf(ls, ty)) }

  lemma BagJoin(a: seq<Label>, b: seq<Label>, ty: Ty)
    ensures Bag(a + b, ty) == Bag(a, ty) + Bag(b, ty)
  {
    KeysJoin(a, b, ty);
  }

  lemma BagOne(v: Label, ty: Ty)
    ensures Bag([v], ty) == multiset{KeyOf(v, ty)} && Bag([], ty) == multiset{}
  {
    assert KeysOf([v], ty) == [KeyOf(v, ty)];
    assert KeysOf([], ty) == [];
  }

  lemma {:induction false} AfterLabels(init: seq<Simple>, s: Stmt)
    ensures Labels(After(init, s)) == Labels(s)
  {
    if init != [] {
      AfterLabels(init[1..], s);
      assert Labels(init[0]) == [];
    }
  }

  predicate AllLost(ks: seq<Key>, n: nat) { |ks| == n && forall i :: 0 <= i < n ==> ks[i] == Buried }

  lemma {:induction false} AllLostBag(ks: seq<Key>, n: nat)
    requires AllLost(ks, n)
    ensures multiset(ks) == Lost(n)
  {
    if n > 0 {
      assert ks == ks[..n - 1] + [Buried];
      AllLostBag(ks[..n - 1], n - 1);
    }
  }

  /** Where the walk does not come, every label is lost. */
  lemma {:induction false} LostLabels(n: Node)
    ensures AllLost(Labels(Tree(n, None)), |Written(n)|)
    decreases n
  {
    match n
    case Plain(_) =>
    case Block(l) => LostLabelsL(l);
    case IfN(_, t, f) =>
      LostLabels(t);
      if f.Some? {
        LostLabels(f.value);
      }
    case LoopN(init, c, first, p, b) =>
      AfterLabels(init, Loop(c, first, p, Tree(b, None)));
      LostLabels(b);
    case CaseN(_, b) => LostLabels(b);
    case SwitchN(_, _) =>
  }

  lemma {:induction false} LostLabelsL(l: Nodes)
    ensures AllLost(Labels(TreeL(l, None)), |WrittenL(l)|)
    decreases l
  {
    if l.More? {
      LostLabels(l.head);
      LostLabelsL(l.tail);
    }
  }

  lemma LostAdd(a: multiset<Label>, b: multiset<Label>)
    ensures Lost(|a + b|) == Lost(|a|) + Lost(|b|) && Lost(|a|) + multiset{} == Lost(|a|)
  {
  }

  lemma Sums<T>(a: seq<T>, b: seq<T>, x: multiset<T>, y: multiset<T>, p: multiset<T>, q: multiset<T>)
    requires multiset(a) == x + p && multiset(b) == y + q
    ensures multiset(a + b) == x + y + (p + q) == y + x + (p + q)
  {
  }

  /** The labels of a switch's tree are those its walk found, converted, and one lost
      label for each it missed. */
  lemma {:induction false} ConvertedLabels(n: Node, ty: Ty)
    ensures multiset(Labels(Tree(n, Some(ty)))) == Bag(Walk(n), ty) + Lost(|Missed(n)|)
    decreases n
  {
    hide Bag, Lost, KeyOf;
    match n
    case Plain(_) => NoLabels(n, ty);
    case Block(l) => ConvertedBlock(l, ty);
    case IfN(_, t, f) => ConvertedIf(n, ty);
    case LoopN(init, c, first, p, b) =>
      hide Walk;
      AfterLabels(init, Loop(c, first, p, Tree(b, Some(ty))));
      ConvertedLabels(b, ty);
      WalkBody(n);
    case CaseN(v, b) => ConvertedCase(n, ty);
    case SwitchN(_, _) => NoLabels(n, ty);
  }

  lemma NoLabels(n: Node, ty: Ty)
    requires n.Plain? || n.SwitchN?
    ensures multiset(Labels(Tree(n, Some(ty)))) == Bag(Walk(n), ty) + Lost(|Missed(n)|)
  {
    hide Bag;
    BagOne(None, ty);
    assert Walk(n) == [];
  }

  lemma WalkBody(n: Node)
    ensures n.LoopN? ==> Walk(n) == Walk(n.body)
    ensures n.CaseN? ==> Walk(n) == [n.mark] + Walk(n.body)
    ensures n.Block? ==> Walk(n) == if Starts(n.list) then WalkL(n.list) else []
    ensures n.IfN? ==> Walk(n) == (if n.f.Some? then Walk(n.f.value) else []) + Walk(n.t)
  {
  }

  lemma {:induction false} ConvertedBlock(l: Nodes, ty: Ty)
    ensures var n := Block(l);
            multiset(Labels(Tree(n, Some(ty)))) == Bag(Walk(n), ty) + Lost(|Missed(n)|)
    decreases l, 2
  {
    hide Bag, Lost, Walk, WalkL, WrittenL, MissedL, TreeL;
    WalkBody(Block(l));
    if Starts(l) {
      ConvertedLabelsL(l, ty);
    } else {
      BagOne(None, ty);
      LostLabelsL(l);
      AllLostBag(Labels(TreeL(l, None)), |WrittenL(l)|);
      assert Missed(Block(l)) == multiset(WrittenL(l));
    }
  }

  lemma {:induction false} ConvertedCase(n: Node, ty: Ty)
    requires n.CaseN?
    ensures multiset(Labels(Tree(n, Some(ty)))) == Bag(Walk(n), ty) + Lost(|Missed(n)|)
    decreases n, 0
  {
    hide Bag, Lost, KeyOf, Walk;
    ConvertedLabels(n.body, ty);
    WalkBody(n);
    BagJoin([n.mark], Walk(n.body), ty);
    BagOne(n.mark, ty);
    var b := Tree(n.body, Some(ty));
    assert Tree(n, Some(ty)) == Case(KeyOf(n.mark, ty), b);
    assert Labels(Tree(n, Some(ty))) == [KeyOf(n.mark, ty)] + Labels(b);
  }

  lemma {:induction false} ConvertedIf(n: Node, ty: Ty)
    requires n.IfN?
    ensures multiset(Labels(Tree(n, Some(ty)))) == Bag(Walk(n), ty) + Lost(|Missed(n)|)
    decreases n, 0
  {
    hide Bag, Lost, Walk;
    WalkBody(n);
    ConvertedLabels(n.t, ty);
    var t := Tree(n.t, Some(ty));
    if n.f.Some? {
      ConvertedLabels(n.f.value, ty);
      BagJoin(Walk(n.f.value), Walk(n.t), ty);
      LostAdd(Missed(n.t), Missed(n.f.value));
      var f := Tree(n.f.value, Some(ty));
      assert Tree(n, Some(ty)) == If(n.c, t, Some(f));
      assert Labels(Tree(n, Some(ty))) == Labels(t) + Labels(f);
      Sums(Labels(t), Labels(f), Bag(Walk(n.t), ty), Bag(Walk(n.f.value), ty), Lost(|Missed(n.t)|),
        Lost(|Missed(n.f.value)|));
    } else {
      assert Tree(n, Some(ty)) == If(n.c, t, None);
      assert Labels(Tree(n, Some(ty))) == Labels(t);
      assert Missed(n) == Missed(n.t) && Walk(n) == Walk(n.t);
    }
  }

  lemma {:induction false} ConvertedLabelsL(l: Nodes, ty: Ty)
    ensures multiset(Labels(TreeL(l, Some(ty)))) == Bag(WalkL(l), ty) + Lost(|MissedL(l)|)
    decreases l, 1
  {
    hide Bag, Tree, Inside, Missed;
    if l.End? {
      BagOne(None, ty);
      assert WalkL(l) == [];
    } else {
      hide Lost, Labels, OwnL, InsideL;
      var h, r := l.head, l.tail;
      ConvertedLabels(h, ty);
      ConvertedLabelsL(r, ty);
      ListLabels(l, ty);
      BagMerge(Own(h), Inside(h), OwnL(r), InsideL(r), ty);
      LostAdd(Missed(h), MissedL(r));
      Sums(Labels(Tree(h, Some(ty))), Labels(TreeL(r, Some(ty))), Bag(Walk(h), ty), Bag(WalkL(r), ty),
        Lost(|Missed(h)|), Lost(|MissedL(r)|));
    }
  }

  lemma ListLabels(l: Nodes, ty: Ty)
    requires l.More?
    ensures Labels(TreeL(l, Some(ty))) == Labels(Tree(l.head, Some(ty))) + Labels(TreeL(l.tail, Some(ty)))
    ensures WalkL(l) == Own(l.head) + OwnL(l.tail) + (InsideL(l.tail) + Inside(l.head))
  {
    hide Tree, Inside;
  }

  lemma BagMerge(a: seq<Label>, b: seq<Label>, c: seq<Label>, d: seq<Label>, ty: Ty)
    ensures Bag(a + b, ty) + Bag(c + d, ty) == Bag((a + c) + (d + b), ty)
  {
    hide Bag;
    BagJoin(a, b, ty);
    BagJoin(c, d, ty);
    BagJoin(a, c, ty);
    BagJoin(d, b, ty);
    BagJoin(a + c, d + b, ty);
  }

  // ---- when the tree is well formed ----------------------------------------------------------

  ghost predicate Single(b: multiset<Key>) { forall k :: b[k] <= 1 }

  lemma SingleIs(ks: seq<Key>)
    ensures Single(multiset(ks)) <==> NoTwice(ks)
  {
    if !NoTwice(ks) {
      var i, j :| 0 <= i < j < |ks| && ks[i] == ks[j];
      assert ks == ks[..i] + [ks[i]] + ks[i + 1..j] + [ks[j]] + ks[j + 1..];
      assert multiset(ks)[ks[i]] >= 2;
    } else {
      forall k
        ensures multiset(ks)[k] <= 1
      {
        OnlyOnce(ks, k);
      }
    }
  }

  lemma {:induction false} OnlyOnce(ks: seq<Key>, k: Key)
    requires NoTwice(ks)
    ensures multiset(ks)[k] <= 1
  {
    if ks != [] {
      var most := ks[..|ks| - 1];
      assert ks == most + [ks[|ks| - 1]];
      OnlyOnce(most, k);
      if ks[|ks| - 1] == k {
        assert k !in most;
      }
    }
  }

  lemma {:induction false} ValuesOnce(ks: seq<Key>)
    requires NoTwice(ks)
    ensures forall i, j :: 0 <= i < j < |Values(ks)| ==> Values(ks)[i] != Values(ks)[j]
  {
    if ks != [] {
      ValuesOnce(ks[1..]);
      if ks[0].CaseOf? {
        InValues(ks[1..], ks[0].v);
        assert ks[0] !in ks[1..];
      }
    }
  }

  /** Every label found by the walk has a value of the condition's type. */
  lemma KeyFits(ls: seq<Label>, ty: Ty, v: int)
    requires ty.Int? && CaseOf(v) in KeysOf(ls, ty)
    ensures Fits(v, ty.w, ty.uns)
  {
    var i :| 0 <= i < |ls| && KeysOf(ls, ty)[i] == CaseOf(v);
    ConvFits(ls[i].value, ty.w, ty.uns);
  }

  lemma NeverBuried(ls: seq<Label>, ty: Ty)
    ensures Buried !in KeysOf(ls, ty) && Bag(ls, ty)[Buried] == 0
  {
    hide Conv;
  }

  /** A label is lost exactly if one was missed. */
  lemma LostIff(n: Node, ty: Ty)
    ensures HasCase(Tree(n, Some(ty)), Buried) <==> !Reached(n)
    ensures Reached(n) ==> multiset(Labels(Tree(n, Some(ty)))) == multiset(KeysOf(Walk(n), ty))
  {
    hide Labels, Tree, Walk, KeysOf, Missed, Reached, Cases;
    var b := Tree(n, Some(ty));
    ConvertedLabels(n, ty);
    NeverBuried(Walk(n), ty);
    MissedIff(n);
    LabelsAreCases(b);
    assert Buried in ToSet(Labels(b)) <==> Buried in multiset(Labels(b));
    assert Missed(n) == multiset{} <==> |Missed(n)| == 0;
  }

  /** The switch built from a body its walk accepts is one the code generator takes
      exactly when the walk came to every label: then they are distinct, of the
      type of the condition, and all in the list of cases. */
  lemma SwitchFormed(w: World, c: Expr, body: Node, ret: Ty, brk: bool, cont: bool)
    requires ETy(c).Int? && WellTyped(w, c) && WellFormed(w, Tree(body, Some(ETy(c))), ret, true, cont)
    requires Accepted(body, ETy(c))
    ensures WellFormed(w, Tree(SwitchN(c, body), None), ret, brk, cont) <==> Reached(body)
  {
    hide WellTyped, WellFormed, Labels, Cases, DistinctCases, Rise, Walk, KeysOf, Reached;
    var ty, b := ETy(c), Tree(body, Some(ETy(c)));
    var ks := KeysOf(Walk(body), ty);
    var s := Switch(c, Values(ks), Default in ks, b);
    hide Tree;
    TreeSwitch(c, body);
    LostIff(body, ty);
    if Reached(body) {
      LabelsAreCases(b);
      SingleIs(Labels(b));
      SingleIs(ks);
      ValuesOnce(ks);
      forall k
        ensures k in Cases(b) <==> k in ks
      {
        assert k in ToSet(Labels(b)) <==> k in multiset(Labels(b));
        assert k in ks <==> k in multiset(ks);
      }
      forall v
        ensures v in Values(ks) <==> CaseOf(v) in ks
      {
        InValues(ks, v);
      }
      forall v | v in Values(ks)
        ensures Fits(v, ty.w, ty.uns)
      {
        KeyFits(Walk(body), ty, v);
      }
      Assembles(w, c, ks, b, ret, brk, cont);
    } else {
      assert !WellFormed(w, s, ret, brk, cont) by {
        BuriedSpoils(w, s, ret, brk, cont);
      }
    }
  }

  lemma TreeSwitch(c: Expr, body: Node)
    ensures forall walk :: Tree(SwitchN(c, body), walk) ==
                           SwitchOf(c, KeysOf(Walk(body), ETy(c)), Tree(body, Some(ETy(c))))
  {
    hide SwitchOf;
  }

  lemma BuriedSpoils(w: World, s: Stmt, ret: Ty, brk: bool, cont: bool)
    requires s.Switch? && HasCase(s.body, Buried)
    ensures !WellFormed(w, s, ret, brk, cont)
  {
    hide WellTyped, Cases, DistinctCases, Fits;
  }

  lemma Assembles(w: World, c: Expr, ks: seq<Key>, b: Stmt, ret: Ty, brk: bool, cont: bool)
    requires ETy(c).Int? && WellTyped(w, c) && WellFormed(w, b, ret, true, cont) && DistinctCases(b)
    requires forall i, j :: 0 <= i < j < |Values(ks)| ==> Values(ks)[i] != Values(ks)[j]
    requires forall k :: k in Cases(b) <==> k in ks
    requires forall v :: v in Values(ks) <==> CaseOf(v) in ks
    requires forall v :: v in Values(ks) ==> Fits(v, ETy(c).w, ETy(c).uns)
    requires !HasCase(b, Buried)
    ensures WellFormed(w, SwitchOf(c, ks, b), ret, brk, cont)
  {
    hide WellTyped, Cases, DistinctCases, Fits, Values;
    assert forall v :: v in Values(ks) ==> HasCase(b, CaseOf(v));
  }

  /** What the parser guarantees of the statements it builds; `sw` says whether
      there is a switch around. */
  predicate WellParsed(w: World, n: Node, ret: Ty, brk: bool, cont: bool, sw: bool) {
    match n
    case Plain(s) => WellFormed(w, s, ret, brk, cont)
    case Block(l) => WellParsedL(w, l, ret, brk, cont, sw)
    case IfN(c, t, f) =>
      && WellTyped(w, c) && ETy(c).Int? && WellParsed(w, t, ret, brk, cont, sw)
      && (f.Some? ==> WellParsed(w, f.value, ret, brk, cont, sw))
    case LoopN(init, c, _, p, b) =>
      && (forall i :: 0 <= i < |init| ==> WellFormed(w, init[i], ret, brk, cont))
      && (c.Some? ==> WellTyped(w, c.value) && ETy(c.value).Int?)
      && (p.Some? ==> WellTyped(w, p.value))
      && WellParsed(w, b, ret, true, true, sw)
    case CaseN(_, b) => sw && WellParsed(w, b, ret, brk, cont, sw)
    case SwitchN(c, b) =>
      && WellTyped(w, c) && ETy(c).Int? && Accepted(b, ETy(c))
      && WellParsed(w, b, ret, true, cont, true)
  }

  predicate WellParsedL(w: World, l: Nodes, ret: Ty, brk: bool, cont: bool, sw: bool) {
    l.More? ==> WellParsed(w, l.head, ret, brk, cont, sw) && WellParsedL(w, l.tail, ret, brk, cont, sw)
  }

  /** Every switch found all its labels. */
  predicate AllReached(n: Node) {
    match n
    case Plain(_) => true
    case Block(l) => AllReachedL(l)
    case IfN(_, t, f) => AllReached(t) && (f.Some? ==> AllReached(f.value))
    case LoopN(_, _, _, _, b) => AllReached(b)
    case CaseN(_, b) => AllReached(b)
    case SwitchN(_, b) => Reached(b) && AllReached(b)
  }

  predicate AllReachedL(l: Nodes) { l.More? ==> AllReached(l.head) && AllReachedL(l.tail) }

  lemma {:induction false} AfterFormed(w: World, init: seq<Simple>, s: Stmt, ret: Ty, brk: bool, cont: bool)
    requires forall i :: 0 <= i < |init| ==> WellFormed(w, init[i], ret, brk, cont)
    ensures WellFormed(w, After(init, s), ret, brk, cont) <==> WellFormed(w, s, ret, brk, cont)
    decreases |init|
  {
    hide WellFormed;
    if init != [] {
      AfterFormed(w, init[1..], s, ret, brk, cont);
      SeqFormed(w, init[0], After(init[1..], s), ret, brk, cont);
    }
  }

  lemma SeqFormed(w: World, a: Stmt, b: Stmt, ret: Ty, brk: bool, cont: bool)
    ensures WellFormed(w, Seq(a, b), ret, brk, cont) <==>
            WellFormed(w, a, ret, brk, cont) && WellFormed(w, b, ret, brk, cont)
  {
  }

  /** What was parsed is well formed exactly when every switch found its labels. */
  lemma {:induction false} TreeFormed(w: World, n: Node, walk: Option<Ty>, ret: Ty, brk: bool, cont: bool, sw: bool)
    requires WellParsed(w, n, ret, brk, cont, sw)
    ensures WellFormed(w, Tree(n, walk), ret, brk, cont) <==> AllReached(n)
    decreases n
  {
    hide WellTyped, ETy, Accepted, Reached, Cases, DistinctCases, Fits, Walk, Values, KeysOf;
    match n
    case Plain(_) =>
    case Block(l) => TreeFormedL(w, l, if Starts(l) then walk else None, ret, brk, cont, sw);
    case IfN(_, t, f) =>
      TreeFormed(w, t, walk, ret, brk, cont, sw);
      if f.Some? {
        TreeFormed(w, f.value, walk, ret, brk, cont, sw);
      }
    case LoopN(init, c, first, p, b) =>
      TreeFormed(w, b, walk, ret, true, true, sw);
      AfterFormed(w, init, Loop(c, first, p, Tree(b, walk)), ret, brk, cont);
    case CaseN(_, b) => TreeFormed(w, b, walk, ret, brk, cont, sw);
    case SwitchN(c, b) =>
      TreeFormed(w, b, Some(ETy(c)), ret, true, cont, true);
      TreeSwitch(c, b);
      if AllReached(b) {
        SwitchFormed(w, c, b, ret, brk, cont);
      } else {
        BodySpoils(w, Tree(n, walk), ret, brk, cont);
      }
  }

  lemma BodySpoils(w: World, s: Stmt, ret: Ty, brk: bool, cont: bool)
    requires s.Switch? && !WellFormed(w, s.body, ret, true, cont)
    ensures !WellFormed(w, s, ret, brk, cont)
  {
    hide WellTyped, Cases, DistinctCases, Fits;
  }

  lemma {:induction false} TreeFormedL(w: World, l: Nodes, walk: Option<Ty>, ret: Ty, brk: bool, cont: bool, sw: bool)
    requires WellParsedL(w, l, ret, brk, cont, sw)
    ensures WellFormed(w, TreeL(l, walk), ret, brk, cont) <==> AllReachedL(l)
    decreases l
  {
    if l.More? {
      TreeFormed(w, l.head, walk, ret, brk, cont, sw);
      TreeFormedL(w, l.tail, walk, ret, brk, cont, sw);
      SeqFormed(w, Tree(l.head, walk), TreeL(l.tail, walk), ret, brk, cont);
    }
  }

  // ---- when a unit is refused ----------------------------------------------------------------

  /** A closed statement has no case the switch around does not list. */
  lemma {:induction false} ClosedCases(s: Stmt, brk: bool, cont: bool, ks: set<Key>, n: nat)
    requires Closed(s, brk, cont, ks, n)
    ensures Cases(s) <= ks
  {
    hide CallsO;
    match s
    case Seq(a, b) =>
      ClosedCases(a, brk, cont, ks, n);
      ClosedCases(b, brk, cont, ks, n);
    case If(_, t, f) =>
      ClosedCases(t, brk, cont, ks, n);
      if f.Some? {
        ClosedCases(f.value, brk, cont, ks, n);
      }
    case Loop(_, _, _, b) => ClosedCases(b, true, true, ks, n);
    case Case(_, b) => ClosedCases(b, brk, cont, ks, n);
    case _ =>
  }

  lemma {:induction false} AfterClosed(init: seq<Simple>, s: Stmt, brk: bool, cont: bool, ks: set<Key>, n: nat)
    requires Closed(After(init, s), brk, cont, ks, n)
    ensures Closed(s, brk, cont, ks, n)
  {
    if init != [] {
      AfterClosed(init[1..], s, brk, cont, ks, n);
    }
  }

  /** If everything in the tree belongs to something, no switch missed a label. */
  lemma {:induction false} ClosedReached(n: Node, walk: Option<Ty>, brk: bool, cont: bool, ks: set<Key>, k: nat)
    requires Closed(Tree(n, walk), brk, cont, ks, k)
    ensures AllReached(n)
    decreases n
  {
    hide CallsO, Reached, Walk, Values, KeysOf;
    match n
    case Plain(_) =>
    case Block(l) => ClosedReachedL(l, if Starts(l) then walk else None, brk, cont, ks, k);
    case IfN(_, t, f) =>
      ClosedReached(t, walk, brk, cont, ks, k);
      if f.Some? {
        ClosedReached(f.value, walk, brk, cont, ks, k);
      }
    case LoopN(init, c, first, p, b) =>
      AfterClosed(init, Loop(c, first, p, Tree(b, walk)), brk, cont, ks, k);
      ClosedReached(b, walk, true, true, ks, k);
    case CaseN(_, b) => ClosedReached(b, walk, brk, cont, ks, k);
    case SwitchN(c, b) =>
      var ls := KeysOf(Walk(b), ETy(c));
      var listed, t := SwitchKeys(Values(ls), Default in ls), Tree(b, Some(ETy(c)));
      ClosedReached(b, Some(ETy(c)), true, cont, listed, k);
      ClosedCases(t, true, cont, listed, k);
      assert Buried !in listed;
      LostIff(b, ETy(c));
  }

  lemma {:induction false} ClosedReachedL(l: Nodes, walk: Option<Ty>, brk: bool, cont: bool, ks: set<Key>, k: nat)
    requires Closed(TreeL(l, walk), brk, cont, ks, k)
    ensures AllReachedL(l)
    decreases l
  {
    if l.More? {
      ClosedReached(l.head, walk, brk, cont, ks, k);
      ClosedReachedL(l.tail, walk, brk, cont, ks, k);
    }
  }

  lemma {:induction false} NoSwitchNoLabel(w: World, n: Node, ret: Ty, brk: bool, cont: bool)
    requires WellParsed(w, n, ret, brk, cont, false)
    ensures Written(n) == []
    decreases n
  {
    hide WellTyped, WellFormed, Accepted;
    match n
    case Plain(_) =>
    case Block(l) => NoSwitchNoLabelL(w, l, ret, brk, cont);
    case IfN(_, t, f) =>
      NoSwitchNoLabel(w, t, ret, brk, cont);
      if f.Some? {
        NoSwitchNoLabel(w, f.value, ret, brk, cont);
      }
    case LoopN(_, _, _, _, b) => NoSwitchNoLabel(w, b, ret, true, true);
    case SwitchN(_, _) =>
  }

  lemma {:induction false} NoSwitchNoLabelL(w: World, l: Nodes, ret: Ty, brk: bool, cont: bool)
    requires WellParsedL(w, l, ret, brk, cont, false)
    ensures WrittenL(l) == []
    decreases l
  {
    if l.More? {
      NoSwitchNoLabel(w, l.head, ret, brk, cont);
      NoSwitchNoLabelL(w, l.tail, ret, brk, cont);
    }
  }

  /** A function as the parser leaves it. */
  predicate ParsedFunc(w: World, f: Func, n: Node) {
    && f.frame % 16 == 0 && |f.params| <= 6 && f.body == Tree(n, None)
    && WellParsed(w, n, f.ret, false, false, false)
  }

  predicate ParsedUnit(w: World, ns: seq<Node>) {
    |ns| == |w.funcs| && forall i :: 0 <= i < |ns| ==> ParsedFunc(w, w.funcs[i], ns[i])
  }

  lemma FuncFormed(w: World, f: Func, n: Node)
    requires ParsedFunc(w, f, n)
    ensures WellFormedFunc(w, f) <==> AllReached(n)
    ensures Closed(f.body, false, false, {}, |w.funcs|) ==> AllReached(n)
  {
    hide WellParsed, WellFormed, Tree, AllReached, Cases, Labels, Closed;
    TreeFormed(w, n, None, f.ret, false, false, false);
    NoSwitchNoLabel(w, n, f.ret, false, false);
    LostLabels(n);
    LabelsAreCases(f.body);
    if Closed(f.body, false, false, {}, |w.funcs|) {
      ClosedReached(n, None, false, false, {}, |w.funcs|);
    }
  }

  /** A unit as the parser builds it is refused exactly when some switch missed a
      label of its own, or for its size: code, labels, jumps or nesting. */
  lemma RefusedForSize(w: World, ns: seq<Node>, entry: nat, cap: nat)
    requires ParsedUnit(w, ns) && entry < |w.funcs|
    ensures !EmitUnit(w.funcs, entry, cap).fails <==>
            && (forall i :: 0 <= i < |ns| ==> AllReached(ns[i]))
            && |GenUnit(w.funcs, entry)| <= cap
            && |w.funcs| + 3 + SumLabels(w.funcs) <= MAX_LABELS && 3 + SumFixups(w.funcs) <= MAX_FIXUPS
            && forall i :: 0 <= i < |w.funcs| ==>
                 BreakDepth(w.funcs[i].body) <= MAX_NEST && ContinueDepth(w.funcs[i].body) <= MAX_NEST
  {
    hide EmitUnit, GenUnit, SumLabels, SumFixups, BreakDepth, ContinueDepth, Closed, WellFormedFunc, AllReached,
      ParsedFunc;
    EmitsIff(w.funcs, entry, cap);
    forall i | 0 <= i < |ns|
      ensures WellFormedFunc(w, w.funcs[i]) <==> AllReached(ns[i])
      ensures Closed(w.funcs[i].body, false, false, {}, |w.funcs|) ==> AllReached(ns[i])
    {
      FuncFormed(w, w.funcs[i], ns[i]);
    }
    if forall i :: 0 <= i < |ns| ==> AllReached(ns[i]) {
      FormedFits(w, entry, cap);
    } else {
      var i :| 0 <= i < |ns| && !AllReached(ns[i]);
      assert !FuncOk(w.funcs[i], |w.funcs|);
    }
  }

  /** Whatever the parser builds and the generator accepts is well formed, so the
      buffer does what the program means. */
  lemma AcceptedRuns(w: World, ns: seq<Node>, entry: nat, cap: nat, s: State) returns (n: nat)
    requires ParsedUnit(w, ns) && entry < |w.funcs| && !EmitUnit(w.funcs, entry, cap).fails
    requires s.status == Running && s.pc == 0 && 0 <= s.fuel
    requires s.rt.limit == w.limit && s.rt.prsp % 16 == 0
    ensures WellFormedUnit(w)
    ensures var r := RunFunc(w, w.funcs[entry], Incoming(w, entry, s), s.rt.prsp, s.mem, s.fuel);
            && Finished(w, entry, s, Run(w, Buffer(w.funcs, entry, cap), s, n), r)
            && (r.Wild? || n <= 8 + MaxWeight(w.funcs) * (s.fuel + 1))
  {
    hide EmitUnit, GenUnit, WellFormedFunc, ParsedFunc, AllReached, Run, RunFunc, Finished, Incoming, MaxWeight,
      UnitFits,
      Buffer, BreakDepth, ContinueDepth, SumLabels, SumFixups;
    RefusedForSize(w, ns, entry, cap);
    forall i | 0 <= i < |ns|
      ensures WellFormedFunc(w, w.funcs[i])
    {
      FuncFormed(w, w.funcs[i], ns[i]);
    }
    EmitsIff(w.funcs, entry, cap);
    n := CompiledRuns(w, entry, cap, s);
  }

  /** A loop entered in the middle, after Duff: `case 0: do { e; case 7: e; } while (c);`. */
  function Duff(c: Expr, e: Expr): Node {
    Block(Lone(CaseN(Some(0), LoopN([], Some(c), false, None, Half(e)))))
  }

  function Half(e: Expr): Node { Block(More(Plain(Eval(e)), Lone(CaseN(Some(7), Plain(Eval(e)))))) }

  lemma LoneIs(n: Node)
    ensures WrittenL(Lone(n)) == Written(n) && OwnL(Lone(n)) == Own(n) && InsideL(Lone(n)) == Inside(n)
    ensures ReachedL(Lone(n)) == Reached(n) && Pushes(Lone(n)) == |Kids(n)|
  {
    hide Written, Inside, Reached, Kids;
    assert WrittenL(End) == [] && OwnL(End) == [] && InsideL(End) == [] && Pushes(End) == 0 && ReachedL(End);
  }

  lemma HalfMissed(e: Expr)
    ensures Inside(Half(e)) == [] && Written(Half(e)) == [Some(7)] && !Reached(Half(e))
    ensures Kids(Half(e)) == [] && RiseIn(Half(e), 0) == 0
  {
    var c := CaseN(Some(7), Plain(Eval(e)));
    LoneIs(c);
    assert Written(c) == [Some(7)] + [];
    assert WrittenL(Half(e).list) == [] + Written(c);
  }

  lemma DuffMissed(c: Expr, e: Expr)
    ensures Walk(Duff(c, e)) == [Some(0)] && Written(Duff(c, e)) == [Some(0), Some(7)] && !Reached(Duff(c, e))
    ensures Rise(Lone(Duff(c, e)), 0) <= 1
  {
    hide Half;
    HalfMissed(e);
    var l := LoopN([], Some(c), false, None, Half(e));
    var k := CaseN(Some(0), l);
    assert Half(e).Block? by {
      HalfIsBlock(e);
    }
    assert Inside(l) == [] && Written(l) == [Some(7)] && !Reached(l) && Kids(l) == [Lone(Half(e))];
    assert RiseIn(l, 0) == RiseOne(Half(e), 0) == 0;
    assert Inside(k) == [] && Written(k) == [Some(0), Some(7)] && !Reached(k) && Kids(k) == [Lone(l)];
    assert RiseIn(k, 0) == RiseOne(l, 0) == 1;
    LoneIs(k);
    OnlyOne(k, 0);
    OnlyOne(Duff(c, e), 0);
    assert Duff(c, e) == Block(Lone(k));
    assert RiseIn(Duff(c, e), 0) == Rise(Lone(k), 0) == 1;
    assert Kids(Duff(c, e)) == [Lone(k)];
  }

  lemma HalfIsBlock(e: Expr)
    ensures Half(e).Block?
  {
  }

  /** Its walk is content with what it found, but it never saw the second label, and
      no buffer is large enough for a unit with such a switch. */
  lemma DuffRefused(w: World, ns: seq<Node>, entry: nat, cap: nat, i: nat, x: Expr, c: Expr, e: Expr)
    ensures Accepted(Duff(c, e), ETy(x)) && Walk(Duff(c, e)) == [Some(0)]
    ensures Written(Duff(c, e)) == [Some(0), Some(7)] && !Reached(Duff(c, e))
    ensures ParsedUnit(w, ns) && entry < |w.funcs| && i < |ns| && ns[i] == Block(Lone(SwitchN(x, Duff(c, e)))) ==>
              EmitUnit(w.funcs, entry, cap).fails
  {
    hide EmitUnit, GenUnit, ParsedUnit, BreakDepth, ContinueDepth, SumLabels, SumFixups, Conv, Duff, Walk, Rise,
      Written,
      Reached;
    DuffMissed(c, e);
    assert |Values(KeysOf([Some(0)], ETy(x)))| <= 1 by {
      OneValue(KeyOf(Some(0), ETy(x)));
      assert KeysOf([Some(0)], ETy(x)) == [KeyOf(Some(0), ETy(x))];
    }
    if ParsedUnit(w, ns) && entry < |w.funcs| && i < |ns| && ns[i] == Block(Lone(SwitchN(x, Duff(c, e)))) {
      RefusedForSize(w, ns, entry, cap);
      assert ns[i].list.head == SwitchN(x, Duff(c, e));
      assert !AllReached(ns[i].list.head);
      assert !AllReachedL(ns[i].list);
      assert !AllReached(ns[i]);
    }
  }
}
