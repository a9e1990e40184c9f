// Gathering the case labels of a switch: the walk through its body that finds
// them, converts them and refuses repeats, and which labels it never comes to.

module CCases {
  import opened Basics
  import opened Words
  import opened CTree

  const MAX_CASES: nat := 64

  /** How many lists the walk can have waiting. */
  const MAX_WALK: nat := 128

  // ---- statements as parsed ------------------------------------------------------------------

  predicate IsSimple(s: Stmt) { s.Nop? || s.Eval? || s.MemZero? || s.Return? || s.Break? || s.Continue? }

  type Simple = s: Stmt | IsSimple(s) witness Nop

  /** The value after `case`, or nothing for `default`. */
  type Label = Option<int>

  /** The statements the parser links together; a block is a list of them. */
  datatype Node =
    | Plain(s: Simple)
    | Block(list: Nodes)
    | IfN(c: Expr, t: Node, f: Option<Node>)
    | LoopN(init: seq<Simple>, cond: Option<Expr>, testFirst: bool, post: Option<Expr>, body: Node)
    | CaseN(mark: Label, body: Node)
    | SwitchN(c: Expr, body: Node)

  datatype Nodes = End | More(head: Node, tail: Nodes)

  function Lone(n: Node): Nodes { More(n, End) }

  /** Every label a switch with this body owns, as written; a nested switch has its
      own. */
  function Written(n: Node): seq<Label> {
    match n
    case Plain(_) => []
    case Block(l) => WrittenL(l)
    case IfN(_, t, f) => Written(t) + (if f.Some? then Written(f.value) else [])
    case LoopN(_, _, _, _, b) => Written(b)
    case CaseN(v, b) => [v] + Written(b)
    case SwitchN(_, _) => []
  }

  function WrittenL(l: Nodes): seq<Label> {
    if l.End? then [] else Written(l.head) + WrittenL(l.tail)
  }

  // ---- what the walk comes to ----------------------------------------------------------------

  /** The kinds the walk goes into. */
  predicate Opens(n: Node) { n.Block? || n.CaseN? || n.IfN? || n.LoopN? }

  /** It goes into a block by its first statement, and only if that is of such a
      kind. */
  predicate Starts(l: Nodes) { l.More? && Opens(l.head) }

  function KidOf(n: Node): seq<Nodes> { if Opens(n) then [Lone(n)] else [] }

  /** The lists a statement leaves waiting. */
  function Kids(n: Node): seq<Nodes> {
    match n
    case Block(l) => if Starts(l) then [l] else []
    case IfN(_, t, f) => KidOf(t) + (if f.Some? then KidOf(f.value) else [])
    case LoopN(_, _, _, _, b) => KidOf(b)
    case CaseN(_, b) => KidOf(b)
    case _ => []
  }

  function Own(n: Node): seq<Label> { if n.CaseN? then [n.mark] else [] }

  function OwnL(l: Nodes): seq<Label> { if l.End? then [] else Own(l.head) + OwnL(l.tail) }

  /** The labels inside a statement in the order the walk finds them: a list to its
      end first, then what its last statement holds, and so on back. */
  function Inside(n: Node): seq<Label> {
    match n
    case Block(l) => if Starts(l) then OwnL(l) + InsideL(l) else []
    case IfN(_, t, f) => (if f.Some? then Own(f.value) + Inside(f.value) else []) + (Own(t) + Inside(t))
    case LoopN(_, _, _, _, b) => Own(b) + Inside(b)
    case CaseN(_, b) => Own(b) + Inside(b)
    case _ => []
  }

  function InsideL(l: Nodes): seq<Label> {
    if l.End? then [] else InsideL(l.tail) + Inside(l.head)
  }

  function Walk(n: Node): seq<Label> { Own(n) + Inside(n) }

  function WalkL(l: Nodes): seq<Label> { OwnL(l) + InsideL(l) }

  /** The most lists that wait at once, `base` of them from outside. */
  function Rise(l: Nodes, base: nat): nat { Most(base + Pushes(l), RiseL(l, base)) }

  function Pushes(l: Nodes): nat { if l.End? then 0 else |Kids(l.head)| + Pushes(l.tail) }

  function RiseL(l: Nodes, base: nat): nat {
    if l.End? then 0 else Most(RiseIn(l.head, base), RiseL(l.tail, base + |Kids(l.head)|))
  }

  function RiseIn(n: Node, base: nat): nat
    decreases n, 0
  {
    match n
    case Block(l) => if Starts(l) then Most(base + Pushes(l), RiseL(l, base)) else 0
    case IfN(_, t, f) => Most(RiseOne(t, base), if f.Some? then RiseOne(f.value, base + |KidOf(t)|) else 0)
    case LoopN(_, _, _, _, b) => RiseOne(b, base)
    case CaseN(_, b) => RiseOne(b, base)
    case _ => 0
  }

  function RiseOne(n: Node, base: nat): nat
    decreases n, 1
  {
    if Opens(n) then Most(base + |Kids(n)|, RiseIn(n, base)) else 0
  }

  // ---- labels converted ----------------------------------------------------------------------

  /** Section 6.8.4.2 of C11: a label is converted to the type of the condition. */
  function KeyOf(v: Label, ty: Ty): Key {
    if v.None? then Default else CaseOf(if ty.Int? then Conv(v.value, ty.w, ty.uns) else v.value)
  }

  function KeysOf(ls: seq<Label>, ty: Ty): (r: seq<Key>)
    ensures |r| == |ls| && forall i :: 0 <= i < |r| ==> r[i] == KeyOf(ls[i], ty)
  {
    seq(|ls|, i requires 0 <= i < |ls| => KeyOf(ls[i], ty))
  }

  lemma KeysJoin(a: seq<Label>, b: seq<Label>, ty: Ty)
    ensures KeysOf(a + b, ty) == KeysOf(a, ty) + KeysOf(b, ty)
  {
  }

  /** The values of the labels that are not the default. */
  function Values(ks: seq<Key>): seq<int> {
    if ks == [] then [] else ValueOf(ks[0]) + Values(ks[1..])
  }

  lemma {:induction false} ValuesJoin(a: seq<Key>, b: seq<Key>)
    ensures Values(a + b) == Values(a) + Values(b)
  {
    hide Values;
    if a == [] {
      NoValues(a);
      assert a + b == b;
    } else {
      ValuesJoin(a[1..], b);
      ValuesOpen(a);
      ValuesOpen(a + b);
      FirstOff(a, b);
      Grouped(ValueOf(a[0]), Values(a[1..]), Values(b));
    }
  }

  lemma NoValues(ks: seq<Key>)
    requires ks == []
    ensures Values(ks) == []
  {
  }

  lemma FirstOff(a: seq<Key>, b: seq<Key>)
    requires a != []
    ensures (a + b)[0] == a[0] && (a + b)[1..] == a[1..] + b
  {
  }

  lemma Grouped(x: seq<int>, y: seq<int>, z: seq<int>)
    ensures x + (y + z) == x + y + z
  {
  }

  function ValueOf(k: Key): seq<int> { if k.CaseOf? then [k.v] else [] }

  lemma ValuesOpen(ks: seq<Key>)
    requires ks != []
    ensures Values(ks) == ValueOf(ks[0]) + Values(ks[1..])
  {
  }

  lemma {:induction false} InValues(ks: seq<Key>, v: int)
    ensures v in Values(ks) <==> CaseOf(v) in ks
  {
    if ks != [] {
      InValues(ks[1..], v);
      assert ks == [ks[0]] + ks[1..];
    }
  }

  predicate NoTwice(ks: seq<Key>) { forall i, j :: 0 <= i < j < |ks| ==> ks[i] != ks[j] }

  /** The walk finds no label twice, no more than 64 of them, and its stack holds
      what waits. */
  predicate Accepted(body: Node, ty: Ty) {
    var ks := KeysOf(Walk(body), ty);
    NoTwice(ks) && |Values(ks)| <= MAX_CASES && Rise(Lone(body), 0) <= MAX_WALK
  }

  // ---- the walk --------------------------------------------------------------------------------

  /** The labels found from lists left waiting. */
  function Drain(st: seq<Nodes>): seq<Label> {
    if st == [] then [] else WalkL(st[|st| - 1]) + Drain(st[..|st| - 1])
  }

  function DrainRise(st: seq<Nodes>): nat {
    if st == [] then 0 else Most(Rise(st[|st| - 1], |st| - 1), DrainRise(st[..|st| - 1]))
  }

  function StackSize(st: seq<Nodes>): nat {
    if st == [] then 0 else 1 + SizeL(st[|st| - 1]) + StackSize(st[..|st| - 1])
  }

  function Size(n: Node): nat {
    match n
    case Block(l) => 1 + SizeL(l)
    case IfN(_, t, f) => 4 + Size(t) + (if f.Some? then Size(f.value) else 0)
    case LoopN(_, _, _, _, b) => 2 + Size(b)
    case CaseN(_, b) => 2 + Size(b)
    case _ => 0
  }

  function SizeL(l: Nodes): nat { if l.End? then 0 else 1 + Size(l.head) + SizeL(l.tail) }

  lemma Pushed(st: seq<Nodes>, l: Nodes)
    ensures Drain(st + [l]) == WalkL(l) + Drain(st)
    ensures DrainRise(st + [l]) == Most(Rise(l, |st|), DrainRise(st))
    ensures StackSize(st + [l]) == 1 + SizeL(l) + StackSize(st)
  {
    hide WalkL, Rise, SizeL;
    assert (st + [l])[..|st|] == st;
  }

  lemma PushedOne(st: seq<Nodes>, n: Node)
    ensures Drain(st + KidOf(n)) == Own(n) + Inside(n) + Drain(st)
    ensures DrainRise(st + KidOf(n)) == Most(RiseOne(n, |st|), DrainRise(st))
    ensures StackSize(st + KidOf(n)) <= 2 + Size(n) + StackSize(st)
  {
    hide Drain, DrainRise, StackSize;
    if Opens(n) {
      hide Inside, Kids, RiseIn, Size;
      OnlyOne(n, |st|);
      Pushed(st, Lone(n));
    } else {
      assert st + KidOf(n) == st;
    }
  }

  lemma OnlyOne(n: Node, base: nat)
    ensures WalkL(Lone(n)) == Own(n) + Inside(n) && SizeL(Lone(n)) == 1 + Size(n)
    ensures Rise(Lone(n), base) == Most(base + |Kids(n)|, RiseIn(n, base))
  {
    hide Inside, Kids, RiseIn, Size, Own;
    assert OwnL(End) == [] && InsideL(End) == [] && Pushes(End) == 0 && RiseL(End, base + |Kids(n)|) == 0;
    assert Own(n) + [] == Own(n) && [] + Inside(n) == Inside(n);
  }

  lemma IfPushed(st: seq<Nodes>, n: Node)
    requires n.IfN?
    ensures Drain(st + Kids(n)) == Inside(n) + Drain(st)
    ensures DrainRise(st + Kids(n)) == Most(RiseIn(n, |st|), DrainRise(st))
    ensures StackSize(st + Kids(n)) <= Size(n) + StackSize(st)
  {
    hide Drain, DrainRise, StackSize, KidOf, Own, RiseOne;
    PushedOne(st, n.t);
    if n.f.Some? {
      PushedOne(st + KidOf(n.t), n.f.value);
      assert st + KidOf(n.t) + KidOf(n.f.value) == st + Kids(n);
      var a, b := Own(n.f.value) + Inside(n.f.value), Own(n.t) + Inside(n.t);
      assert a + (b + Drain(st)) == a + b + Drain(st);
    } else {
      assert st + KidOf(n.t) == st + Kids(n);
      assert Inside(n) == Own(n.t) + Inside(n.t);
    }
  }

  /** Pushing what a statement leaves waiting adds what is inside it, no more. */
  lemma KidsPushed(st: seq<Nodes>, n: Node)
    ensures Drain(st + Kids(n)) == Inside(n) + Drain(st)
    ensures DrainRise(st + Kids(n)) == Most(RiseIn(n, |st|), DrainRise(st))
    ensures StackSize(st + Kids(n)) <= Size(n) + StackSize(st)
  {
    hide Drain, DrainRise, StackSize, KidOf, Own, RiseOne;
    match n
    case Block(l) =>
      if Starts(l) {
        Pushed(st, l);
      } else {
        assert st + Kids(n) == st;
      }
    case IfN(_, _, _) => IfPushed(st, n);
    case LoopN(_, _, _, _, b) => PushedOne(st, b);
    case CaseN(_, b) => PushedOne(st, b);
    case Plain(_) => assert st + Kids(n) == st;
    case SwitchN(_, _) => assert st + Kids(n) == st;
  }

  /** What is still to come while a list is gone through with others waiting. */
  function ToCome(l: Nodes, st: seq<Nodes>): seq<Label> { OwnL(l) + (InsideL(l) + Drain(st)) }

  function ToRise(l: Nodes, st: seq<Nodes>): nat { Most(Rise(l, |st|), DrainRise(st)) }

  lemma TakesList(st: seq<Nodes>)
    requires st != []
    ensures var l, rest := st[|st| - 1], st[..|st| - 1];
            && Drain(st) == ToCome(l, rest) && DrainRise(st) == ToRise(l, rest)
            && StackSize(st) == 1 + SizeL(l) + StackSize(rest)
  {
    hide OwnL, InsideL, Rise, SizeL;
    var l, rest := st[|st| - 1], st[..|st| - 1];
    assert OwnL(l) + InsideL(l) + Drain(rest) == OwnL(l) + (InsideL(l) + Drain(rest));
  }

  lemma TakesHead(l: Nodes, st: seq<Nodes>)
    requires l.More?
    ensures ToCome(l, st) == Own(l.head) + ToCome(l.tail, st + Kids(l.head))
    ensures ToRise(l, st) == ToRise(l.tail, st + Kids(l.head)) && |st + Kids(l.head)| <= ToRise(l, st)
    ensures StackSize(st + Kids(l.head)) + SizeL(l.tail) < StackSize(st) + SizeL(l)
  {
    hide Inside, Drain, DrainRise, StackSize, Kids, RiseIn, Own, Size;
    KidsPushed(st, l.head);
    var own, inn, ins, rest := OwnL(l.tail), InsideL(l.tail), Inside(l.head), Drain(st);
    assert Own(l.head) + own + (inn + ins + rest) == Own(l.head) + (own + (inn + (ins + rest)));
  }

  lemma TakesNone(st: seq<Nodes>)
    ensures ToCome(End, st) == Drain(st) && ToRise(End, st) == Most(|st|, DrainRise(st))
  {
    hide Drain, DrainRise;
    var none: seq<Label> := [];
    assert none + (none + Drain(st)) == Drain(st);
  }

  /** Goes through the body with a stack of its own, a list at a time. It succeeds
      exactly when what it comes to has no label twice once converted, no more than
      64 cases, and never more lists waiting than the stack holds; it then has the
      values in the order it found them. */
  method Collect(body: Node, ty: Ty) returns (ok: bool, keys: seq<int>, dflt: bool)
    ensures ok <==> Accepted(body, ty)
    ensures ok ==> keys == Values(KeysOf(Walk(body), ty)) && dflt == (Default in KeysOf(Walk(body), ty))
  {
    hide Walk, Drain, DrainRise, StackSize, Rise, ToCome, ToRise, Kids, SizeL, Own, KeysOf, Values, NoTwice, Conv;
    var stack: seq<Nodes> := [Lone(body)];
    ghost var done: seq<Label> := [];
    ok, keys, dflt := true, [], false;
    Begins(body, ty);
    while stack != []
      invariant done + Drain(stack) == Walk(body) && Holds(done, ty, keys, dflt)
      invariant |stack| <= MAX_WALK && Most(MAX_WALK, DrainRise(stack)) == Most(MAX_WALK, Rise(Lone(body), 0))
      decreases StackSize(stack)
    {
      ghost var was := StackSize(stack);
      TakesList(stack);
      var l := stack[|stack| - 1];
      stack := stack[..|stack| - 1];
      while l.More?
        invariant done + ToCome(l, stack) == Walk(body) && Holds(done, ty, keys, dflt)
        invariant |stack| <= MAX_WALK && Most(MAX_WALK, ToRise(l, stack)) == Most(MAX_WALK, Rise(Lone(body), 0))
        invariant StackSize(stack) + SizeL(l) < was
        decreases l
      {
        var s := l.head;
        TakesHead(l, stack);
        ghost var rest := ToCome(l.tail, stack + Kids(s));
        Regroups(done, Own(s), rest);
        if s.CaseN? {
          OwnLabel(s);
          if s.mark.None? {
            if dflt {
              TwiceFails(done, s.mark, rest, ty, keys, dflt);
              return false, keys, dflt;
            }
            HoldsMore(done, s.mark, ty, keys, dflt);
            dflt := true;
          } else {
            var v := KeyOf(s.mark, ty).v;
            var found := Seen(keys, v);
            if found {
              TwiceFails(done, s.mark, rest, ty, keys, dflt);
              return false, keys, dflt;
            }
            if |keys| + 1 > MAX_CASES {
              CountFails(done, s.mark, rest, ty, keys, dflt);
              return false, keys, dflt;
            }
            HoldsMore(done, s.mark, ty, keys, dflt);
            keys := keys + [v];
          }
        } else {
          OwnNothing(s, done);
        }
        if |stack| + |Kids(s)| > MAX_WALK {
          return false, keys, dflt;
        }
        done := done + Own(s);
        stack := stack + Kids(s);
        l := l.tail;
      }
      TakesNone(stack);
    }
    Ends(done);
  }

  /** What the walk has after the labels `done`. */
  ghost predicate Holds(done: seq<Label>, ty: Ty, keys: seq<int>, dflt: bool) {
    var ks := KeysOf(done, ty);
    keys == Values(ks) && dflt == (Default in ks) && NoTwice(ks) && |keys| <= MAX_CASES
  }

  method Seen(keys: seq<int>, v: int) returns (yes: bool)
    ensures yes <==> v in keys
  {
    var i := 0;
    while i < |keys|
      invariant 0 <= i <= |keys| && v !in keys[..i]
    {
      if keys[i] == v {
        return true;
      }
      i := i + 1;
    }
    return false;
  }

  lemma Begins(body: Node, ty: Ty)
    ensures Drain([Lone(body)]) == Walk(body) && DrainRise([Lone(body)]) == Rise(Lone(body), 0)
    ensures Holds([], ty, [], false)
  {
    hide Own, Inside, Rise;
    var none: seq<Nodes> := [];
    Pushed(none, Lone(body));
    OnlyOne(body, 0);
    assert none + [Lone(body)] == [Lone(body)];
    assert KeysOf([], ty) == [];
  }

  lemma Ends(done: seq<Label>)
    ensures Drain([]) == [] && DrainRise([]) == 0 && done + [] == done
  {
  }

  lemma Regroups(done: seq<Label>, own: seq<Label>, rest: seq<Label>)
    ensures done + (own + rest) == done + own + rest
  {
  }

  lemma OwnLabel(n: Node)
    requires n.CaseN?
    ensures Own(n) == [n.mark]
  {
  }

  lemma OwnNothing(n: Node, done: seq<Label>)
    requires !n.CaseN?
    ensures done + Own(n) == done
  {
  }

  lemma KeysMore(done: seq<Label>, v: Label, ty: Ty)
    ensures KeysOf(done + [v], ty) == KeysOf(done, ty) + [KeyOf(v, ty)]
    ensures Values(KeysOf(done + [v], ty)) ==
            Values(KeysOf(done, ty)) + if v.Some? then [KeyOf(v, ty).v] else []
  {
    hide Values, Conv;
    var k := KeyOf(v, ty);
    KeysJoin(done, [v], ty);
    assert KeysOf([v], ty) == [k];
    ValuesJoin(KeysOf(done, ty), [k]);
    OneValue(k);
  }

  lemma OneValue(k: Key)
    ensures Values([k]) == if k.CaseOf? then [k.v] else []
  {
    assert [k][1..] == [];
  }

  lemma HoldsMore(done: seq<Label>, v: Label, ty: Ty, keys: seq<int>, dflt: bool)
    requires Holds(done, ty, keys, dflt)
    requires if v.None? then !dflt else KeyOf(v, ty).v !in keys && |keys| < MAX_CASES
    ensures if v.None? then Holds(done + [v], ty, keys, true)
            else Holds(done + [v], ty, keys + [KeyOf(v, ty).v], dflt)
  {
    hide KeysOf, Values, Conv;
    var ks, k := KeysOf(done, ty), KeyOf(v, ty);
    KeysMore(done, v, ty);
    if v.Some? {
      InValues(ks, k.v);
    }
    assert k !in ks;
  }

  lemma TwiceFails(done: seq<Label>, v: Label, rest: seq<Label>, ty: Ty, keys: seq<int>, dflt: bool)
    requires Holds(done, ty, keys, dflt) && if v.None? then dflt else KeyOf(v, ty).v in keys
    ensures !NoTwice(KeysOf(done + [v] + rest, ty))
  {
    hide Values, Conv;
    var ks, k := KeysOf(done, ty), KeyOf(v, ty);
    if v.Some? {
      InValues(ks, k.v);
    }
    var i :| 0 <= i < |ks| && ks[i] == k;
    var all := KeysOf(done + [v] + rest, ty);
    assert (done + [v] + rest)[i] == done[i] && (done + [v] + rest)[|done|] == v;
    assert all[i] == all[|done|];
  }

  lemma CountFails(done: seq<Label>, v: Label, rest: seq<Label>, ty: Ty, keys: seq<int>, dflt: bool)
    requires Holds(done, ty, keys, dflt) && v.Some? && |keys| >= MAX_CASES
    ensures |Values(KeysOf(done + [v] + rest, ty))| > MAX_CASES
  {
    hide KeysOf, Values, Conv, NoTwice;
    KeysMore(done, v, ty);
    KeysJoin(done + [v], rest, ty);
    ValuesJoin(KeysOf(done + [v], ty), KeysOf(rest, ty));
  }
}
