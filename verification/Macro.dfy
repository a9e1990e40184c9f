// Macro expansion on a stream without directives: a stack of token frames, and
// the recursive expansion it must produce.

module Macro {
  import opened Basics

  const FRAMES: nat := 16
  const MAX_EXPANSIONS: nat := 200_000
  const TOKENS_MAX: nat := 6144

  /** A `#` that starts a line is a directive and so not among these; anywhere else
      it is a token like any other. */
  datatype Tok = Eof | Ident(name: string) | Other(text: string)

  /** Object-like macros and their replacement lists. */
  type Table = map<string, seq<Tok>>

  predicate Plain(toks: seq<Tok>) { Eof !in toks }

  predicate PlainTable(m: Table) { forall n :: n in m ==> Plain(m[n]) }

  // ---- the recursive expansion ---------------------------------------------------------------

  predicate Expands(m: Table, t: Tok, off: set<string>) { t.Ident? && t.name in m && t.name !in off }

  lemma Fewer(m: Table, n: string, off: set<string>)
    requires n in m && n !in off
    ensures |m.Keys - (off + {n})| < |m.Keys - off|
  {
    assert m.Keys - (off + {n}) == (m.Keys - off) - {n};
  }

  /** A name is replaced by its body, expanded in turn with that name disabled. */
  function Expand(m: Table, toks: seq<Tok>, off: set<string>): seq<Tok>
    decreases |m.Keys - off|, |toks|
  {
    if toks == [] then [] else ExpandOne(m, toks[0], off) + Expand(m, toks[1..], off)
  }

  function ExpandOne(m: Table, t: Tok, off: set<string>): seq<Tok>
    decreases |m.Keys - off|, 0
  {
    if Expands(m, t, off) then
      Fewer(m, t.name, off);
      Expand(m, m[t.name], off + {t.name})
    else [t]
  }

  /** How many substitutions that takes. */
  function Count(m: Table, toks: seq<Tok>, off: set<string>): nat
    decreases |m.Keys - off|, |toks|
  {
    if toks == [] then 0 else CountOne(m, toks[0], off) + Count(m, toks[1..], off)
  }

  function CountOne(m: Table, t: Tok, off: set<string>): nat
    decreases |m.Keys - off|, 0
  {
    if Expands(m, t, off) then
      Fewer(m, t.name, off);
      1 + Count(m, m[t.name], off + {t.name})
    else 0
  }

  /** How many tokens of bodies are copied into the arena. */
  function Copied(m: Table, toks: seq<Tok>, off: set<string>): nat
    decreases |m.Keys - off|, |toks|
  {
    if toks == [] then 0 else CopiedOne(m, toks[0], off) + Copied(m, toks[1..], off)
  }

  function CopiedOne(m: Table, t: Tok, off: set<string>): nat
    decreases |m.Keys - off|, 0
  {
    if Expands(m, t, off) then
      Fewer(m, t.name, off);
      |m[t.name]| + Copied(m, m[t.name], off + {t.name})
    else 0
  }

  /** How many tokens are read on the way: the measure that bounds the run. */
  function Weight(m: Table, toks: seq<Tok>, off: set<string>): nat
    decreases |m.Keys - off|, |toks|
  {
    if toks == [] then 0 else WeightOne(m, toks[0], off) + Weight(m, toks[1..], off)
  }

  function WeightOne(m: Table, t: Tok, off: set<string>): (w: nat)
    ensures w >= 1
    decreases |m.Keys - off|, 0
  {
    if Expands(m, t, off) then
      Fewer(m, t.name, off);
      1 + Weight(m, m[t.name], off + {t.name})
    else 1
  }

  /** How many macro bodies are open at once; an empty body is never opened. */
  function Nest(m: Table, toks: seq<Tok>, off: set<string>): nat
    decreases |m.Keys - off|, |toks|
  {
    if toks == [] then 0 else Most(NestOne(m, toks[0], off), Nest(m, toks[1..], off))
  }

  function NestOne(m: Table, t: Tok, off: set<string>): nat
    decreases |m.Keys - off|, 0
  {
    if Expands(m, t, off) && m[t.name] != [] then
      Fewer(m, t.name, off);
      1 + Nest(m, m[t.name], off + {t.name})
    else 0
  }

  // ---- rescanning with hide sets -------------------------------------------------------------------

  /** A token and the names it may no longer be replaced by. */
  datatype Painted = Painted(t: Tok, off: set<string>)

  function Paint(toks: seq<Tok>, off: set<string>): (r: seq<Painted>)
    ensures |r| == |toks|
  {
    seq(|toks|, i requires 0 <= i < |toks| => Painted(toks[i], off))
  }

  function PaintWeight(m: Table, ps: seq<Painted>): nat {
    if ps == [] then 0 else WeightOne(m, ps[0].t, ps[0].off) + PaintWeight(m, ps[1..])
  }

  lemma {:induction false} PaintWeightIs(m: Table, toks: seq<Tok>, off: set<string>, rest: seq<Painted>)
    ensures PaintWeight(m, Paint(toks, off) + rest) == Weight(m, toks, off) + PaintWeight(m, rest)
    decreases |toks|
  {
    hide WeightOne;
    var all := Paint(toks, off) + rest;
    if toks == [] {
      assert all == rest;
    } else {
      assert all[0] == Painted(toks[0], off) && all[1..] == Paint(toks[1..], off) + rest;
      PaintWeightIs(m, toks[1..], off, rest);
    }
  }

  /** Section 6.10.3.4 of C11 by rewriting one list: a replaced name's body is
      painted with that name and scanned again together with the rest. */
  function Rescan(m: Table, ps: seq<Painted>): seq<Tok>
    decreases PaintWeight(m, ps)
  {
    if ps == [] then []
    else
      var t, off := ps[0].t, ps[0].off;
      if Expands(m, t, off) then
        Fewer(m, t.name, off);
        PaintWeightIs(m, m[t.name], off + {t.name}, ps[1..]);
        Rescan(m, Paint(m[t.name], off + {t.name}) + ps[1..])
      else [t] + Rescan(m, ps[1..])
  }

  /** The recursive expansion is what rescanning gives. */
  lemma {:induction false} RescanIs(m: Table, toks: seq<Tok>, off: set<string>, rest: seq<Painted>)
    ensures Rescan(m, Paint(toks, off) + rest) == Expand(m, toks, off) + Rescan(m, rest)
    decreases |m.Keys - off|, |toks|
  {
    hide Expand, ExpandOne, Paint;
    NoneIsNothing(m, off);
    var all := Paint(toks, off) + rest;
    PaintOpens(toks, off, rest);
    if toks == [] {
    } else {
      ExpandOpens(m, toks, off);
      var t, tail := toks[0], Paint(toks[1..], off) + rest;
      RescanIs(m, toks[1..], off, rest);
      if Expands(m, t, off) {
        Fewer(m, t.name, off);
        RescanIs(m, m[t.name], off + {t.name}, tail);
      }
    }
  }

  lemma NoneIsNothing(m: Table, off: set<string>)
    ensures Expand(m, [], off) == []
  {
  }

  lemma PaintOpens(toks: seq<Tok>, off: set<string>, rest: seq<Painted>)
    ensures toks == [] ==> Paint(toks, off) + rest == rest
    ensures toks != [] ==>
              (Paint(toks, off) + rest)[0] == Painted(toks[0], off)
              && (Paint(toks, off) + rest)[1..] == Paint(toks[1..], off) + rest
  {
  }

  lemma ExpandOpens(m: Table, toks: seq<Tok>, off: set<string>)
    requires toks != []
    ensures Expand(m, toks, off) == (if Expands(m, toks[0], off) then Expand(m, m[toks[0].name],
            off + {toks[0].name}) else [toks[0]]) + Expand(m, toks[1..], off)
  {
  }

  // ---- the frame stack ---------------------------------------------------------------------------

  datatype Frame = Frame(t: seq<Tok>, i: nat, macro: Option<string>)

  /** Frame 0 is the main stream and ends in the end-of-file token; the others
      are bodies of different macros. */
  ghost predicate Stack(m: Table, fr: seq<Frame>) {
    && fr != []
    && (forall k :: 0 <= k < |fr| ==> fr[k].i <= |fr[k].t|)
    && fr[0].macro.None? && fr[0].t != [] && fr[0].t[|fr[0].t| - 1].Eof? && Plain(fr[0].t[..|fr[0].t| - 1])
    && (forall k :: 1 <= k < |fr| ==> fr[k].macro.Some? && fr[k].macro.value in m && fr[k].t == m[fr[k].macro.value])
    && (forall j, k :: 1 <= j < k < |fr| ==> fr[j].macro != fr[k].macro)
  }

  /** The macros being expanded. */
  function Open(fr: seq<Frame>): set<string> {
    set k | 0 <= k < |fr| && fr[k].macro.Some? :: fr[k].macro.value
  }

  /** What is still to be read of a frame, the end-of-file token aside. */
  function Left(f: Frame): seq<Tok>
    requires f.i <= |f.t|
  {
    if f.macro.Some? then f.t[f.i..] else if f.i >= |f.t| then [] else f.t[f.i..|f.t| - 1]
  }

  predicate Bounded(fr: seq<Frame>) { forall k :: 0 <= k < |fr| ==> fr[k].i <= |fr[k].t| }

  /** What the stack still has to put out, top frame first. */
  function Remaining(m: Table, fr: seq<Frame>): seq<Tok>
    requires Bounded(fr)
  {
    if fr == [] then [] else Expand(m, Left(fr[|fr| - 1]), Open(fr)) + Remaining(m, fr[..|fr| - 1])
  }

  function Counts(m: Table, fr: seq<Frame>): nat
    requires Bounded(fr)
  {
    if fr == [] then 0 else Count(m, Left(fr[|fr| - 1]), Open(fr)) + Counts(m, fr[..|fr| - 1])
  }

  function Copies(m: Table, fr: seq<Frame>): nat
    requires Bounded(fr)
  {
    if fr == [] then 0 else Copied(m, Left(fr[|fr| - 1]), Open(fr)) + Copies(m, fr[..|fr| - 1])
  }

  function Weights(m: Table, fr: seq<Frame>): nat
    requires Bounded(fr)
  {
    if fr == [] then 0 else Weight(m, Left(fr[|fr| - 1]), Open(fr)) + Weights(m, fr[..|fr| - 1])
  }

  /** The deepest the stack will get. */
  function Depths(m: Table, fr: seq<Frame>): nat
    requires Bounded(fr)
  {
    if fr == [] then 0 else Most(|fr| - 1 + Nest(m, Left(fr[|fr| - 1]), Open(fr)), Depths(m, fr[..|fr| - 1]))
  }

  // ---- peeking -------------------------------------------------------------------------------------

  predicate Based(fr: seq<Frame>) { fr != [] && Bounded(fr) && fr[0].t != [] }

  /** Exhausted frames above the main one go away. */
  function Popped(fr: seq<Frame>): (r: seq<Frame>)
    requires Based(fr)
    ensures Based(r) && r <= fr && (|r| > 1 ==> r[|r| - 1].i < |r[|r| - 1].t|)
  {
    if |fr| > 1 && fr[|fr| - 1].i >= |fr[|fr| - 1].t| then Popped(fr[..|fr| - 1]) else fr
  }

  function Peek(fr: seq<Frame>): Tok
    requires Based(fr)
  {
    var p := Popped(fr);
    var f := p[|p| - 1];
    if f.i >= |f.t| then f.t[|f.t| - 1] else f.t[f.i]
  }

  lemma PopOne(fr: seq<Frame>)
    requires Based(fr) && |fr| > 1 && fr[|fr| - 1].i >= |fr[|fr| - 1].t|
    ensures Based(fr[..|fr| - 1]) && Popped(fr) == Popped(fr[..|fr| - 1])
  {
  }

  lemma PopNone(fr: seq<Frame>, was: seq<Frame>)
    requires Based(fr) && Based(was) && Popped(fr) == Popped(was)
    requires |fr| == 1 || fr[|fr| - 1].i < |fr[|fr| - 1].t|
    ensures var f := fr[|fr| - 1];
            && fr == Popped(was) && f.t != []
            && Peek(was) == if f.i >= |f.t| then f.t[|f.t| - 1] else f.t[f.i]
  {
  }

  function Advance(fr: seq<Frame>): (r: seq<Frame>)
    requires Based(fr)
    ensures Based(r) && |r| == |fr|
  {
    var f := fr[|fr| - 1];
    if f.i < |f.t| then fr[|fr| - 1 := f.(i := f.i + 1)] else fr
  }

  /** The stack after the current token is consumed. */
  function Next(fr: seq<Frame>): seq<Frame>
    requires Based(fr)
  {
    Advance(Popped(fr))
  }

  /** The token at place `i` of frame `k`, or else the first one below. */
  function AheadFrom(fr: seq<Frame>, k: nat, i: nat): Tok
    requires Based(fr) && k < |fr|
  {
    if i < |fr[k].t| then fr[k].t[i]
    else if k == 0 then fr[0].t[|fr[0].t| - 1]
    else AheadFrom(fr, k - 1, fr[k - 1].i)
  }

  function PeekAhead(fr: seq<Frame>): Tok
    requires Based(fr)
  {
    var p := Popped(fr);
    AheadFrom(p, |p| - 1, p[|p| - 1].i + 1)
  }

  lemma {:induction false} AheadSame(a: seq<Frame>, b: seq<Frame>, k: nat, i: nat)
    requires Based(a) && Based(b) && k < |a| && k < |b| && (forall j :: 0 <= j < k ==> a[j] == b[j]) && a[k].t == b[k].t
    ensures AheadFrom(a, k, i) == AheadFrom(b, k, i)
    decreases k
  {
    if k > 0 {
      AheadSame(a, b, k - 1, a[k - 1].i);
    }
  }

  lemma {:induction false} PeekIs(fr: seq<Frame>)
    requires Based(fr)
    ensures Peek(fr) == AheadFrom(fr, |fr| - 1, fr[|fr| - 1].i)
    decreases |fr|
  {
    if |fr| > 1 && fr[|fr| - 1].i >= |fr[|fr| - 1].t| {
      var low := fr[..|fr| - 1];
      PeekIs(low);
      AheadSame(low, fr, |low| - 1, low[|low| - 1].i);
    }
  }

  /** Looking one token ahead, without consuming anything, sees exactly what
      would be current after the next token is consumed. */
  lemma AheadIsNext(fr: seq<Frame>)
    requires Based(fr)
    ensures PeekAhead(fr) == Peek(Next(fr))
  {
    var p, q := Popped(fr), Next(fr);
    PeekIs(q);
    AheadSame(p, q, |p| - 1, q[|q| - 1].i);
  }

  // ---- one turn of the loop ------------------------------------------------------------------------------

  /** The state of the run as a whole: what is out, what is to come, and what
      that will take. */
  predicate Alike(m: Table, a: seq<Frame>, b: seq<Frame>)
    requires Bounded(a) && Bounded(b)
  {
    && Remaining(m, a) == Remaining(m, b) && Counts(m, a) == Counts(m, b) && Copies(m, a) == Copies(m, b)
    && Weights(m, a) == Weights(m, b)
  }

  lemma PopTurn(m: Table, fr: seq<Frame>)
    requires Stack(m, fr) && |fr| > 1 && fr[|fr| - 1].i >= |fr[|fr| - 1].t|
    ensures var low := fr[..|fr| - 1];
            Stack(m, low) && Alike(m, fr, low) && Depths(m, fr) == Most(|fr| - 1, Depths(m, low))
  {
    assert Left(fr[|fr| - 1]) == [];
  }

  lemma {:induction false} PoppedTurn(m: Table, fr: seq<Frame>)
    requires Stack(m, fr) && |fr| <= FRAMES
    ensures Stack(m, Popped(fr)) && Alike(m, fr, Popped(fr))
    ensures Depths(m, fr) < FRAMES <==> Depths(m, Popped(fr)) < FRAMES
    decreases |fr|
  {
    hide Remaining, Counts, Copies, Weights, Depths, Stack;
    Shapely(m, fr);
    if |fr| > 1 && fr[|fr| - 1].i >= |fr[|fr| - 1].t| {
      PopTurn(m, fr);
      PoppedTurn(m, fr[..|fr| - 1]);
    }
  }

  lemma Shapely(m: Table, fr: seq<Frame>)
    requires Stack(m, fr)
    ensures Based(fr)
  {
  }

  lemma OpenAdvance(fr: seq<Frame>)
    requires Based(fr)
    ensures Open(Advance(fr)) == Open(fr) && Advance(fr)[..|fr| - 1] == fr[..|fr| - 1]
  {
    var r := Advance(fr);
    assert forall k :: 0 <= k < |fr| ==> r[k].macro == fr[k].macro;
  }

  lemma LeftAdvance(m: Table, fr: seq<Frame>)
    requires Stack(m, fr) && PlainTable(m) && Based(fr)
    requires var f := fr[|fr| - 1]; f.i < |f.t| && !f.t[f.i].Eof?
    ensures var f := fr[|fr| - 1]; Left(f) == [f.t[f.i]] + Left(Advance(fr)[|fr| - 1]) && Stack(m, Advance(fr))
  {
    var f := fr[|fr| - 1];
    if f.macro.None? {
      assert |fr| == 1;
      assert f.i < |f.t| - 1;
    }
  }

  /** One token and what follows it. */
  lemma ConsOpens(m: Table, t: Tok, rest: seq<Tok>, off: set<string>)
    ensures Expand(m, [t] + rest, off) == ExpandOne(m, t, off) + Expand(m, rest, off)
    ensures Count(m, [t] + rest, off) == CountOne(m, t, off) + Count(m, rest, off)
    ensures Copied(m, [t] + rest, off) == CopiedOne(m, t, off) + Copied(m, rest, off)
    ensures Weight(m, [t] + rest, off) == WeightOne(m, t, off) + Weight(m, rest, off)
    ensures Nest(m, [t] + rest, off) == Most(NestOne(m, t, off), Nest(m, rest, off))
  {
    hide ExpandOne, CountOne, CopiedOne, WeightOne, NestOne;
    assert ([t] + rest)[1..] == rest;
  }

  /** The top frame and what is below it. */
  lemma TopOpens(m: Table, fr: seq<Frame>)
    requires Based(fr)
    ensures var left, low := Left(fr[|fr| - 1]), fr[..|fr| - 1];
            && Remaining(m, fr) == Expand(m, left, Open(fr)) + Remaining(m, low)
            && Counts(m, fr) == Count(m, left, Open(fr)) + Counts(m, low)
            && Copies(m, fr) == Copied(m, left, Open(fr)) + Copies(m, low)
            && Weights(m, fr) == Weight(m, left, Open(fr)) + Weights(m, low)
            && Depths(m, fr) == Most(|fr| - 1 + Nest(m, left, Open(fr)), Depths(m, low))
  {
    hide Expand, Count, Copied, Weight, Nest, Open, Left;
  }

  lemma NothingLeft(m: Table, off: set<string>)
    ensures Expand(m, [], off) == [] && Count(m, [], off) == 0 && Copied(m, [], off) == 0
    ensures Weight(m, [], off) == 0 && Nest(m, [], off) == 0
  {
  }

  /** A token that is no macro, or one being expanded already, goes out as it is. */
  lemma EmitTurn(m: Table, fr: seq<Frame>)
    requires Stack(m, fr) && PlainTable(m) && Based(fr)
    requires var f := fr[|fr| - 1]; f.i < |f.t| && !f.t[f.i].Eof? && !Expands(m, f.t[f.i], Open(fr))
    ensures var t, r := fr[|fr| - 1].t[fr[|fr| - 1].i], Advance(fr);
            && Stack(m, r)
            && Remaining(m, fr) == [t] + Remaining(m, r)
            && Counts(m, fr) == Counts(m, r) && Copies(m, fr) == Copies(m, r)
            && Weights(m, fr) == 1 + Weights(m, r)
            && Depths(m, fr) == Depths(m, r)
  {
    hide Stack, Open, Left, Expands, Remaining, Counts, Copies, Weights, Depths, Expand, Count, Copied, Weight, Nest;
    LeftAdvance(m, fr);
    OpenAdvance(fr);
    TopOpens(m, fr);
    TopOpens(m, Advance(fr));
    ConsOpens(m, fr[|fr| - 1].t[fr[|fr| - 1].i], Left(Advance(fr)[|fr| - 1]), Open(fr));
  }

  function Pushed(fr: seq<Frame>, body: seq<Tok>, name: string): seq<Frame> { fr + [Frame(body, 0, Some(name))] }

  lemma OpenPushed(fr: seq<Frame>, body: seq<Tok>, name: string)
    ensures Open(Pushed(fr, body, name)) == Open(fr) + {name}
  {
    var r := Pushed(fr, body, name);
    assert forall k :: 0 <= k < |fr| ==> r[k] == fr[k];
    assert r[|fr|].macro == Some(name);
  }

  /** A macro not being expanded is replaced by its body, unless that is empty. */
  lemma ExpandTurn(m: Table, fr: seq<Frame>)
    requires Stack(m, fr) && PlainTable(m) && Based(fr)
    requires var f := fr[|fr| - 1]; f.i < |f.t| && Expands(m, f.t[f.i], Open(fr))
    ensures var name := fr[|fr| - 1].t[fr[|fr| - 1].i].name;
            var r := if m[name] == [] then Advance(fr) else Pushed(Advance(fr), m[name], name);
            && Stack(m, r)
            && Remaining(m, fr) == Remaining(m, r)
            && Counts(m, fr) == 1 + Counts(m, r) && Copies(m, fr) == |m[name]| + Copies(m, r)
            && Weights(m, fr) == 1 + Weights(m, r)
            && Depths(m, fr) == Depths(m, r)
  {
    hide Stack, Open, Left, Remaining, Counts, Copies, Weights, Depths, Expand, Count, Copied, Weight, Nest;
    LeftAdvance(m, fr);
    OpenAdvance(fr);
    var name := fr[|fr| - 1].t[fr[|fr| - 1].i].name;
    var a := Advance(fr);
    TopOpens(m, fr);
    TopOpens(m, a);
    ConsOpens(m, fr[|fr| - 1].t[fr[|fr| - 1].i], Left(a[|fr| - 1]), Open(fr));
    if m[name] == [] {
      NothingLeft(m, Open(fr) + {name});
    } else {
      OpenPushed(a, m[name], name);
      PushedStack(m, a, name);
      var r := Pushed(a, m[name], name);
      assert r[..|r| - 1] == a;
      LeftBody(m[name], name);
      PushedBased(a, m[name], name);
      TopOpens(m, r);
    }
  }

  lemma PushedBased(fr: seq<Frame>, body: seq<Tok>, name: string)
    requires Based(fr)
    ensures Based(Pushed(fr, body, name))
  {
  }

  lemma LeftBody(body: seq<Tok>, name: string)
    ensures Left(Frame(body, 0, Some(name))) == body
  {
  }

  lemma PushedStack(m: Table, fr: seq<Frame>, name: string)
    requires Stack(m, fr) && name in m && name !in Open(fr)
    ensures Stack(m, Pushed(fr, m[name], name))
  {
    var r := Pushed(fr, m[name], name);
    forall j | 1 <= j < |fr|
      ensures r[j].macro != r[|fr|].macro
    {
      assert fr[j].macro.value in Open(fr);
    }
  }

  lemma AheadOpens(fr: seq<Frame>)
    requires Based(fr)
    ensures var p := Popped(fr); PeekAhead(fr) == AheadFrom(p, |p| - 1, p[|p| - 1].i + 1)
  {
  }

  // ---- in place ------------------------------------------------------------------------------------------

  class Expander {
    const table: Table
    const fr: array<Frame>
    var sp: nat
    const out: array<Tok>
    var nout: nat
    var expansions: nat

    /** How many tokens the arena has room for, and how many are in it. */
    const room: nat
    var copied: nat

    ghost predicate Shape()
      reads this, fr
    {
      sp < fr.Length == FRAMES && Based(fr[..sp + 1])
    }

    ghost function Frames(): seq<Frame>
      requires Shape()
      reads this, fr
    {
      fr[..sp + 1]
    }

    ghost predicate Valid()
      reads this, fr, out
    {
      Shape() && Stack(table, Frames()) && PlainTable(table) && nout <= out.Length == TOKENS_MAX
    }

    /** Starts on a stream, which ends in the end-of-file token. */
    constructor (table: Table, toks: seq<Tok>, room: nat)
      requires PlainTable(table) && Plain(toks)
      ensures Valid() && fresh(fr) && fresh(out) && this.table == table && this.room == room
      ensures Frames() == [Frame(toks + [Eof], 0, None)] && nout == 0 && expansions == 0 && copied == 0
    {
      this.table, sp, nout, expansions := table, 0, 0, 0;
      this.room, copied := room, 0;
      fr := new Frame[FRAMES](_ => Frame([], 0, None));
      out := new Tok[TOKENS_MAX](_ => Eof);
      new;
      fr[0] := Frame(toks + [Eof], 0, None);
      assert fr[..1] == [Frame(toks + [Eof], 0, None)];
      assert (toks + [Eof])[..|toks|] == toks;
    }

    method PeekTok() returns (t: Tok)
      requires Shape()
      modifies this`sp
      ensures Shape() && Frames() == Popped(old(Frames())) && t == Peek(old(Frames())) && sp <= old(sp)
    {
      hide Popped, Peek, Based;
      while sp > 0 && fr[sp].i >= |fr[sp].t|
        invariant Shape() && sp <= old(sp)
        invariant Popped(Frames()) == Popped(old(Frames()))
      {
        assert fr[..sp + 1][..sp] == fr[..sp];
        PopOne(Frames());
        sp := sp - 1;
      }
      PopNone(Frames(), old(Frames()));
      var f := fr[sp];
      t := if f.i >= |f.t| then f.t[|f.t| - 1] else f.t[f.i];
    }

    method NextTok() returns (t: Tok)
      requires Shape()
      modifies this`sp, fr
      ensures Shape() && Frames() == Next(old(Frames())) && t == Peek(old(Frames()))
    {
      t := PeekTok();
      ghost var p := Frames();
      if fr[sp].i < |fr[sp].t| {
        fr[sp] := fr[sp].(i := fr[sp].i + 1);
      }
      assert fr[..sp + 1] == Advance(p);
    }

    method PeekAheadTok() returns (t: Tok)
      requires Shape()
      modifies this`sp
      ensures Shape() && Frames() == Popped(old(Frames())) && t == Peek(Next(old(Frames())))
    {
      hide Popped, Peek, Next;
      AheadIsNext(Frames());
      AheadOpens(Frames());
      var cur := PeekTok();
      var k, i := sp, fr[sp].i + 1;
      while i >= |fr[k].t| && k > 0
        invariant 0 <= k <= sp && 0 <= i
        invariant AheadFrom(Frames(), sp, fr[sp].i + 1) == AheadFrom(Frames(), k, i)
        decreases k
      {
        k := k - 1;
        i := fr[k].i;
      }
      t := if i < |fr[k].t| then fr[k].t[i] else fr[0].t[|fr[0].t| - 1];
    }

    /** Whether a frame is expanding the macro `name`. */
    method Expanding(name: string) returns (yes: bool)
      requires Shape()
      ensures yes <==> name in Open(Frames())
    {
      var k := 0;
      while k <= sp
        invariant 0 <= k <= sp + 1
        invariant forall j :: 0 <= j < k ==> fr[j].macro != Some(name)
      {
        if fr[k].macro == Some(name) {
          assert Frames()[k].macro.value in Open(Frames());
          return true;
        }
        k := k + 1;
      }
      return false;
    }

    method EmitTok(t: Tok) returns (ok: bool)
      requires nout <= out.Length == TOKENS_MAX
      modifies this`nout, out
      ensures nout <= out.Length
      ensures ok <==> old(nout) < TOKENS_MAX
      ensures ok ==> out[..nout] == old(out[..nout]) + [t]
    {
      if nout >= TOKENS_MAX {
        return false;
      }
      out[nout] := t;
      nout := nout + 1;
      return true;
    }

    /** Past the macro's name, and onto its body if it has one. */
    method Push(name: string) returns (ok: bool)
      requires Valid() && name in table
      requires var f := fr[sp]; f.i < |f.t| && f.t[f.i] == Ident(name) && name !in Open(Frames())
      modifies this`sp, this`expansions, this`copied, fr
      ensures ok <==> && old(expansions) < MAX_EXPANSIONS
                      && (table[name] == [] || (old(sp) + 1 < FRAMES && old(copied) + |table[name]| <= room))
      ensures ok ==> expansions == old(expansions) + 1 && copied == old(copied) + |table[name]| && Valid()
      ensures ok ==> Frames() == if table[name] == [] then Advance(old(Frames())) else Pushed(Advance(old(Frames())),
              table[name], name)
    {
      hide Stack, Open, Remaining, Counts, Copies, Weights, Depths, PlainTable;
      ghost var was := Frames();
      ExpandTurn(table, was);
      assert Popped(was) == was && Based(Advance(was));
      var t := NextTok();
      expansions := expansions + 1;
      if expansions > MAX_EXPANSIONS {
        return false;
      }
      if table[name] == [] {
        return true;
      }
      if sp + 1 >= FRAMES {
        return false;
      }
      if copied + |table[name]| > room {
        return false;
      }
      copied := copied + |table[name]|;
      PushedBased(Advance(was), table[name], name);
      sp := sp + 1;
      fr[sp] := Frame(table[name], 0, Some(name));
      assert fr[..sp + 1] == Pushed(Advance(was), table[name], name);
      return true;
    }

    /** What is out and what the stack still holds make up `total`, in `count`
        substitutions, `copies` tokens copied and `nest` open bodies altogether. */
    ghost predicate OnTrack(total: seq<Tok>, count: nat, copies: nat, nest: nat)
      reads this, fr, out
    {
      && Valid()
      && out[..nout] + Remaining(table, Frames()) == total
      && expansions + Counts(table, Frames()) == count
      && copied + Copies(table, Frames()) == copies
      && expansions <= MAX_EXPANSIONS && copied <= room
      && (Depths(table, Frames()) < FRAMES <==> nest < FRAMES)
    }

    ghost function Todo(): nat
      requires Shape()
      reads this, fr
    {
      Weights(table, Frames())
    }

    /** One turn of the loop. */
    method Turn(ghost total: seq<Tok>, ghost count: nat, ghost copies: nat, ghost nest: nat)
      returns (s: Status)
      requires OnTrack(total, count, copies, nest)
      modifies this, fr, out
      ensures s.More? ==> OnTrack(total, count, copies, nest) && Todo() < old(Todo())
      ensures s.Done? ==>
                  Valid() && out[..nout] == total && expansions == count && Fits(total, count, copies, nest, room)
      ensures s.Failed? ==> !Fits(total, count, copies, nest, room)
    {
      hide Remaining, Counts, Copies, Weights, Depths, Stack, Open, PlainTable, Expand, Popped, Peek;
      if sp == 0 && fr[0].i >= |fr[0].t| - 1 {
        EndOfStream(table, Frames());
        return Done;
      }
      PoppedTurn(table, Frames());
      PoppedOnce(Frames());
      var t := PeekTok();
      if t.Eof? && sp == 0 {
        EndReached(table, Frames());
        return Done;
      }
      NotEnd(table, Frames());
      if t.Ident? && t.name in table {
        var open := Expanding(t.name);
        if !open {
          s := Substitute(t.name, total, count, copies, nest);
          return;
        }
      }
      s := Output(t, total, count, copies, nest);
    }

    method Substitute(name: string, ghost total: seq<Tok>, ghost count: nat, ghost copies: nat, ghost nest: nat)
      returns (s: Status)
      requires OnTrack(total, count, copies, nest) && name in table
      requires var f := fr[sp]; f.i < |f.t| && f.t[f.i] == Ident(name) && name !in Open(Frames())
      modifies this, fr, out
      ensures s.More? ==> OnTrack(total, count, copies, nest) && Todo() < old(Todo())
      ensures s.Failed? ==> !Fits(total, count, copies, nest, room)
      ensures !s.Done?
    {
      hide Remaining, Counts, Copies, Weights, Depths, Stack, Open, PlainTable, Expand;
      ExpandTurn(table, Frames());
      if table[name] != [] {
        PushDepth(table, Frames(), name);
      }
      var ok := Push(name);
      s := if ok then More else Failed;
    }

    method Output(t: Tok, ghost total: seq<Tok>, ghost count: nat, ghost copies: nat, ghost nest: nat)
      returns (s: Status)
      requires OnTrack(total, count, copies, nest)
      requires var f := fr[sp]; f.i < |f.t| && f.t[f.i] == t && !t.Eof? && !Expands(table, t, Open(Frames()))
      modifies this, fr, out
      ensures s.More? ==> OnTrack(total, count, copies, nest) && Todo() < old(Todo())
      ensures s.Failed? ==> !Fits(total, count, copies, nest, room)
      ensures !s.Done?
    {
      hide Remaining, Counts, Copies, Weights, Depths, Stack, Open, PlainTable, Expand, Expands;
      ghost var was := Frames();
      EmitTurn(table, was);
      assert Popped(was) == was;
      var x := NextTok();
      var ok := EmitTok(t);
      if ok {
        assert out[..nout] + Remaining(table, Frames()) == total by {
          assert old(out[..nout]) + ([t] + Remaining(table, Frames())) == old(out[..nout]) + [t]
            + Remaining(table, Frames());
        }
      }
      s := if ok then More else Failed;
    }

    /** The whole stream. It succeeds exactly when the bodies open at once, the
        substitutions, the copies of bodies and the tokens put out fit, and then gives the recursive expansion;
        it ends because every turn reads a token of what is left to read. */
    method RunAll(toks: seq<Tok>) returns (ok: bool)
      requires Valid() && Plain(toks) && Frames() == [Frame(toks + [Eof], 0, None)]
      requires nout == 0 && expansions == 0 && copied == 0
      modifies this, fr, out
      ensures ok <==> Fits(Expand(table, toks, {}), Count(table, toks, {}), Copied(table, toks, {}),
                        Nest(table, toks, {}), room)
      ensures ok ==>
                nout <= out.Length && out[..nout] == Expand(table, toks, {}) && expansions == Count(table, toks, {})
    {
      hide Expand, Count, Copied, Nest, Remaining, Counts, Copies, Depths, Weights, Stack, PlainTable;
      ghost var total, count := Expand(table, toks, {}), Count(table, toks, {});
      ghost var copies, nest := Copied(table, toks, {}), Nest(table, toks, {});
      MainOpens(table, toks);
      var s := More;
      while s.More?
        invariant s.More? ==> OnTrack(total, count, copies, nest)
        invariant s.Done? ==>
                  Valid() && out[..nout] == total && expansions == count && Fits(total, count, copies, nest, room)
        invariant s.Failed? ==> !Fits(total, count, copies, nest, room)
        decreases if s.More? then 1 + Todo() else 0
      {
        s := Turn(total, count, copies, nest);
      }
      return s.Done?;
    }
  }

  datatype Status = More | Done | Failed

  predicate Fits(total: seq<Tok>, count: nat, copies: nat, nest: nat, room: nat) {
    |total| <= TOKENS_MAX && count <= MAX_EXPANSIONS && copies <= room && nest < FRAMES
  }

  lemma EndOfStream(m: Table, fr: seq<Frame>)
    requires Stack(m, fr) && Based(fr) && |fr| == 1 && fr[0].i >= |fr[0].t| - 1
    ensures Remaining(m, fr) == [] && Counts(m, fr) == 0 && Copies(m, fr) == 0 && Depths(m, fr) == 0
  {
    hide Expand, Count, Copied, Nest, Weight;
    assert Left(fr[0]) == [];
    NothingLeft(m, Open(fr));
  }

  lemma PoppedOnce(fr: seq<Frame>)
    requires Based(fr)
    ensures Popped(Popped(fr)) == Popped(fr) && Peek(Popped(fr)) == Peek(fr)
  {
  }

  lemma EndReached(m: Table, fr: seq<Frame>)
    requires Stack(m, fr) && Based(fr) && |fr| == 1 && Peek(fr).Eof?
    ensures Remaining(m, fr) == [] && Counts(m, fr) == 0 && Copies(m, fr) == 0 && Depths(m, fr) == 0
  {
    hide Expand, Count, Copied, Nest, Weight;
    EndOfStream(m, fr);
  }

  /** A current token that is not the end lies inside its frame. */
  lemma NotEnd(m: Table, fr: seq<Frame>)
    requires Stack(m, fr) && Based(fr) && PlainTable(m) && Popped(fr) == fr && !(|fr| == 1 && Peek(fr).Eof?)
    ensures var f := fr[|fr| - 1]; f.i < |f.t| && f.t[f.i] == Peek(fr) && !Peek(fr).Eof?
  {
  }

  /** A body cannot be opened on a full stack unless the bodies nest too deep. */
  lemma PushDepth(m: Table, fr: seq<Frame>, name: string)
    requires Stack(m, fr) && Based(fr) && PlainTable(m) && name in m && m[name] != []
    requires var f := fr[|fr| - 1]; f.i < |f.t| && f.t[f.i] == Ident(name) && name !in Open(fr)
    ensures Depths(m, fr) >= |fr|
  {
    hide Expand, Count, Copied, Weight, Nest, Depths, Stack, Open, Left, PlainTable;
    LeftAdvance(m, fr);
    TopOpens(m, fr);
    ConsOpens(m, Ident(name), Left(Advance(fr)[|fr| - 1]), Open(fr));
  }

  lemma MainOpens(m: Table, toks: seq<Tok>)
    requires Plain(toks)
    ensures var fr := [Frame(toks + [Eof], 0, None)];
            && Based(fr)
            && Remaining(m, fr) == Expand(m, toks, {})
            && Counts(m, fr) == Count(m, toks, {}) && Copies(m, fr) == Copied(m, toks, {})
            && Depths(m, fr) == Nest(m, toks, {})
  {
    hide Expand, Count, Copied, Nest, Weight;
    var fr := [Frame(toks + [Eof], 0, None)];
    assert Left(fr[0]) == toks;
    assert Open(fr) == {};
    TopOpens(m, fr);
    assert fr[..0] == [];
  }
}
