// The sound broker: one pending slot for the whole machine, a measured quiet
// time after each sound, and a rotation among apps driven by the grants.

module Cap {
  import opened Basics

  const GAP: nat := 500
  const QUIET_MAX: nat := 4000

  datatype Req = Req(id: nat, app: nat)

  /** A sound and the two clock readings around it. */
  datatype Sound = Sound(id: nat, start: nat, done: nat)

  /** `ids` numbers the requests accepted so far; `played` and `dropped` record
      what became of them. */
  datatype Broker = Broker(pend: Option<Req>, freeAt: nat, started: bool, ids: nat, played: seq<Sound>,
    dropped: seq<nat>)

  // ---- asking and serving ---------------------------------------------------------------

  /** A reading far before the window is a clock that went back, not a refusal. */
  predicate TooSoon(b: Broker, now: nat) { b.started && now < b.freeAt && b.freeAt - now <= QUIET_MAX }

  /** Bad arguments are refused first, then a full slot, then too early a time. */
  predicate Accepts(b: Broker, valid: bool, now: nat) { valid && b.pend.None? && !TooSoon(b, now) }

  function Ask(b: Broker, app: nat, valid: bool, now: nat): Broker {
    if Accepts(b, valid, now) then b.(pend := Some(Req(b.ids, app)), ids := b.ids + 1) else b
  }

  function Block(start: nat, done: nat): nat {
    var block := if done >= start then done - start else 0;
    if block > QUIET_MAX then QUIET_MAX else block
  }

  /** Quiet for as long as it blocked and the gap, but never longer than the maximum. */
  function Quiet(start: nat, done: nat): nat {
    var quiet := Block(start, done) + GAP;
    if quiet > QUIET_MAX then QUIET_MAX else quiet
  }

  /** The request is taken whatever comes of it; an app that has closed is not
      heard and costs no quiet time. */
  function Serve(b: Broker, now: nat, done: nat, open: bool): Broker {
    if b.pend.None? then b
    else if !open then b.(pend := None, dropped := b.dropped + [b.pend.value.id])
    else b.(pend := None, freeAt := done + Quiet(now, done), started := true,
            played := b.played + [Sound(b.pend.value.id, now, done)])
  }

  datatype Event = Asked(app: nat, valid: bool, now: nat) | Served(now: nat, done: nat, open: bool)

  function Step(b: Broker, e: Event): Broker {
    match e
    case Asked(app, valid, now) => Ask(b, app, valid, now)
    case Served(now, done, open) => Serve(b, now, done, open)
  }

  function Run(b: Broker, es: seq<Event>): Broker
    decreases |es|
  {
    if es == [] then b else Run(Step(b, es[0]), es[1..])
  }

  // ---- at most once ---------------------------------------------------------------------------

  function IdsOf(played: seq<Sound>): (r: seq<nat>)
    ensures |r| == |played| && forall i :: 0 <= i < |r| ==> r[i] == played[i].id
  {
    seq(|played|, i requires 0 <= i < |played| => played[i].id)
  }

  function Waiting(b: Broker): multiset<nat> { if b.pend.Some? then multiset{b.pend.value.id} else multiset{} }

  function All(b: Broker): multiset<nat> { multiset(IdsOf(b.played)) + multiset(b.dropped) + Waiting(b) }

  /** Every accepted request is played, dropped or waiting, and only one of them. */
  ghost predicate Accounted(b: Broker) {
    forall id: nat :: All(b)[id] == if id < b.ids then 1 else 0
  }

  lemma IdsMore(played: seq<Sound>, s: Sound)
    ensures IdsOf(played + [s]) == IdsOf(played) + [s.id]
  {
  }

  lemma StepAccounts(b: Broker, e: Event)
    requires Accounted(b)
    ensures Accounted(Step(b, e))
  {
    var r := Step(b, e);
    if e.Asked? && Accepts(b, e.valid, e.now) {
      assert All(r) == All(b) + multiset{b.ids};
    } else {
      if e.Served? && b.pend.Some? && e.open {
        IdsMore(b.played, Sound(b.pend.value.id, e.now, e.done));
      }
      assert All(r) == All(b);
    }
  }

  lemma {:induction false} RunAccounts(b: Broker, es: seq<Event>)
    requires Accounted(b)
    ensures Accounted(Run(b, es))
    decreases |es|
  {
    hide Step, Accounted;
    if es != [] {
      StepAccounts(b, es[0]);
      RunAccounts(Step(b, es[0]), es[1..]);
    }
  }

  // ---- the duty cycle ----------------------------------------------------------------------------

  /** Readings never go back, from `t` on. */
  predicate Monotone(es: seq<Event>, t: nat) {
    if es == [] then true
    else
      match es[0]
      case Asked(_, _, now) => t <= now && Monotone(es[1..], now)
      case Served(now, done, _) => t <= now <= done && Monotone(es[1..], done)
  }

  /** Each sound starts no earlier than the quiet time after the one before. */
  predicate Spaced(played: seq<Sound>) {
    && (forall j :: 0 <= j < |played| ==> played[j].start <= played[j].done)
    && (forall j :: 0 <= j < |played| - 1 ==>
          played[j].done + Quiet(played[j].start, played[j].done) <= played[j + 1].start)
  }

  /** What holds at time `t`: the window after the last sound is known, and a
      request waits only if that window was already over. */
  predicate Timed(b: Broker, t: nat) {
    && Spaced(b.played)
    && (b.started <==> b.played != [])
    && (b.started ==>
          var last := b.played[|b.played| - 1];
          last.done <= t && b.freeAt == last.done + Quiet(last.start, last.done) && (b.pend.Some? ==> b.freeAt <= t))
  }

  function Now(e: Event): nat { if e.Asked? then e.now else e.done }

  lemma StepTimed(b: Broker, e: Event, t: nat)
    requires Timed(b, t) && Monotone([e], t)
    ensures Timed(Step(b, e), Now(e))
  {
    hide Quiet;
    if b.started {
      QuietBound(b.played[|b.played| - 1]);
    }
  }

  lemma QuietBound(s: Sound)
    ensures Quiet(s.start, s.done) <= QUIET_MAX
  {
  }

  lemma {:induction false} RunTimed(b: Broker, es: seq<Event>, t: nat) returns (u: nat)
    requires Timed(b, t) && Monotone(es, t)
    ensures Timed(Run(b, es), u)
    decreases |es|
  {
    hide Timed, Step;
    u := t;
    if es != [] {
      assert Monotone([es[0]], t);
      StepTimed(b, es[0], t);
      u := RunTimed(Step(b, es[0]), es[1..], Now(es[0]));
    }
  }

  function Busy(played: seq<Sound>, i: nat, k: nat): int
    requires i + k <= |played|
    decreases k
  {
    if k == 0 then 0 else played[i].done - played[i].start + Busy(played, i + 1, k - 1)
  }

  /** Each of the `k` sounds from the i'th on blocks so briefly that its quiet
      time is not clipped. */
  predicate Brief(played: seq<Sound>, i: nat, k: nat)
    requires i + k <= |played|
  {
    forall j :: i <= j < i + k ==> played[j].done - played[j].start + GAP <= QUIET_MAX
  }

  /** Twice the time spent in `k` sounds and `k` gaps fits before the next start. */
  lemma {:induction false} DutyBound(played: seq<Sound>, i: nat, k: nat)
    requires Spaced(played) && i + k < |played| && Brief(played, i, k)
    ensures 2 * Busy(played, i, k) + k * GAP <= played[i + k].start - played[i].start
    decreases k
  {
    if k > 0 {
      DutyBound(played, i + 1, k - 1);
    }
  }

  const IDLE := Broker(None, 0, false, 0, [], [])

  function Played(es: seq<Event>): seq<Sound> { Run(IDLE, es).played }

  lemma PlayedSpaced(es: seq<Event>)
    requires Monotone(es, 0)
    ensures Spaced(Played(es))
  {
    hide Run;
    var u := RunTimed(IDLE, es, 0);
    assert Timed(Run(IDLE, es), u);
  }

  /** Over every history with a clock that never goes back, sounds that block
      briefly take less than half of the machine. */
  lemma UnderHalf(es: seq<Event>, i: nat, k: nat)
    requires Monotone(es, 0) && i + k < |Played(es)| && 1 <= k && Brief(Played(es), i, k)
    ensures var p := Played(es);
            2 * Busy(p, i, k) + k * GAP <= p[i + k].start - p[i].start
              && 2 * Busy(p, i, k) < p[i + k].start - p[i].start
  {
    PlayedSpaced(es);
    DutyBound(Played(es), i, k);
  }

  lemma {:induction false} ShortBound(played: seq<Sound>, i: nat, k: nat)
    requires Spaced(played) && i + k < |played|
    requires forall j :: i <= j < i + k ==> played[j].done - played[j].start < QUIET_MAX
    ensures 2 * Busy(played, i, k) + k <= played[i + k].start - played[i].start
    decreases k
  {
    if k > 0 {
      ShortBound(played, i + 1, k - 1);
    }
  }

  /** The same for any sounds that each block for less than four seconds. */
  lemma UnderHalfShort(es: seq<Event>, i: nat, k: nat)
    requires Monotone(es, 0) && i + k < |Played(es)| && 1 <= k
    requires forall j :: i <= j < i + k ==> Played(es)[j].done - Played(es)[j].start < QUIET_MAX
    ensures var p := Played(es); 2 * Busy(p, i, k) < p[i + k].start - p[i].start
  {
    PlayedSpaced(es);
    ShortBound(Played(es), i, k);
  }

  // ---- exactly when it is under half -----------------------------------------------------------

  /** How long the machine stays quiet after a sound that blocked for `b`. */
  function QuietFor(b: nat): nat { Quiet(0, b) }

  function Sum(bs: seq<nat>): nat { if bs == [] then 0 else bs[0] + Sum(bs[1..]) }

  function SumQuiet(bs: seq<nat>): nat { if bs == [] then 0 else QuietFor(bs[0]) + SumQuiet(bs[1..]) }

  /** The sounds from the i'th on blocked for `bs`. */
  predicate Blocked(played: seq<Sound>, i: nat, bs: seq<nat>) {
    i + |bs| <= |played| && forall j :: 0 <= j < |bs| ==> played[i + j].done == played[i + j].start + bs[j]
  }

  lemma {:induction false} SpanBound(played: seq<Sound>, i: nat, bs: seq<nat>)
    requires Spaced(played) && Blocked(played, i, bs) && i + |bs| < |played|
    ensures Busy(played, i, |bs|) == Sum(bs) && Sum(bs) + SumQuiet(bs) <= played[i + |bs|].start - played[i].start
    decreases |bs|
  {
    if bs != [] {
      assert played[i + 0].done == played[i].start + bs[0];
      forall j | 0 <= j < |bs[1..]|
        ensures played[i + 1 + j].done == played[i + 1 + j].start + bs[1..][j]
      {
        assert played[i + (1 + j)].done == played[i + (1 + j)].start + bs[1 + j];
      }
      SpanBound(played, i + 1, bs[1..]);
    }
  }

  /** Someone asks as soon as the broker accepts, and is served at once. */
  function Eager(bs: seq<nat>, t: nat): seq<Event> {
    if bs == [] then []
    else [Asked(0, true, t), Served(t, t + bs[0], true)] + Eager(bs[1..], t + bs[0] + QuietFor(bs[0]))
  }

  function EagerSounds(bs: seq<nat>, t: nat, id: nat): (r: seq<Sound>)
    ensures |r| == |bs|
  {
    if bs == [] then [] else [Sound(id, t, t + bs[0])] + EagerSounds(bs[1..], t + bs[0] + QuietFor(bs[0]), id + 1)
  }

  lemma {:induction false} EagerRuns(b: Broker, bs: seq<nat>, t: nat)
    requires b.pend.None? && (b.started ==> b.freeAt <= t)
    ensures Run(b, Eager(bs, t)).played == b.played + EagerSounds(bs, t, b.ids) && Monotone(Eager(bs, t), t)
    decreases |bs|
  {
    if bs != [] {
      var a, s := Asked(0, true, t), Served(t, t + bs[0], true);
      var u := t + bs[0] + QuietFor(bs[0]);
      var rest := Eager(bs[1..], u);
      var es := Eager(bs, t);
      assert es[0] == a && es[1..][0] == s && es[1..][1..] == rest && es[1..] == [s] + rest;
      var b1 := Step(b, a);
      var b2 := Step(b1, s);
      assert Run(b, es) == Run(b1, es[1..]) == Run(b2, rest);
      EagerRuns(b2, bs[1..], u);
      assert b2.played == b.played + [Sound(b.ids, t, t + bs[0])];
      MonotoneFrom(rest, t + bs[0], u);
      assert Monotone(es[1..], t);
    } else {
      assert Eager(bs, t) == [];
    }
  }

  lemma MonotoneFrom(es: seq<Event>, t: nat, u: nat)
    requires Monotone(es, u) && t <= u
    ensures Monotone(es, t)
  {
  }

  lemma {:induction false} EagerSpan(bs: seq<nat>, last: nat, t: nat, id: nat)
    ensures var p := EagerSounds(bs + [last], t, id);
            Blocked(p, 0, bs) && Busy(p, 0, |bs|) == Sum(bs) && p[|bs|].start == t + Sum(bs) + SumQuiet(bs)
              && p[0].start == t
    decreases |bs|
  {
    var p := EagerSounds(bs + [last], t, id);
    if bs != [] {
      assert (bs + [last])[1..] == bs[1..] + [last] && (bs + [last])[0] == bs[0];
      var u := t + bs[0] + QuietFor(bs[0]);
      EagerSpan(bs[1..], last, u, id + 1);
      var q := EagerSounds(bs[1..] + [last], u, id + 1);
      assert p == [Sound(id, t, t + bs[0])] + q;
      forall j | 0 <= j < |bs|
        ensures p[0 + j].done == p[0 + j].start + bs[j]
      {
        if j > 0 {
          assert q[0 + (j - 1)].done == q[0 + (j - 1)].start + bs[1..][j - 1];
        }
      }
      BusyShift(p, q, 1, 0, |bs| - 1);
    } else {
      assert (bs + [last])[0] == last;
    }
  }

  lemma {:induction false} BusyShift(p: seq<Sound>, q: seq<Sound>, i: nat, j: nat, k: nat)
    requires i + k <= |p| && j + k <= |q| && p[i..i + k] == q[j..j + k]
    ensures Busy(p, i, k) == Busy(q, j, k)
    decreases k
  {
    if k > 0 {
      assert p[i] == p[i..i + k][0] && q[j] == q[j..j + k][0];
      assert p[i + 1..i + k] == p[i..i + k][1..] && q[j + 1..j + k] == q[j..j + k][1..];
      BusyShift(p, q, i + 1, j + 1, k - 1);
    }
  }

  /** Sounds that block for `bs` stay under half of the machine in this history. */
  predicate Half(es: seq<Event>, bs: seq<nat>) {
    var p := Played(es);
    |bs| < |p| && 2 * Busy(p, 0, |bs|) < p[|bs|].start - p[0].start
  }

  /** Whoever asks and whenever, with a clock that never goes back: sounds that block
      for `bs` stay under half of the machine in every history exactly when the quiet
      times after them add up to more than they do. */
  lemma HalfIff(bs: seq<nat>)
    ensures (forall es :: Monotone(es, 0) && |bs| < |Played(es)| && Blocked(Played(es), 0, bs) ==> Half(es, bs)) <==>
            Sum(bs) < SumQuiet(bs)
  {
    hide Monotone, Blocked, Sum, SumQuiet, Eager, EagerSounds, Run, Busy, Spaced;
    if Sum(bs) < SumQuiet(bs) {
      forall es | Monotone(es, 0) && |bs| < |Played(es)| && Blocked(Played(es), 0, bs)
        ensures Half(es, bs)
      {
        PlayedSpaced(es);
        SpanBound(Played(es), 0, bs);
      }
    } else {
      var es := Eager(bs + [0], 0);
      EagerRuns(IDLE, bs + [0], 0);
      EagerSpan(bs, 0, 0, 0);
      assert IDLE.played + EagerSounds(bs + [0], 0, 0) == EagerSounds(bs + [0], 0, 0);
      assert !Half(es, bs);
    }
  }

  /** Four seconds is the limit for each of them: below it the quiet time is longer
      than the sound, from there on it is not. */
  lemma {:induction false} ShortSounds(bs: seq<nat>)
    ensures bs != [] && (forall j :: 0 <= j < |bs| ==> bs[j] < QUIET_MAX) ==> Sum(bs) < SumQuiet(bs)
    ensures (forall j :: 0 <= j < |bs| ==> bs[j] >= QUIET_MAX) ==> Sum(bs) >= SumQuiet(bs)
  {
    if bs != [] {
      ShortSounds(bs[1..]);
    }
  }

  /** A slow sink: ten seconds of sound, four of quiet, again and again. */
  lemma SlowSinkOverHalf()
    ensures var es := [Asked(0, true, 0), Served(0, 10000, true), Asked(0, true, 14000), Served(14000, 24000, true)];
            var p := Played(es);
            Monotone(es, 0) && p == [Sound(0, 0, 10000), Sound(1, 14000, 24000)] && 2 * (10000 - 0) > 14000 - 0
  {
    var b0 := IDLE;
    var a1, s1, a2, s2 := Asked(0, true, 0), Served(0, 10000, true), Asked(0, true, 14000), Served(14000, 24000, true);
    var es := [a1, s1, a2, s2];
    assert es[1..] == [s1, a2, s2] && [s1, a2, s2][1..] == [a2, s2] && [a2, s2][1..] == [s2];
    var b1 := Step(b0, a1);
    var b2 := Step(b1, s1);
    var b3 := Step(b2, a2);
    assert Run(b3, [s2]) == Run(Step(b3, s2), []);
    assert Run(b0, es) == Run(b1, [s1, a2, s2]) == Run(b2, [a2, s2]) == Run(b3, [s2]);
    assert Monotone([s2], 14000) && Monotone([a2, s2], 10000) && Monotone([s1, a2, s2], 0);
  }

  // ---- the rotation ------------------------------------------------------------------------------

  /** The broker and where the next pass starts, among `n` open apps. */
  datatype Ring = Ring(b: Broker, cursor: nat)

  /** The k'th app of a pass that starts at `start`. */
  function Spot(start: nat, k: nat, n: nat): (pos: nat)
    requires start < n
    ensures pos < n
  {
    (start + k) % n
  }

  /** One pass from its k'th app on; `asks` says which apps ask for a sound that
      is valid, all at the one reading `now`. */
  function PassFrom(r: Ring, asks: seq<bool>, start: nat, k: nat, now: nat): Ring
    requires k <= |asks| && start < |asks|
    decreases |asks| - k
  {
    if k == |asks| then r
    else
      var pos := Spot(start, k, |asks|);
      var b := if asks[pos] then Ask(r.b, pos, true, now) else r.b;
      var cursor := if r.b.pend.None? && b.pend.Some? then pos + 1 else r.cursor;
      PassFrom(Ring(b, cursor), asks, start, k + 1, now)
  }

  function Pass(r: Ring, asks: seq<bool>, now: nat): Ring {
    if |asks| == 0 then r else PassFrom(r, asks, r.cursor % |asks|, 0, now)
  }

  /** How many apps are ahead of `a` in the next pass. */
  function Ahead(cursor: nat, a: nat, n: nat): nat
    requires a < n
  {
    var start := cursor % n;
    if a >= start then a - start else a + n - start
  }

  lemma AheadIs(cursor: nat, k: nat, n: nat)
    requires k < n
    ensures Ahead(cursor, Spot(cursor % n, k, n), n) == k
  {
    Wrap(cursor % n + k, n);
  }

  lemma SpotIs(cursor: nat, a: nat, n: nat)
    requires a < n
    ensures Ahead(cursor, a, n) < n && Spot(cursor % n, Ahead(cursor, a, n), n) == a
  {
    Wrap(cursor % n + Ahead(cursor, a, n), n);
  }

  lemma Wrap(x: nat, n: nat)
    requires 0 < n && x < 2 * n
    ensures x % n == if x < n then x else x - n
  {
    if x < n {
      SmallMod(x, n);
    } else {
      SmallMod(x - n, n);
      assert x % n == (x - n) % n by { ModSub(x, n); }
    }
  }

  lemma SmallMod(x: nat, n: nat)
    requires x < n
    ensures x % n == x
  {
  }

  lemma ModSub(x: nat, n: nat)
    requires 0 < n <= x
    ensures x % n == (x - n) % n
  {
    var q, m := (x - n) / n, (x - n) % n;
    assert x - n == q * n + m;
    assert x == (q + 1) * n + m by { assert (q + 1) * n == q * n + n; }
    Remainder(x, n, q + 1, m);
  }

  lemma Remainder(x: nat, n: nat, q: nat, m: nat)
    requires 0 < n && x == q * n + m && m < n
    ensures x % n == m
  {
    var q2, m2 := x / n, x % n;
    assert q2 * n + m2 == q * n + m;
    MulStep(q2, q, n);
    MulStep(q, q2, n);
  }

  lemma MulStep(a: nat, b: nat, n: nat)
    ensures a < b ==> b * n >= a * n + n
  {
    if a < b {
      assert b * n == (a + 1) * n + (b - a - 1) * n;
      assert (a + 1) * n == a * n + n;
    }
  }

  /** Once the slot is taken the rest of the pass changes nothing. */
  lemma {:induction false} TakenStays(r: Ring, asks: seq<bool>, start: nat, k: nat, now: nat)
    requires k <= |asks| && start < |asks| && (r.b.pend.Some? || TooSoon(r.b, now))
    ensures PassFrom(r, asks, start, k, now) == r
    decreases |asks| - k
  {
    if k < |asks| {
      TakenStays(r, asks, start, k + 1, now);
    }
  }

  /** The slot goes to the first asker in the order of the pass. */
  lemma {:induction false} FirstAsker(r: Ring, asks: seq<bool>, start: nat, k: nat, now: nat,
                                      some: nat) returns (w: nat)
    requires k <= some < |asks| && start < |asks| && r.b.pend.None? && !TooSoon(r.b, now)
    requires asks[Spot(start, some, |asks|)]
    ensures k <= w <= some && asks[Spot(start, w, |asks|)] && forall j :: k <= j < w ==> !asks[Spot(start, j, |asks|)]
    ensures var pos := Spot(start, w, |asks|);
            PassFrom(r, asks, start, k, now) == Ring(Ask(r.b, pos, true, now), pos + 1)
    decreases |asks| - k
  {
    hide Spot, TooSoon;
    var pos := Spot(start, k, |asks|);
    if asks[pos] {
      w := k;
      TakenStays(Ring(Ask(r.b, pos, true, now), pos + 1), asks, start, k + 1, now);
    } else {
      w := FirstAsker(r, asks, start, k + 1, now, some);
    }
  }

  /** A pass with the slot free, the window open and app `a` asking grants it to
      `a`, or to an app ahead of `a`, which then goes behind it. */
  lemma PassGrants(r: Ring, asks: seq<bool>, now: nat, a: nat) returns (g: nat)
    requires a < |asks| && asks[a] && r.b.pend.None? && !TooSoon(r.b, now)
    ensures g < |asks| && asks[g] && Pass(r, asks, now) == Ring(Ask(r.b, g, true, now), g + 1)
    ensures Ahead(r.cursor, g, |asks|) <= Ahead(r.cursor, a, |asks|)
  {
    hide PassFrom, Spot, Ahead;
    var n, start := |asks|, r.cursor % |asks|;
    SpotIs(r.cursor, a, n);
    var w := FirstAsker(r, asks, start, 0, now, Ahead(r.cursor, a, n));
    g := Spot(start, w, n);
    AheadIs(r.cursor, w, n);
  }

  /** After a grant to `g`, an app that was behind it moves up past it, and one
      that was ahead of it or is it moves behind everyone. */
  lemma GrantMoves(cursor: nat, g: nat, a: nat, n: nat)
    requires g < n && a < n
    ensures Ahead(cursor, a, n) < n && Ahead(g + 1, g, n) == n - 1
    ensures Ahead(cursor, g, n) < Ahead(cursor, a, n) ==>
              Ahead(g + 1, a, n) == Ahead(cursor, a, n) - Ahead(cursor, g, n) - 1
  {
    Wrap(g + 1, n);
  }

  // ---- fairness over many passes ---------------------------------------------------------------------

  /** A pass of the ticks: the broker it finds, who asks, and the reading. What
      happens to the broker between passes is left open. */
  datatype Turn = Turn(b: Broker, asks: seq<bool>, now: nat)

  predicate Free(t: Turn) { t.b.pend.None? && !TooSoon(t.b, t.now) }

  /** The app a pass grants the slot to. */
  function Winner(c: nat, t: Turn): Option<nat> {
    var after := Pass(Ring(t.b, c), t.asks, t.now).b.pend;
    if t.b.pend.None? && after.Some? then Some(after.value.app) else None
  }

  function Granted(c: nat, ts: seq<Turn>): seq<nat>
    decreases |ts|
  {
    if ts == [] then []
    else
      var w := Winner(c, ts[0]);
      (if w.Some? then [w.value] else []) + Granted(Pass(Ring(ts[0].b, c), ts[0].asks, ts[0].now).cursor, ts[1..])
  }

  /** `n` apps in every pass, and `a` asks whenever the slot could be granted. */
  predicate Insists(ts: seq<Turn>, a: nat, n: nat) {
    forall i :: 0 <= i < |ts| ==> |ts[i].asks| == n && (Free(ts[i]) ==> a < n && ts[i].asks[a])
  }

  /** A pass grants nothing and keeps the cursor, or grants to someone not behind `a`. */
  lemma TurnGrants(c: nat, t: Turn, a: nat, n: nat)
    requires a < n && |t.asks| == n && (Free(t) ==> t.asks[a])
    ensures var w, next := Winner(c, t), Pass(Ring(t.b, c), t.asks, t.now).cursor;
            && (w.None? ==> next == c)
            && (w.Some? ==> w.value < n && next == w.value + 1 && Ahead(c, w.value, n) <= Ahead(c, a, n))
  {
    hide PassFrom, Ahead;
    if Free(t) {
      var g := PassGrants(Ring(t.b, c), t.asks, t.now, a);
    } else {
      TakenStays(Ring(t.b, c), t.asks, c % n, 0, t.now);
    }
  }

  lemma AheadOne(c: nat, a: nat, g: nat, n: nat)
    requires a < n && g < n && Ahead(c, g, n) <= Ahead(c, a, n) && g != a
    ensures Ahead(c, g, n) < Ahead(c, a, n)
  {
  }

  /** The app that keeps asking is granted within as many grants as there were
      apps ahead of it, and one more; there are fewer ahead than there are apps. */
  lemma {:induction false} GrantedWithin(c: nat, ts: seq<Turn>, a: nat, n: nat)
    requires a < n && Insists(ts, a, n) && |Granted(c, ts)| > Ahead(c, a, n)
    ensures a in Granted(c, ts)[..Ahead(c, a, n) + 1] && Ahead(c, a, n) + 1 <= n
    decreases |ts|
  {
    hide Pass, Winner, Ahead, Free;
    var w, next := Winner(c, ts[0]), Pass(Ring(ts[0].b, c), ts[0].asks, ts[0].now).cursor;
    var more := Granted(next, ts[1..]);
    TurnGrants(c, ts[0], a, n);
    GrantMoves(c, a, a, n);
    if w.None? {
      assert Granted(c, ts) == more;
      GrantedWithin(c, ts[1..], a, n);
    } else {
      assert Granted(c, ts) == [w.value] + more;
      var k := Ahead(c, a, n) + 1;
      if w.value == a {
        EarlyOn(w.value, more, 0, k, a);
      } else {
        AheadOne(c, a, w.value, n);
        GrantMoves(c, w.value, a, n);
        GrantedWithin(next, ts[1..], a, n);
        EarlyOn(w.value, more, Ahead(next, a, n) + 1, k, a);
      }
    }
  }

  lemma EarlyOn(x: nat, more: seq<nat>, j: nat, k: nat, a: nat)
    requires j < k <= |more| + 1 && (a == x || a in more[..j])
    ensures a in ([x] + more)[..k]
  {
    var all := ([x] + more)[..k];
    assert all[0] == x;
    if a != x {
      var i :| 0 <= i < j && more[..j][i] == a;
      assert all[i + 1] == a;
    }
  }

  /** Whoever is behind `a` is not granted before it. */
  lemma {:induction false} BehindWaits(c: nat, ts: seq<Turn>, a: nat, b: nat, j: nat, n: nat)
    requires a < n && b < n && Insists(ts, a, n) && Ahead(c, a, n) < Ahead(c, b, n)
    requires j < |Granted(c, ts)| && a !in Granted(c, ts)[..j]
    ensures Granted(c, ts)[j] != b
    decreases |ts|
  {
    hide Pass, Winner, Ahead, Free;
    var w, next := Winner(c, ts[0]), Pass(Ring(ts[0].b, c), ts[0].asks, ts[0].now).cursor;
    var more := Granted(next, ts[1..]);
    TurnGrants(c, ts[0], a, n);
    if w.None? {
      assert Granted(c, ts) == more;
      BehindWaits(c, ts[1..], a, b, j, n);
    } else {
      var all := [w.value] + more;
      assert Granted(c, ts) == all;
      if j > 0 {
        assert all[..j][0] == w.value && forall x :: x in more[..j - 1] ==>
          x in all[..j] by { Prefixes(w.value, more, j); }
        AheadOne(c, a, w.value, n);
        GrantMoves(c, w.value, a, n);
        GrantMoves(c, w.value, b, n);
        BehindWaits(next, ts[1..], a, b, j - 1, n);
      }
    }
  }

  lemma Prefixes(x: nat, more: seq<nat>, j: nat)
    requires 0 < j <= |more| + 1
    ensures var all := [x] + more; all[..j][0] == x && all[..j] == [x] + more[..j - 1]
  {
  }

  /** No app is granted twice before the one that keeps asking. */
  lemma {:induction false} NoneTwice(c: nat, ts: seq<Turn>, a: nat, i: nat, j: nat, n: nat)
    requires a < n && Insists(ts, a, n) && i < j < |Granted(c, ts)| && a !in Granted(c, ts)[..j]
    ensures Granted(c, ts)[i] != Granted(c, ts)[j]
    decreases |ts|
  {
    hide Pass, Winner, Ahead, Free;
    var w, next := Winner(c, ts[0]), Pass(Ring(ts[0].b, c), ts[0].asks, ts[0].now).cursor;
    var more := Granted(next, ts[1..]);
    TurnGrants(c, ts[0], a, n);
    if w.None? {
      assert Granted(c, ts) == more;
      NoneTwice(c, ts[1..], a, i, j, n);
    } else {
      var all := [w.value] + more;
      assert Granted(c, ts) == all;
      Prefixes(w.value, more, j);
      assert a != w.value && a !in more[..j - 1];
      if i > 0 {
        NoneTwice(next, ts[1..], a, i - 1, j - 1, n);
      } else {
        AheadOne(c, a, w.value, n);
        GrantMoves(c, w.value, a, n);
        GrantMoves(c, w.value, w.value, n);
        BehindWaits(next, ts[1..], a, w.value, j - 1, n);
      }
    }
  }

  // ---- in place ------------------------------------------------------------------------------------------

  /** The pool slots in use, in order. */
  function UsedFrom(used: seq<bool>, i: nat): (r: seq<nat>)
    requires i <= |used|
    ensures forall j :: 0 <= j < |r| ==> r[j] < |used|
    decreases |used| - i
  {
    if i == |used| then [] else (if used[i] then [i] else []) + UsedFrom(used, i + 1)
  }

  lemma UsedStep(used: seq<bool>, i: nat)
    requires i < |used|
    ensures UsedFrom(used, i) == if used[i] then [i] + UsedFrom(used, i + 1) else UsedFrom(used, i + 1)
  {
  }

  lemma UsedEnd(used: seq<bool>)
    ensures UsedFrom(used, |used|) == []
  {
  }

  /** Who asks, listed by position among the apps in use. */
  function AsksOf(idx: seq<nat>, asks: seq<bool>): (r: seq<bool>)
    requires forall j :: 0 <= j < |idx| ==> idx[j] < |asks|
    ensures |r| == |idx|
  {
    seq(|idx|, j requires 0 <= j < |idx| => asks[idx[j]])
  }

  class Machine {
    var pend: Option<Req>
    var freeAt: nat
    var started: bool
    var ids: nat
    var cursor: nat
    ghost var played: seq<Sound>
    ghost var dropped: seq<nat>

    ghost function Abs(): Broker
      reads this
    {
      Broker(pend, freeAt, started, ids, played, dropped)
    }

    constructor ()
      ensures Abs() == Broker(None, 0, false, 0, [], []) && cursor == 0
    {
      pend, freeAt, started, ids, cursor, played, dropped := None, 0, false, 0, 0, [], [];
    }

    method Request(app: nat, valid: bool, now: nat) returns (ok: bool)
      modifies this`pend, this`ids
      ensures Abs() == Ask(old(Abs()), app, valid, now) && ok == Accepts(old(Abs()), valid, now)
    {
      if !valid || pend.Some? {
        return false;
      }
      if started && now < freeAt && freeAt - now <= QUIET_MAX {
        return false;
      }
      pend := Some(Req(ids, app));
      ids := ids + 1;
      return true;
    }

    /** `now` and `done` are the clock before and after the sound. */
    method Service(now: nat, done: nat, open: bool)
      modifies this
      ensures Abs() == Serve(old(Abs()), now, done, open) && cursor == old(cursor)
    {
      if pend.None? {
        return;
      }
      var id := pend.value.id;
      pend := None;
      if !open {
        dropped := dropped + [id];
        return;
      }
      var block := if done >= now then done - now else 0;
      if block > QUIET_MAX {
        block := QUIET_MAX;
      }
      var quiet := block + GAP;
      if quiet > QUIET_MAX {
        quiet := QUIET_MAX;
      }
      freeAt, started := done + quiet, true;
      played := played + [Sound(id, now, done)];
    }

    method InUse(used: seq<bool>) returns (idx: seq<nat>)
      ensures idx == UsedFrom(used, 0)
    {
      hide UsedFrom;
      idx := [];
      var i := 0;
      while i < |used|
        invariant 0 <= i <= |used| && idx + UsedFrom(used, i) == UsedFrom(used, 0)
      {
        ghost var rest := UsedFrom(used, i + 1);
        UsedStep(used, i);
        if used[i] {
          assert idx + ([i] + rest) == idx + [i] + rest;
          idx := idx + [i];
        }
        i := i + 1;
      }
      UsedEnd(used);
    }

    /** One pass over the apps in use, starting behind whoever was granted last. */
    method RunTicks(used: seq<bool>, asks: seq<bool>, now: nat)
      requires |used| == |asks|
      modifies this`pend, this`ids, this`cursor
      ensures Ring(Abs(), cursor) == Pass(old(Ring(Abs(), cursor)), AsksOf(UsedFrom(used, 0), asks), now)
    {
      hide Ask, Spot, UsedFrom;
      var idx := InUse(used);
      if |idx| == 0 {
        return;
      }
      ghost var wants := AsksOf(idx, asks);
      var start := cursor % |idx|;
      var k := 0;
      while k < |idx|
        invariant 0 <= k <= |idx|
        invariant PassFrom(old(Ring(Abs(), cursor)), wants, start, 0, now) == PassFrom(Ring(Abs(), cursor), wants,
                  start, k, now)
      {
        var pos := Spot(start, k, |idx|);
        var had := pend.Some?;
        if asks[idx[pos]] {
          var ok := Request(pos, true, now);
        }
        if !had && pend.Some? {
          cursor := pos + 1;
        }
        k := k + 1;
      }
    }
  }
}
