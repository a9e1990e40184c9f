// What the sound broker answers: when a request is taken, what a served one does to
// the next, and that nothing mutes the apps for long.

module CapLaws {
  import opened Basics
  import opened Cap

  /** A request of `app` with good arguments is taken at `t`. */
  predicate Taken(b: Broker, app: nat, t: nat) { Ask(b, app, true, t).pend == Some(Req(b.ids, app)) }

  /** Taken or not, nothing but the slot and the numbering changes; bad
      arguments or a full slot leave all as it was, and before any sound there is no wait. */
  lemma AskDoes(b: Broker, app: nat, valid: bool, now: nat)
    ensures var r := Ask(b, app, valid, now);
            && (r == b || (r.pend == Some(Req(b.ids, app)) && r.ids == b.ids + 1))
            && r == b.(pend := r.pend, ids := r.ids)
            && (!valid || b.pend.Some? ==> r == b)
            && (valid && b.pend.None? && !b.started ==> r != b)
  {
  }

  /** A request that waits and whose app is open is heard once, under its own number,
      and frees the slot. A sound of up to 3500 ms is followed by as much silence and
      500 ms more, counted from its end; a longer one by 4000 ms; one that the clock
      says ended before it began by 500 ms. Until then requests are refused, save at a
      reading more than 4000 ms before. */
  lemma ServeDoes(b: Broker, start: nat, done: nat, app: nat, t: nat)
    requires b.pend.Some?
    ensures var r := Serve(b, start, done, true);
            var quiet := if done <= start then 500 else if done - start <= 3500 then done - start + 500 else 4000;
            && r.pend.None? && r.ids == b.ids && r.dropped == b.dropped
            && r.played == b.played + [Sound(b.pend.value.id, start, done)]
            && (Taken(r, app, t) <==> t >= done + quiet || t + 4000 < done + quiet)
  {
  }

  /** One whose app has closed is dropped and costs the others nothing. */
  lemma ClosedDoes(b: Broker, start: nat, done: nat, app: nat, t: nat)
    requires b.pend.Some?
    ensures var r := Serve(b, start, done, false);
            && r.pend.None? && r.ids == b.ids && r.played == b.played && r.dropped == b.dropped + [b.pend.value.id]
            && (Taken(r, app, t) <==> Taken(b.(pend := None), app, t))
  {
  }

  /** Whatever the clock has shown, a refusal for time is over 4000 ms later. */
  lemma NeverMuted(b: Broker, app: nat, t: nat)
    requires b.pend.None? && !Taken(b, app, t)
    ensures forall u :: u >= t + 4000 ==> Taken(b, app, u)
  {
  }
}
