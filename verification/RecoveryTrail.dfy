/** The reconcile events a journal ends with, and when the attempt parser can read them.

  Recovery writes a report for each provider it reconciles. Whatever throws or crashes in
  between, what it leaves can be read unless it shows one of two signs: the reports begin
  with another provider than the registry's first, or one provider other than the first is
  reported twice in a row, passed and then failed, because writing the first report threw.
*/
module RecoveryTrail {
  import opened RecoveryEvents
  import opened RecoveryNormaliser

  function Trail(events: Events): Events { events[TrailingStart(events)..] }

  lemma TrailPush(events: Events, e: Event)
    ensures Trail(events + [e]) == if e.stage == Reconcile then Trail(events) + [e] else []
  {
    assert (events + [e])[..|events|] == events;
    assert (events + [e])[TrailingStart(events)..] == events[TrailingStart(events)..] + [e];
  }

  lemma {:induction false} TrailAppend(events: Events, xs: Events)
    requires AllReconcile(xs)
    ensures Trail(events + xs) == Trail(events) + xs
    decreases |xs|
  {
    hide Trail;
    if xs == [] {
      assert events + xs == events;
    } else {
      var front, e := xs[..|xs| - 1], xs[|xs| - 1];
      TrailAppend(events, front);
      TrailPush(events + front, e);
      assert events + xs == (events + front) + [e] && xs == front + [e];
    }
  }

  // ---- The two signs ----

  /** The reports at `i - 1` and `i` are on one provider, and not the first. */
  predicate Repeats(p: seq<Provider>, trail: Events, i: nat)
    requires p != [] && i < |trail|
  {
    i > 0 && trail[i - 1].provider == trail[i].provider && trail[i].provider != p[0]
  }

  predicate Doubled(p: seq<Provider>, trail: Events)
    requires p != []
  {
    exists i: nat | i < |trail| :: Repeats(p, trail, i)
  }

  predicate StartsFirst(p: seq<Provider>, trail: Events)
    requires p != []
  {
    trail != [] ==> trail[0].provider == p[0]
  }

  predicate Tidy(p: seq<Provider>, trail: Events)
    requires p != []
  {
    StartsFirst(p, trail) && !Doubled(p, trail)
  }

  lemma TidyFront(p: seq<Provider>, trail: Events, xs: Events)
    requires p != [] && Tidy(p, trail + xs)
    ensures Tidy(p, trail)
  {
    if i: nat :| i < |trail| && Repeats(p, trail, i) { assert Repeats(p, trail + xs, i); }
  }

  /** An accepted report is on the provider that the attempt has come to. */
  lemma LastStep(p: seq<Provider>, trail: Events)
    requires p != [] && trail != [] && Parse(p, trail).Some?
    ensures var s, e := Parse(p, trail).value, trail[|trail| - 1];
      s.attempt == [] || e.provider == p[|s.attempt| - 1]
  {
  }

  /** Whatever the parser accepts is tidy. */
  lemma {:induction false} ParsedIsTidy(p: seq<Provider>, trail: Events)
    requires p != [] && Distinct(p) && Parse(p, trail).Some?
    ensures Tidy(p, trail)
    decreases |trail|
  {
    if trail != [] {
      var front, e := trail[..|trail| - 1], trail[|trail| - 1];
      ParsedIsTidy(p, front);
      if front != [] { LastStep(p, front); }
      hide Parse;
      forall i: nat | i < |trail| ensures !Repeats(p, trail, i) {
        if i < |front| {
          assert !Repeats(p, front, i);
        } else if front != [] && e.provider != p[0] {
          NotTwice(p, Parse(p, front).value, front[|front| - 1], e);
        }
      }
    }
  }

  lemma NotTwice(p: seq<Provider>, s: Parsing, d: Event, e: Event)
    requires p != [] && Distinct(p) && |s.attempt| < |p| && (s.attempt == [] || d.provider == p[|s.attempt| - 1])
    requires Step(p, s, e).Some? && e.provider != p[0]
    ensures s.attempt != [] && d.provider != e.provider
  {
  }

  // ---- Reports as they are written ----

  /** Tidy reports can be read. */
  predicate Known(p: seq<Provider>, trail: Events)
    requires p != []
  {
    Tidy(p, trail) ==> Parse(p, trail).Some?
  }

  /** As far as they are tidy, the reports can be read and end with `i` passed ones of an attempt under way. */
  predicate Pending(p: seq<Provider>, trail: Events, i: nat)
    requires 0 < i <= |p|
  {
    && trail != [] && trail[|trail| - 1].provider == p[i - 1]
    && (Tidy(p, trail) ==> Parse(p, trail).Some? && |Parse(p, trail).value.attempt| == if i < |p| then i else 0)
  }

  /** Before the report on provider `i`. */
  predicate Before(p: seq<Provider>, trail: Events, i: nat)
    requires p != [] && i <= |p|
  {
    if i == 0 then Known(p, trail) else Pending(p, trail, i)
  }

  predicate On(p: seq<Provider>, i: nat, e: Event, status: Status)
    requires i < |p|
  {
    Reconciles(e, p[i]) && e.status == status
  }

  lemma ParsePush(p: seq<Provider>, trail: Events, e: Event)
    requires p != []
    ensures Parse(p, trail + [e]) == if Parse(p, trail).None? then None else Step(p, Parse(p, trail).value, e)
  {
    assert (trail + [e])[..|trail|] == trail;
  }

  lemma GoesOn(p: seq<Provider>, trail: Events, i: nat, e: Event)
    requires p != [] && Distinct(p) && i < |p| && Before(p, trail, i) && On(p, i, e, Passed)
    ensures Before(p, trail + [e], i + 1)
  {
    hide Doubled, Parse;
    ParsePush(p, trail, e);
    if Tidy(p, trail + [e]) { TidyFront(p, trail, [e]); }
  }

  lemma Breaks(p: seq<Provider>, trail: Events, i: nat, e: Event)
    requires p != [] && Distinct(p) && i < |p| && Before(p, trail, i) && On(p, i, e, Failed)
    ensures Known(p, trail + [e])
  {
    hide Doubled, Parse;
    ParsePush(p, trail, e);
    if Tidy(p, trail + [e]) { TidyFront(p, trail, [e]); }
  }

  /** A passed report that could not be written is followed by a failed one of the same provider. */
  lemma Twice(p: seq<Provider>, trail: Events, i: nat, e: Event)
    requires p != [] && Distinct(p) && i < |p| && Before(p, trail, i + 1) && On(p, i, e, Failed)
    ensures Known(p, trail + [e])
  {
    if i > 0 {
      assert p[i] != p[0];
      assert Repeats(p, trail + [e], |trail|);
    } else {
      hide Doubled, Parse;
      ParsePush(p, trail, e);
      if Tidy(p, trail + [e]) { TidyFront(p, trail, [e]); }
    }
  }

  /** A whole attempt can follow anything that can be read. */
  lemma WholeFollows(p: seq<Provider>, trail: Events, xs: Events)
    requires p != [] && Distinct(p) && Known(p, trail) && Whole(p, xs)
    ensures Known(p, trail + xs)
    ensures Parse(p, trail).Some? ==> Parse(p, trail + xs).Some? && Parse(p, trail + xs).value.lastComplete
  {
    hide Doubled, Whole, Parse;
    WholeLength(p, xs);
    if Parse(p, trail).Some? {
      var h := ParsedIsHistory(p, trail);
      HistoryParses(p, h);
      AttemptParses(p, h, xs);
      AfterPush(p, h, xs);
    } else if Tidy(p, trail + xs) {
      TidyFront(p, trail, xs);
    }
  }

  // ---- A doubled report ----

  /** Reports that begin with the first provider and go twice in a row to another are untidy, whatever follows. */
  lemma DoubledUntidy(p: seq<Provider>, front: Events, xs: Events, i: nat)
    requires Trail(front) == [] && AllReconcile(xs) && Distinct(p) && 0 < i < |p| && i + 1 < |xs|
    requires xs[0].provider == p[0] && xs[i].provider == xs[i + 1].provider == p[i]
    ensures StartsFirst(p, Trail(front + xs)) && !Tidy(p, Trail(front + xs))
  {
    hide Trail;
    TrailAppend(front, xs);
    assert Trail(front + xs) == xs;
    assert p[0] != p[i];
    assert Repeats(p, xs, i + 1);
  }
}
