/** Resource providers around a Run's Candidate: preparing all of them or none, checking and planning them, and ending
  all of them however many fail, from resource-coordinator.ts. A provider is its contract: prepare makes it hold
  Candidate State, quarantine retains what it holds, and discard leaves nothing, each again and again with the same
  effect.

  Every call leaves a report in the Run's evidence, which is bounded: `airlock-runner.ts` begins a Promotion with what
  has been collected here.
*/
module ResourceCoordinators {
  import opened Faults
  import opened RecoveryEvents
  import opened RecoveryTrail
  import PromotionJournals

  const MAX_EVENTS: nat := PromotionJournals.MAX_EVENTS

  datatype Holding = Nothing | Held | Retained

  /** The providers of a scope that did not fail, in order. */
  function Without(scope: seq<Provider>, failed: set<Provider>): seq<Provider> {
    if scope == [] then []
    else
      var last := scope[|scope| - 1];
      Without(scope[..|scope| - 1], failed) + if last in failed then [] else [last]
  }

  /** `p` is the first provider of the scope that failed. */
  predicate FirstFailed(scope: seq<Provider>, failed: set<Provider>, p: Provider) {
    exists i | 0 <= i < |scope| :: scope[i] == p && p in failed && forall k | 0 <= k < i :: scope[k] !in failed
  }

  /** The first `n` of a scope hold `h`, whoever did not refuse; the others are as they were. */
  ghost predicate EndedUpTo(before: map<Provider, Holding>, now: map<Provider, Holding>, scope: seq<Provider>, n: nat,
                            refused: set<Provider>, h: Holding)
    requires n <= |scope|
  {
    && now.Keys == before.Keys
    && (forall i | 0 <= i < n :: scope[i] in now && (scope[i] !in refused ==> now[scope[i]] == h))
    && (forall i | 0 <= i < n && scope[i] in refused :: scope[i] in before && now[scope[i]] in {before[scope[i]], h})
    && (forall p | p in before && p !in scope[..n] :: now[p] == before[p])
  }

  // ---- What a Run has collected ----

  /** A description and a validation of each provider, in turn. */
  predicate Checks(p: seq<Provider>, xs: Events) {
    && |xs| == 2 * |p|
    && (forall i | 0 <= i < |p| :: PassedOn(p[i], Describe, xs[2 * i]) && PassedOn(p[i], Validate, xs[2 * i + 1]))
  }

  /** What `next` adds to `events`. */
  function Added(events: Events, next: Events): Events
    requires events <= next
  {
    next[|events|..]
  }

  /** A Candidate that passed its checks, as it is sealed. */
  predicate Checked(p: seq<Provider>, xs: Events) {
    |xs| == 3 * |p| && Pass(p, Prepare, xs[..|p|]) && Checks(p, xs[|p|..])
  }

  /** A Run is promoted at once, or it is sealed first and checked once more when it is. */
  datatype Route = Direct | Sealed

  /** The evidence with which `begin` is called. */
  predicate Collected(p: seq<Provider>, route: Route, xs: Events) {
    var n := |p|;
    match route
    case Direct => |xs| == 4 * n && Checked(p, xs[..3 * n]) && Pass(p, PlanPromotion, xs[3 * n..])
    case Sealed =>
      |xs| == 6 * n && Checked(p, xs[..3 * n]) && Checks(p, xs[3 * n..5 * n]) && Pass(p, PlanPromotion, xs[5 * n..])
  }

  predicate Quiet(xs: Events) { forall i | 0 <= i < |xs| :: xs[i].stage != Reconcile }

  lemma QuietTrail(xs: Events)
    requires Quiet(xs)
    ensures Trail(xs) == []
  {
  }

  class ResourceCoordinator {
    /** What each registered provider holds of this Run. */
    var holding: map<Provider, Holding>
    /** The Run's provider evidence. */
    var events: Events
    const registry: seq<Provider>

    /** `events` is what the Run's transaction holds already: nothing, or what it was sealed with. */
    constructor (registry: seq<Provider>, events: Events)
      requires Distinct(registry) && Quiet(events) && |events| <= MAX_EVENTS
      ensures this.registry == registry && this.events == events
      ensures Valid() && forall p | p in registry :: holding[p] == Nothing
    {
      this.registry, this.events := registry, events;
      holding := map p | p in registry :: Nothing;
    }

    ghost predicate Valid()
      reads this
    {
      Distinct(registry) && (forall p :: p in registry <==> p in holding) && Quiet(events) && |events| <= MAX_EVENTS
    }

    /** The recorder of a Run: bounded, and followed by a write of the Run's progress. */
    method Note(e: Event, calm: bool) returns (o: Outcome<()>)
      requires Valid() && e.stage != Reconcile
      modifies this`events
      ensures Valid() && events == if |old(events)| < MAX_EVENTS then old(events) + [e] else old(events)
      ensures o.Ok? ==> |old(events)| < MAX_EVENTS
      ensures calm && |old(events)| < MAX_EVENTS ==> o.Ok?
    {
      if |events| >= MAX_EVENTS {
        return Thrown;
      }
      events := events + [e];
      var fate := Next(calm);
      o := Ends(fate, ());
    }

    /** `invoke`: one call of a provider and its report. A passed report that cannot be taken fails the call. */
    method Invoke(p: Provider, stage: Stage, h: Holding, calm: bool) returns (o: Outcome<()>)
      requires Valid() && p in holding && stage != Reconcile
      modifies this`holding, this`events
      ensures Valid() && holding in {old(holding), old(holding)[p := h]}
      ensures o.Ok? ==> holding == old(holding)[p := h] && |events| == |old(events)| + 1
      ensures o.Ok? ==> events == old(events) + [events[|old(events)|]] && PassedOn(p, stage, events[|old(events)|])
      ensures calm && |old(events)| < MAX_EVENTS ==> o.Ok?
    {
      var fate := Next(calm);
      if fate.Acts() { holding := holding[p := h]; }
      o := Ends(fate, ());
      var detail: string := *;
      if o.Ok? {
        o := Note(Event(p, stage, Passed, true, detail), calm);
      }
      if o.Thrown? {
        var noted := Note(Event(p, stage, Failed, true, detail), calm);
        o := if noted.Crashed? then Crashed else Thrown;
      }
    }

    /** discardAll and quarantineAll: every provider of the scope is asked, whatever the others did; the first
      failure is thrown at the end, with the results of those that did not refuse. A provider whose result could not
      be recorded is among the results and counts as failed. */
    method EndAll(scope: seq<Provider>, stage: Stage, h: Holding, calm: bool)
      returns (o: Outcome<()>, results: seq<Provider>, firstFailure: Faults.Option<Provider>,
        ghost refused: set<Provider>,
               ghost failed: set<Provider>)
      requires Valid() && Distinct(scope) && stage != Reconcile && forall p | p in scope :: p in registry
      modifies this`holding, this`events
      ensures Valid()
      ensures o.Ok? ==> failed == {} && results == scope && EndedUpTo(old(holding), holding, scope, |scope|, {}, h)
      ensures o.Thrown? ==>
        results == Without(scope, refused) && EndedUpTo(old(holding), holding, scope, |scope|, refused, h)
      ensures o.Thrown? ==> refused <= failed && firstFailure.Some? && FirstFailed(scope, failed, firstFailure.value)
      ensures forall p | p in old(holding) && p !in scope :: p in holding && holding[p] == old(holding)[p]
      ensures calm && |old(events)| + |scope| <= MAX_EVENTS ==> o.Ok?
    {
      hide Without, FirstFailed, EndedUpTo, Quiet;
      results, firstFailure, refused, failed := [], Faults.None, {}, {};
      NothingEnded(holding, scope, h);
      for i := 0 to |scope|
        invariant Valid() && EndedUpTo(old(holding), holding, scope, i, refused, h)
        invariant results == Without(scope[..i], refused) && refused <= failed && forall p | p in failed ::
          p in scope[..i]
        invariant if firstFailure.None? then failed == {} else FirstFailed(scope[..i], failed, firstFailure.value)
        invariant calm && |old(events)| + |scope| <= MAX_EVENTS ==> firstFailure.None? && |events| == |old(events)| + i
        invariant forall p | p in old(holding) && p !in scope :: p in holding && holding[p] == old(holding)[p]
      {
        ghost var declined, was, before := refused, failed, holding;
        var p := scope[i];
        var step := Invoke(p, stage, h, calm);
        if step.Ok? {
          results := results + [p];
          step := Recorded(calm);
        } else {
          refused := refused + {p};
        }
        if step.Crashed? {
          return Crashed, results, firstFailure, refused, failed;
        }
        if step.Thrown? {
          failed := failed + {p};
          if firstFailure.None? { firstFailure := Faults.Some(p); }
        }
        assert scope[..i + 1] == scope[..i] + [p];
        Apart(scope, i);
        assert p !in was && p !in declined;
        EndedMore(old(holding), before, holding, scope, i, declined, refused, h);
        FirstMore(scope, i, was, failed);
        WithoutMore(scope, i, declined, refused);
      }
      assert scope[..|scope|] == scope;
      if firstFailure.Some? { return Thrown, results, firstFailure, refused, failed; }
      assert refused == {};
      NoneFailed(scope);
      o := Ok(());
    }

    /** prepareAll: every provider is prepared; or it throws, and when it says that it cleaned up no provider holds
      anything, not even one whose prepare acted and then failed. */
    method PrepareAll(calm: bool) returns (o: Outcome<()>, prepared: seq<Provider>, cleanupCompleted: bool)
      requires Valid() && forall p | p in registry :: holding[p] == Nothing
      modifies this`holding, this`events
      ensures Valid()
      ensures o.Ok? ==> prepared == registry && forall p | p in registry :: holding[p] == Held
      ensures o.Ok? ==> old(events) <= events && Pass(registry, Prepare, Added(old(events), events))
      ensures o.Thrown? && cleanupCompleted ==> forall p | p in registry :: holding[p] == Nothing
      ensures prepared <= registry
      ensures (o.Thrown? && !cleanupCompleted ==> UntouchedPast(registry, |prepared| + 1, holding))
      ensures calm && |old(events)| + |registry| <= MAX_EVENTS ==> o.Ok?
    {
      hide Distinct, UntouchedPast, Quiet, Pass;
      UntouchedAll(registry, holding);
      PassNone(registry, Prepare, events);
      prepared, cleanupCompleted := [], false;
      var attempted: seq<Provider> := [];
      var failure := false;
      for i := 0 to |registry|
        invariant Valid() && prepared == attempted == registry[..i] && !failure
        invariant (forall p | p in registry[..i] :: holding[p] == Held) && UntouchedPast(registry, i, holding)
        invariant old(events) <= events && |events| == |old(events)| + i
        invariant Pass(registry[..i], Prepare, Added(old(events), events))
      {
        var p := registry[i];
        assert registry[..i + 1] == registry[..i] + [p];
        attempted := attempted + [p];
        UntouchedNext(registry, i, holding, Held);
        ghost var before := events;
        var step := Invoke(p, Prepare, Held, calm);
        if step.Ok? {
          PassMore(registry, i, Prepare, old(events), before, events);
          prepared := prepared + [p];
          step := Recorded(calm);
        }
        if step.Crashed? { return Crashed, prepared, false; }
        if step.Thrown? {
          failure := true;
          break;
        }
      }
      if failure {
        cleanupCompleted := CleanUp(attempted, calm);
        UntouchedLess(registry, |attempted|, |prepared| + 1, holding);
        return Thrown, prepared, cleanupCompleted;
      }
      assert registry[..|registry|] == registry;
      o := Ok(());
    }

    /** Recording what came out of a call changes no provider. */
    method Recorded(calm: bool) returns (o: Outcome<()>)
      ensures calm ==> o.Ok?
    {
      var fate := Next(calm);
      o := Ends(fate, ());
    }

    /** discardPreparedAfterPrepareFailure over the providers attempted. */
    method CleanUp(attempted: seq<Provider>, calm: bool) returns (completed: bool)
      requires Valid() && attempted <= registry && UntouchedPast(registry, |attempted|, holding)
      modifies this`holding, this`events
      ensures Valid() && UntouchedPast(registry, |attempted|, holding)
      ensures completed ==> forall p | p in registry :: holding[p] == Nothing
    {
      assert Distinct(attempted);
      var o, results, first, refused, failed := EndAll(attempted, Discard, Nothing, calm);
      assert forall i | |attempted| <= i < |registry| :: registry[i] !in attempted;
      if o.Ok? { Cleared(registry, attempted, holding); }
      var fate := Next(calm);
      completed := o.Ok? && fate == Calm;
    }

    /** describeAndValidate: two calls a provider, which change nothing that it holds. */
    method DescribeAndValidate(calm: bool) returns (o: Outcome<()>)
      requires Valid()
      modifies this`holding, this`events
      ensures Valid() && holding == old(holding)
      ensures o.Ok? ==> old(events) <= events && Checks(registry, Added(old(events), events))
      ensures calm && |old(events)| + 2 * |registry| <= MAX_EVENTS ==> o.Ok?
    {
      hide Distinct, Quiet, Checks;
      ChecksNone(registry, events);
      for i := 0 to |registry|
        invariant Valid() && holding == old(holding) && old(events) <= events && |events| == |old(events)| + 2 * i
        invariant Checks(registry[..i], Added(old(events), events))
      {
        var p := registry[i];
        assert holding[p := holding[p]] == holding;
        ghost var before := events;
        o := Invoke(p, Describe, holding[p], calm);
        if !o.Ok? { return; }
        ghost var described := events;
        o := Invoke(p, Validate, holding[p], calm);
        if !o.Ok? { return; }
        ChecksMore(registry, i, old(events), before, described, events);
      }
      assert registry[..|registry|] == registry;
      o := Ok(());
    }

    /** planAll. */
    method PlanAll(calm: bool) returns (o: Outcome<()>)
      requires Valid()
      modifies this`holding, this`events
      ensures Valid() && holding == old(holding)
      ensures o.Ok? ==> old(events) <= events && Pass(registry, PlanPromotion, Added(old(events), events))
      ensures calm && |old(events)| + |registry| <= MAX_EVENTS ==> o.Ok?
    {
      hide Distinct, Quiet, Pass;
      PassNone(registry, PlanPromotion, events);
      for i := 0 to |registry|
        invariant Valid() && holding == old(holding) && old(events) <= events && |events| == |old(events)| + i
        invariant Pass(registry[..i], PlanPromotion, Added(old(events), events))
      {
        var p := registry[i];
        assert holding[p := holding[p]] == holding;
        ghost var before := events;
        o := Invoke(p, PlanPromotion, holding[p], calm);
        if !o.Ok? { return; }
        PassMore(registry, i, PlanPromotion, old(events), before, events);
      }
      assert registry[..|registry|] == registry;
      o := Ok(());
    }
  }

  lemma PassNone(p: seq<Provider>, stage: Stage, events: Events)
    ensures Pass(p[..0], stage, Added(events, events))
  {
  }

  lemma PassMore(p: seq<Provider>, i: nat, stage: Stage, start: Events, before: Events, now: Events)
    requires i < |p| && start <= before && Pass(p[..i], stage, Added(start, before))
    requires |now| == |before| + 1 && before <= now && PassedOn(p[i], stage, now[|before|])
    ensures Pass(p[..i + 1], stage, Added(start, now))
  {
    assert Added(start, now) == Added(start, before) + [now[|before|]];
    assert p[..i + 1] == p[..i] + [p[i]];
  }

  lemma PassLength(p: seq<Provider>, stage: Stage, before: Events, now: Events)
    requires before <= now && Pass(p, stage, Added(before, now))
    ensures |now| == |before| + |p|
  {
  }

  lemma ChecksLength(p: seq<Provider>, before: Events, now: Events)
    requires before <= now && Checks(p, Added(before, now))
    ensures |now| == |before| + 2 * |p|
  {
  }

  lemma CheckedLength(p: seq<Provider>, xs: Events)
    requires Checked(p, xs)
    ensures |xs| == 3 * |p|
  {
  }

  /** Four reports a provider, or six where the Candidate was sealed first. */
  lemma CollectedLength(p: seq<Provider>, route: Route, xs: Events)
    requires Collected(p, route, xs)
    ensures |xs| == (if route.Direct? then 4 else 6) * |p|
  {
  }

  lemma CheckedParts(p: seq<Provider>, a: Events, b: Events)
    requires a <= b && Pass(p, Prepare, Added([], a)) && Checks(p, Added(a, b))
    ensures Checked(p, b) && |b| == 3 * |p|
  {
    PassLength(p, Prepare, [], a);
    assert b[..|p|] == a == Added([], a);
  }

  lemma CollectedDirect(p: seq<Provider>, b: Events, c: Events)
    requires Checked(p, b) && b <= c && Pass(p, PlanPromotion, Added(b, c))
    ensures Collected(p, Direct, c)
  {
    assert c[..3 * |p|] == b && c[3 * |p|..] == Added(b, c);
  }

  lemma CollectedSealed(p: seq<Provider>, b: Events, c: Events, d: Events)
    requires Checked(p, b) && b <= c <= d && Checks(p, Added(b, c)) && Pass(p, PlanPromotion, Added(c, d))
    ensures Collected(p, Sealed, d)
  {
    assert d[..3 * |p|] == b && d[3 * |p|..5 * |p|] == Added(b, c) && d[5 * |p|..] == Added(c, d);
  }

  lemma ChecksNone(p: seq<Provider>, events: Events)
    ensures Checks(p[..0], Added(events, events))
  {
  }

  lemma ChecksMore(p: seq<Provider>, i: nat, start: Events, before: Events, described: Events, now: Events)
    requires i < |p| && start <= before <= described <= now && Checks(p[..i], Added(start, before))
    requires |described| == |before| + 1 && PassedOn(p[i], Describe, described[|before|])
    requires |now| == |described| + 1 && PassedOn(p[i], Validate, now[|described|])
    ensures Checks(p[..i + 1], Added(start, now))
  {
    var xs, ys := Added(start, before), Added(start, now);
    assert ys == xs + [now[|before|], now[|described|]];
    forall k | 0 <= k < i + 1 ensures PassedOn(p[k], Describe, ys[2 * k]) && PassedOn(p[k], Validate, ys[2 * k + 1]) {
      if k < i { assert p[..i][k] == p[k] && xs[2 * k] == ys[2 * k] && xs[2 * k + 1] == ys[2 * k + 1]; }
    }
  }

  /** No provider from place `n` on holds anything. */
  ghost predicate UntouchedPast(registry: seq<Provider>, n: nat, holding: map<Provider, Holding>) {
    forall i | n <= i < |registry| :: registry[i] in holding && holding[registry[i]] == Nothing
  }

  lemma UntouchedAll(registry: seq<Provider>, holding: map<Provider, Holding>)
    requires forall p | p in registry :: p in holding && holding[p] == Nothing
    ensures UntouchedPast(registry, 0, holding)
  {
  }

  lemma UntouchedNext(registry: seq<Provider>, i: nat, holding: map<Provider, Holding>, h: Holding)
    requires i < |registry| && Distinct(registry) && UntouchedPast(registry, i, holding)
    ensures UntouchedPast(registry, i + 1, holding) && UntouchedPast(registry, i + 1, holding[registry[i] := h])
    ensures registry[i] !in registry[..i]
  {
  }

  lemma UntouchedLess(registry: seq<Provider>, m: nat, n: nat, holding: map<Provider, Holding>)
    requires m <= n && UntouchedPast(registry, m, holding)
    ensures UntouchedPast(registry, n, holding)
  {
  }

  lemma Cleared(registry: seq<Provider>, attempted: seq<Provider>, holding: map<Provider, Holding>)
    requires attempted <= registry && UntouchedPast(registry, |attempted|, holding)
    requires forall i | 0 <= i < |attempted| :: attempted[i] in holding && holding[attempted[i]] == Nothing
    ensures forall p | p in registry :: p in holding && holding[p] == Nothing
  {
    forall p | p in registry ensures p in holding && holding[p] == Nothing {
      var i :| 0 <= i < |registry| && registry[i] == p;
      if i < |attempted| { assert attempted[i] == p; }
    }
  }

  lemma NothingEnded(start: map<Provider, Holding>, scope: seq<Provider>, h: Holding)
    ensures EndedUpTo(start, start, scope, 0, {}, h) && Without(scope[..0], {}) == []
  {
  }

  lemma EndedMore(start: map<Provider, Holding>, before: map<Provider, Holding>, now: map<Provider, Holding>,
                  scope: seq<Provider>, i: nat, was: set<Provider>, failed: set<Provider>, h: Holding)
    requires i < |scope| && Distinct(scope) && scope[i] in start && EndedUpTo(start, before, scope, i, was, h)
    requires now in {before, before[scope[i] := h]} && (scope[i] !in failed ==> now == before[scope[i] := h])
    requires forall k | 0 <= k < i :: scope[k] in failed <==> scope[k] in was
    ensures EndedUpTo(start, now, scope, i + 1, failed, h)
  {
    var p := scope[i];
    Apart(scope, i);
    hide Distinct;
    forall q | q in start && q !in scope[..i + 1] ensures q in now && now[q] == start[q] {
      assert q != p && q !in scope[..i];
    }
    forall k | 0 <= k <= i ensures scope[k] in now && (scope[k] !in failed ==> now[scope[k]] == h) {
      assert k < i ==> scope[k] != p;
    }
    forall k | 0 <= k <= i && scope[k] in failed
      ensures scope[k] in start && (now[scope[k]] == start[scope[k]] || now[scope[k]] == h)
    {
      assert k < i ==> scope[k] != p;
    }
    assert now.Keys == start.Keys;
  }

  lemma Apart(scope: seq<Provider>, i: nat)
    requires i < |scope| && Distinct(scope)
    ensures scope[i] !in scope[..i] && scope[..i + 1] == scope[..i] + [scope[i]]
    ensures forall k | 0 <= k < i :: scope[k] != scope[i]
  {
  }

  lemma FirstMore(scope: seq<Provider>, i: nat, was: set<Provider>, failed: set<Provider>)
    requires i < |scope| && Distinct(scope)
    requires failed == was || failed == was + {scope[i]}
    ensures forall p | FirstFailed(scope[..i], was, p) :: FirstFailed(scope[..i + 1], failed, p)
    ensures was == {} && failed != {} ==> FirstFailed(scope[..i + 1], failed, scope[i])
  {
    var longer := scope[..i + 1];
    assert forall k | 0 <= k < i :: scope[..i][k] == longer[k] == scope[k];
    assert longer[i] == scope[i];
  }

  lemma WithoutMore(scope: seq<Provider>, i: nat, was: set<Provider>, failed: set<Provider>)
    requires i < |scope| && Distinct(scope)
    requires failed == was || failed == was + {scope[i]}
    ensures Without(scope[..i + 1], failed) == Without(scope[..i], was) + if scope[i] in failed then [] else [scope[i]]
  {
    assert scope[..i + 1][..i] == scope[..i];
    SameWithout(scope[..i], was, failed);
  }

  lemma {:induction false} SameWithout(scope: seq<Provider>, a: set<Provider>, b: set<Provider>)
    requires forall p | p in scope :: p in a <==> p in b
    ensures Without(scope, a) == Without(scope, b)
    decreases |scope|
  {
    if scope != [] { SameWithout(scope[..|scope| - 1], a, b); }
  }

  lemma {:induction false} NoneFailed(scope: seq<Provider>)
    ensures Without(scope, {}) == scope
    decreases |scope|
  {
    if scope != [] {
      NoneFailed(scope[..|scope| - 1]);
      assert scope == scope[..|scope| - 1] + [scope[|scope| - 1]];
    }
  }
}
