/** Recovery of an already completed Promotion, and the authority it must agree with.

  airlock-runner.ts rewrites the journaled provider events into the form that
  portable-decision-journal.ts accepts as "the same decision, recovered". Both sides are
  modelled from their own code; the theorems say that the one always satisfies the other.
*/
module RecoveryNormaliser {
  import opened RecoveryEvents

  const MAX_EVENTS: nat := 256

  datatype RunStatus = Promoted | Quarantined | Discarded | Cancelled | RecoveryError | OtherRunStatus

  /** A terminal transaction. `providers` is in the order of the expected-provider sort;
    `rest` stands for every field recovery copies unchanged. */
  datatype Transaction = Transaction(
    status: RunStatus,
    disposition: RunStatus,
    completedPhase: bool,
    recovered: bool,
    recoveryError: Option<string>,
    providers: seq<Provider>,
    events: Events,
    rest: string)

  datatype Result<T> = Ok(value: T) | Err(message: string)

  datatype Inspection = Inspection(complete: bool, normalized: Option<Events>)

  predicate DistinctIds(p: seq<Provider>) { forall i, j | 0 <= i < j < |p| :: p[i].id != p[j].id }

  /** Where the trailing run of reconcile events begins. */
  function TrailingStart(events: Events): (start: nat)
    ensures start <= |events|
    ensures forall i | start <= i < |events| :: events[i].stage == Reconcile
    ensures start > 0 ==> events[start - 1].stage != Reconcile
  {
    if events != [] && events[|events| - 1].stage == Reconcile then TrailingStart(events[..|events| - 1])
    else |events|
  }

  /** Index of the first recovery event, if there can be any. */
  function RecoveryStart(events: Events, authority: Option<Transaction>): (r: Result<Option<nat>>)
    ensures r.Ok? && r.value.Some? ==> r.value.value <= |events|
  {
    match authority
    case Some(a) => if a.events <= events then Ok(Some(|a.events|)) else Err("contradicts immutable provider evidence")
    case None =>
      var start := TrailingStart(events);
      Ok(if start < |events| then Some(start) else None)
  }

  function LastBlock(complete: Events, n: nat): Events {
    if |complete| <= n then complete else complete[|complete| - n..]
  }

  function Inspect(t: Transaction, authority: Option<Transaction>): Result<Inspection> {
    if t.providers == [] then Ok(Inspection(true, None))
    else
      match RecoveryStart(t.events, authority)
      case Err(m) => Err(m)
      case Ok(None) => Ok(Inspection(false, None))
      case Ok(Some(start)) =>
        match Parse(t.providers, t.events[start..])
        case None => Err("malformed provider recovery evidence")
        case Some(parsed) =>
          var first := authority.Some? && !authority.value.recovered;
          var kept := Normalized(authority, parsed.complete, |t.providers|);
          var normalized := t.events[..start] + kept;
          Ok(Inspection(
            (authority.Some? && authority.value.recovered) || (first && kept != []) || parsed.lastComplete,
            if normalized != t.events then Some(normalized) else None))
  }

  method FindTrailing(events: Events) returns (start: nat)
    ensures start == TrailingStart(events)
  {
    start := |events|;
    while start > 0 && events[start - 1].stage == Reconcile
      invariant start <= |events|
      invariant TrailingStart(events[..start]) == TrailingStart(events)
    {
      assert events[..start][..start - 1] == events[..start - 1];
      start := start - 1;
    }
  }

  method InspectCompletedPromotionRecovery(t: Transaction, authority: Option<Transaction>)
    returns (r: Result<Inspection>)
    ensures r == Inspect(t, authority)
  {
    hide Parse, TrailingStart;
    if |t.providers| == 0 {
      return Ok(Inspection(true, None));
    }
    var recoveryEventStart: Option<nat> := None;
    if authority.Some? {
      var authorityEvents := authority.value.events;
      if |t.events| < |authorityEvents| || t.events[..|authorityEvents|] != authorityEvents {
        return Err("contradicts immutable provider evidence");
      }
      recoveryEventStart := Some(|authorityEvents|);
    } else {
      var start := FindTrailing(t.events);
      if start < |t.events| {
        recoveryEventStart := Some(start);
      }
    }
    if recoveryEventStart.None? {
      return Ok(Inspection(false, None));
    }
    var start := recoveryEventStart.value;
    var attempts := ParseAttempts(t.events[start..], t.providers);
    if attempts.None? {
      return Err("malformed provider recovery evidence");
    }
    var complete := attempts.value.complete;
    var authorityNeedsFirstRecovery := authority.Some? && !authority.value.recovered;
    if authorityNeedsFirstRecovery && |complete| > 0 && |complete| > |t.providers| {
      complete := complete[|complete| - |t.providers|..];
    }
    var normalized := t.events[..start] + complete;
    r := Ok(Inspection(
      (authority.Some? && authority.value.recovered) || (authorityNeedsFirstRecovery && |complete| > 0) ||
      attempts.value.lastComplete,
      if normalized != t.events then Some(normalized) else None));
  }

  // ---- The recovery step of an already completed journal ----

  /** Bounded append: it fails closed rather than drop evidence. */
  function Append(events: Events, more: Events): Result<Events> {
    if |events| + |more| <= MAX_EVENTS || more == [] then Ok(events + more) else Err("evidence exceeds 256 events")
  }

  /** The journaled transaction after one reconcilePromotion of a completed journal whose
    providers and effects verify; `verification` holds the reconcile events of that check. */
  function Recover(t: Transaction, authority: Option<Transaction>, verification: Events): Result<Transaction> {
    var prior := if t.recovered then Inspect(t, authority) else Ok(Inspection(false, None));
    match prior
    case Err(m) => Err(m)
    case Ok(inspection) =>
      var events := if inspection.normalized.Some? then inspection.normalized.value else t.events;
      if inspection.complete then
        if t.status == RecoveryError || t.recoveryError.Some? || inspection.normalized.Some? then
          Ok(t.(status := Promoted, recovered := true, recoveryError := None, events := events))
        else Ok(t)
      else
        match Append(events, verification)
        case Err(m) => Err(m)
        case Ok(all) => Ok(t.(status := Promoted, recovered := true, recoveryError := None, events := all))
  }

  // ---- The transition checker ----

  function KindOf(p: seq<Provider>, id: string): Option<string> {
    if p == [] then None
    else if p[|p| - 1].id == id then Some(p[|p| - 1].kind)
    else KindOf(p[..|p| - 1], id)
  }

  function Ids(p: seq<Provider>): set<string> { set i | 0 <= i < |p| :: p[i].id }

  predicate RecoveryEvent(p: seq<Provider>, e: Event) {
    e.exact && KindOf(p, e.provider.id) == Some(e.provider.kind) && e.stage == Reconcile && e.status == Passed
  }

  /** One passed reconcile event for each provider, in any order. */
  predicate CoversProviders(p: seq<Provider>, events: Events) {
    && |events| == |Ids(p)|
    && (forall i | 0 <= i < |events| :: RecoveryEvent(p, events[i]))
    && (forall i, j | 0 <= i < j < |events| :: events[i].provider.id != events[j].provider.id)
  }

  method AssertPromotionRecoveryProviderEvents(p: seq<Provider>, events: Events) returns (ok: bool)
    ensures ok == CoversProviders(p, events)
  {
    if |events| != |Ids(p)| {
      return false;
    }
    var seen: set<string> := {};
    for i := 0 to |events|
      invariant seen == set k | 0 <= k < i :: events[k].provider.id
      invariant forall k | 0 <= k < i :: RecoveryEvent(p, events[k])
      invariant forall k, l | 0 <= k < l < i :: events[k].provider.id != events[l].provider.id
    {
      var event := events[i];
      if !RecoveryEvent(p, event) || event.provider.id in seen {
        return false;
      }
      seen := seen + {event.provider.id};
    }
    return true;
  }

  predicate Settled(t: Transaction) {
    t.status == Promoted && t.disposition == Promoted && t.completedPhase && t.recoveryError.None?
  }

  /** assertPromotedRecoveryTransition. */
  predicate AcceptsRecovery(promoted: Transaction, recovered: Transaction) {
    && Settled(promoted) && !promoted.recovered
    && Settled(recovered) && recovered.recovered
    && promoted.events <= recovered.events
    && CoversProviders(promoted.providers, recovered.events[|promoted.events|..])
    && promoted.(recovered := true, events := recovered.events) == recovered
  }

  lemma {:induction false} KindOfListed(p: seq<Provider>, i: nat)
    requires DistinctIds(p) && i < |p|
    ensures KindOf(p, p[i].id) == Some(p[i].kind)
  {
    if i < |p| - 1 {
      assert p[..|p| - 1][i] == p[i];
      KindOfListed(p[..|p| - 1], i);
    }
  }

  lemma IdsPush(p: seq<Provider>)
    requires p != [] && DistinctIds(p)
    ensures var front, last := p[..|p| - 1], p[|p| - 1].id; last !in Ids(front) && Ids(p) == Ids(front) + {last}
  {
    var front := p[..|p| - 1];
    assert forall i | 0 <= i < |front| :: front[i] == p[i] && p[i].id in Ids(p);
    assert p[|p| - 1].id in Ids(p);
  }

  lemma {:induction false} CountIds(p: seq<Provider>)
    requires DistinctIds(p)
    ensures |Ids(p)| == |p|
  {
    if p != [] {
      var front, last := p[..|p| - 1], p[|p| - 1].id;
      CountIds(front);
      IdsPush(p);
      hide Ids;
      assert last !in Ids(front) && Ids(p) == Ids(front) + {last};
    }
  }

  /** A whole in-order attempt is what the checker wants after the authority's events. */
  lemma WholeCovers(p: seq<Provider>, xs: Events)
    requires DistinctIds(p) && Whole(p, xs)
    ensures CoversProviders(p, xs)
  {
    CountIds(p);
    forall i | 0 <= i < |xs| ensures RecoveryEvent(p, xs[i]) {
      KindOfListed(p, i);
    }
  }

  /** Keeping only the last block of whole attempts keeps the last whole attempt. */
  lemma LastBlockIsWhole(p: seq<Provider>, k: seq<Events>)
    requires 0 < |p| && AllWhole(p, k) && k != []
    ensures LastBlock(Flat(k), |p|) == k[|k| - 1]
  {
    var front, last := Flat(k[..|k| - 1]), k[|k| - 1];
    WholeLength(p, last);
    hide Whole, AllWhole;
    assert Flat(k) == front + last;
    assert (front + last)[|front|..] == last;
    if front == [] { assert front + last == last; }
  }

  /** What a run journals about one already promoted authority: the authority's own events,
    then anything the parser can read as recovery attempts. */
  predicate Journals(a: Transaction, t: Transaction) {
    && a.events <= t.events
    && (t.recovered || t.events == a.events)
    && (t.status == Promoted || t.status == RecoveryError)
    && t.completedPhase && t.disposition == Promoted && t.providers == a.providers && t.rest == a.rest
    && (t.providers != [] ==> Parse(t.providers, t.events[|a.events|..]).Some?)
    && (t.providers == [] ==> t.events == a.events)
  }

  predicate UnrecoveredAuthority(a: Transaction) {
    Settled(a) && !a.recovered && DistinctIds(a.providers)
  }

  /** Some attempt to recover after the authority's events was whole. */
  predicate RecoveredBefore(a: Transaction, t: Transaction)
    requires Journals(a, t)
  {
    t.recovered && (t.providers == [] || Parse(t.providers, t.events[|a.events|..]).value.complete != [])
  }

  /** Exactly one whole attempt follows the authority's events. */
  predicate OneWholeAttempt(a: Transaction, r: Transaction) {
    a.events <= r.events && Whole(a.providers, r.events[|a.events|..])
  }

  lemma InspectUnrecovered(a: Transaction, t: Transaction)
    requires UnrecoveredAuthority(a) && Journals(a, t) && t.recovered
    ensures Inspect(t, Some(a)).Ok?
    ensures var i := Inspect(t, Some(a)).value;
      var events := if i.normalized.Some? then i.normalized.value else t.events;
      && i.complete == RecoveredBefore(a, t)
      && (if i.complete then a.events <= events && Whole(a.providers, events[|a.events|..]) else events == a.events)
  {
    if t.providers == [] {
      assert t.events[|a.events|..] == [];
    } else {
      hide Parse, Whole, LastBlock, DistinctIds;
      var p, tail := t.providers, t.events[|a.events|..];
      DistinctIdsDistinct(p);
      assert t.events[..|a.events|] == a.events;
      KeptParses(p, tail);
      KeptBlocks(p, tail);
      var kept := LastBlock(Parse(p, tail).value.complete, |p|);
      assert (a.events + kept)[|a.events|..] == kept;
      LastBlockEmpty(Parse(p, tail).value.complete, p);
    }
  }

  lemma DistinctIdsDistinct(p: seq<Provider>)
    requires DistinctIds(p)
    ensures Distinct(p)
  {
  }

  lemma LastBlockEmpty(complete: Events, p: seq<Provider>)
    requires p != []
    ensures LastBlock(complete, |p|) == [] <==> complete == []
  {
  }

  /** Whole, partial and failed attempts may have piled up in any number: recovery of an
    unrecovered authority ends in a transaction the transition checker accepts, and fails
    only when a first recovery would pass the 256-event bound. */
  lemma RecoveryIsAccepted(a: Transaction, t: Transaction, verification: Events)
    requires UnrecoveredAuthority(a) && Journals(a, t) && Whole(a.providers, verification)
    ensures Recover(t, Some(a), verification).Ok? <==>
      RecoveredBefore(a, t) || |a.events| + |a.providers| <= MAX_EVENTS || a.providers == []
    ensures Recover(t, Some(a), verification).Ok? ==>
      var r := Recover(t, Some(a), verification).value;
      AcceptsRecovery(a, r) && OneWholeAttempt(a, r)
  {
    if t.recovered { InspectUnrecovered(a, t); }
    var result := Recover(t, Some(a), verification);
    if result.Ok? {
      var r := result.value;
      assert OneWholeAttempt(a, r) by {
        if !RecoveredBefore(a, t) {
          assert r.events == a.events + verification;
          assert r.events[|a.events|..] == verification;
        }
      }
      WholeCovers(a.providers, r.events[|a.events|..]);
    }
  }

  /** Recovery settles: a later restart, against the old authority or the recovered one, adds nothing. */
  lemma RecoveryIsStable(a: Transaction, r: Transaction, verification: Events)
    requires UnrecoveredAuthority(a) && AcceptsRecovery(a, r) && OneWholeAttempt(a, r)
    ensures Recover(r, Some(a), verification) == Ok(r)
    ensures Recover(r, Some(r), verification) == Ok(r)
  {
    hide Parse, Whole, CoversProviders, LastBlock;
    var p, tail := a.providers, r.events[|a.events|..];
    assert r.events[|r.events|..] == [] && r.events[..|r.events|] == r.events;
    assert r.events == r.events[..|a.events|] + tail;
    if p != [] {
      assert Distinct(p);
      OneAttempt(p, tail);
      NothingParses(p);
      assert |tail| == |p| by { WholeLength(p, tail); }
      assert LastBlock(tail, |p|) == tail by { ShortBlock(tail, |p|); }
      assert r.events + [] == r.events;
    }
  }

  lemma NothingParses(p: seq<Provider>)
    requires 0 < |p|
    ensures Parse(p, []) == Some(Parsing([], [], false))
  {
  }

  lemma WholeLength(p: seq<Provider>, xs: Events)
    requires Whole(p, xs)
    ensures |xs| == |p|
  {
  }

  lemma ShortBlock(xs: Events, n: nat)
    requires |xs| <= n
    ensures LastBlock(xs, n) == xs
  {
  }

  // ---- The normaliser on its own ----

  lemma {:induction false} TrailingAfter(front: Events, tail: Events)
    requires front == [] || front[|front| - 1].stage != Reconcile
    requires forall i | 0 <= i < |tail| :: tail[i].stage == Reconcile
    ensures TrailingStart(front + tail) == |front|
  {
    if tail == [] {
      assert front + tail == front;
    } else {
      assert (front + tail)[..|front + tail| - 1] == front + tail[..|tail| - 1];
      TrailingAfter(front, tail[..|tail| - 1]);
    }
  }

  lemma {:induction false} FlatReconciles(p: seq<Provider>, k: seq<Events>)
    requires AllWhole(p, k)
    ensures forall i | 0 <= i < |Flat(k)| :: Flat(k)[i].stage == Reconcile
  {
    if k != [] {
      FlatReconciles(p, k[..|k| - 1]);
      assert Whole(p, k[|k| - 1]);
    }
  }

  /** The normaliser is idempotent and never turns complete evidence into incomplete. */
  lemma NormalizingIsStable(t: Transaction, authority: Option<Transaction>)
    requires Distinct(t.providers) && Inspect(t, authority).Ok? && Inspect(t, authority).value.normalized.Some?
    ensures var i := Inspect(t, authority).value;
      var again := Inspect(t.(events := i.normalized.value), authority);
      && again.Ok? && again.value.normalized.None?
      && (i.complete ==> again.value.complete)
      && (authority.Some? ==> again.value.complete == i.complete)
  {
    hide Parse, Whole, LastBlock, TrailingStart;
    var i := Inspect(t, authority).value;
    var p := t.providers;
    var start := RecoveryStart(t.events, authority).value.value;
    var complete := Parse(p, t.events[start..]).value.complete;
    var kept := Normalized(authority, complete, |p|);
    var events := i.normalized.value;
    assert events == t.events[..start] + kept && events[start..] == kept && events[..start] == t.events[..start];
    KeptParses(p, t.events[start..]);
    NormalizedAgain(p, authority, t.events[start..]);
    if authority.None? {
      KeptBlocks(p, t.events[start..]);
      TrailingFound(t.events);
      TrailingAfter(t.events[..start], kept);
      assert TrailingStart(events) == start;
      assert RecoveryStart(events, authority) == Ok(if start < |events| then Some(start) else None);
    } else {
      assert RecoveryStart(events, authority) == Ok(Some(start));
    }
  }

  function Normalized(authority: Option<Transaction>, complete: Events, n: nat): Events {
    if authority.Some? && !authority.value.recovered && complete != [] then LastBlock(complete, n) else complete
  }

  lemma TrailingFound(events: Events)
    ensures var start := TrailingStart(events); start > 0 ==> events[start - 1].stage != Reconcile
  {
  }

  lemma NormalizedAgain(p: seq<Provider>, authority: Option<Transaction>, tail: Events)
    requires 0 < |p| && Distinct(p) && Parse(p, tail).Some?
    ensures var kept := Normalized(authority, Parse(p, tail).value.complete, |p|);
      Parse(p, kept) == Some(Parsing(kept, [], kept != [])) && Normalized(authority, kept, |p|) == kept
        && (kept == [] <==> Parse(p, tail).value.complete == [])
  {
    hide Parse, Whole, LastBlock;
    var complete := Parse(p, tail).value.complete;
    var kept := Normalized(authority, complete, |p|);
    KeptParses(p, tail);
    KeptBlocks(p, tail);
    if authority.Some? && !authority.value.recovered && complete != [] {
      OneAttempt(p, kept);
      WholeLength(p, kept);
      ShortBlock(kept, |p|);
    }
  }

  /** All that is kept is reconcile evidence, and its last block is one whole attempt. */
  lemma KeptBlocks(p: seq<Provider>, tail: Events)
    requires 0 < |p| && Distinct(p) && Parse(p, tail).Some?
    ensures var c := Parse(p, tail).value.complete;
      && (forall i | 0 <= i < |c| :: c[i].stage == Reconcile)
      && (c != [] ==> Whole(p, LastBlock(c, |p|)))
  {
    var h := ParsedIsHistory(p, tail);
    var k := Kept(p, h);
    FlatReconciles(p, k);
    if k != [] {
      LastBlockIsWhole(p, k);
      assert Whole(p, k[|k| - 1]);
    }
  }

  // ---- Plans that mix visibilities ----
  //
  // The parser is written for any plan. The registry admits providers of one visibility alone (ResourceRegistries), so
  // what follows is a fact about the parser, which no admitted registry meets.

  lemma RefusesFirst(p: seq<Provider>, events: Events)
    requires 0 < |p| && events != [] && events[0].provider != p[0]
    ensures Parse(p, events).None?
  {
    assert events[..1] == [events[0]] && events[..1][..0] == [];
    assert Parse(p, events[..1]).None?;
    ParseStops(p, events, 1);
  }

  /** The trailing reconcile events that a first recovery leaves when it began before the
    canonical advance: one phase's check (`after` providers, or `before` when there are no
    others), then the closing verification of every provider. */
  function FirstRecoveryTrail(m: Events, q: Events): Events { (if q != [] then q else m) + (m + q) }

  /** With no terminal authority to start from, the parser can read that trail exactly when the plan does not mix the
    two visibilities. */
  lemma MixedRegistry(before: seq<Provider>, after: seq<Provider>, m: Events, q: Events)
    requires before + after != [] && Distinct(before + after) && Whole(before, m) && Whole(after, q)
    ensures Parse(before + after, FirstRecoveryTrail(m, q)).Some? <==> before == [] || after == []
  {
    hide Parse;
    if before == [] || after == [] {
      var p, xs := before + after, m + q;
      assert p == if before == [] then after else before;
      assert xs == if before == [] then q else m;
      assert Whole(p, xs);
      OneAttempt(p, xs);
      KeepsWhole(p, [xs]);
      assert Flat([xs]) == xs by { Pushed(p, [], xs); assert [] + [xs] == [xs] && [] + xs == xs; }
      TwoAttempts(p, [xs], xs);
      assert FirstRecoveryTrail(m, q) == xs + xs;
    } else {
      var trail := FirstRecoveryTrail(m, q);
      assert (before + after)[0] == before[0] && (before + after)[|before|] == after[0];
      assert trail[0] == q[0] && q[0].provider == after[0];
      RefusesFirst(before + after, trail);
    }
  }

  /** So a plan of both, whose first recovery crashed before its terminal authority was recorded, would be refused at
    the next restart. */
  lemma MixedRegistryWedges(before: seq<Provider>, after: seq<Provider>, m: Events, q: Events, t: Transaction,
                            history: Events, verification: Events)
    requires before != [] && after != [] && Distinct(before + after) && Whole(before, m) && Whole(after, q)
    requires history == [] || history[|history| - 1].stage != Reconcile
    requires t.recovered && t.providers == before + after && t.events == history + FirstRecoveryTrail(m, q)
    ensures Recover(t, None, verification).Err?
  {
    hide Parse, Whole;
    MixedRegistry(before, after, m, q);
    var trail := FirstRecoveryTrail(m, q);
    assert AllReconcile(trail) by { WholeReconciles(before, m); WholeReconciles(after, q); }
    TrailingAfter(history, trail);
    assert trail != [] by { WholeLength(after, q); }
    assert t.events[|history|..] == trail;
  }

  predicate AllReconcile(xs: Events) { forall i | 0 <= i < |xs| :: xs[i].stage == Reconcile }

  lemma WholeReconciles(p: seq<Provider>, xs: Events)
    requires Whole(p, xs)
    ensures AllReconcile(xs)
  {
  }
}
