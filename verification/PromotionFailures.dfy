/** Where a Promotion cannot be recovered: the exact condition, and journals that fail it. */
module PromotionFailures {
  import opened Faults
  import opened AirlockRun
  import opened PromotionEvidence
  import opened PromotionJournals
  import opened PromotionLifecycle
  import opened PromotionRecovery
  import opened PromotionRun
  import opened PromotionSteps
  import opened PromotionWorld
  import opened RecoveryTrail
  import E = RecoveryEvents
  import R = RecoveryNormaliser
  import Resources = ResourceCoordinators

  // ---- Evidence that can be read ----

  /** With a published decision, or before the first recovery returned, evidence is always readable. In a registry of
    one visibility it is unless a report was doubled. */
  lemma ReadableWhen(m: Mission, s: Outside, files: Files)
    requires Inv(m, s, files) && m.plan.runId in files
    ensures s.authority.Some? || PhaseOf(m, files) != Completed ==> Readable(m, files, s.authority)
    ensures var t := files[m.plan.runId].transaction;
      var p := Expected(m.plan);
      PhaseOf(m, files) == Completed && t.recovered && s.authority.None? && p != [] ==>
        && (Readable(m, files, s.authority) <==> Tidy(p, Trail(t.evidence)))
        && (Uniform(m.plan) ==> (Readable(m, files, s.authority) <==> !Doubled(p, Trail(t.evidence))))
  {
    InvAuthority(m, s, files);
    InvEvidenced(m, s, files);
    var t := files[m.plan.runId].transaction;
    hide Inv, AuthorityFits, Evidenced, Tidy, Doubled, Uniform, DistinctProviders, Prior, Expected;
    if PhaseOf(m, files) == Completed {
      if s.authority.Some? {
        AuthorityReadable(m.plan, t, s.authority);
      } else if t.recovered && Expected(m.plan) != [] {
        ReadableExactly(m.plan, t);
        if Uniform(m.plan) { UniformReadable(m.plan, t); }
      }
    }
  }

  lemma InvEvidenced(m: Mission, s: Outside, files: Files)
    requires Inv(m, s, files) && m.plan.runId in files
    ensures Evidenced(m.plan, files[m.plan.runId].transaction.evidence)
  {
  }

  // ---- Too many providers ----

  /** What `begin` writes leaves room exactly if the evidence collected before it, and three passes, fit. */
  lemma BegunRoom(m: Mission, s: Outside)
    requires WellFormed(m) && Untouched(m, s)
    ensures var r := Begun(m.plan, m.start, m.scope);
      var files: Files := map[m.plan.runId := r];
      && BeginMove(map[], m.plan, m.start, m.scope) == (if Journalable(m) then Write(r) else Refuse)
      && (Journalable(m) ==> Inv(m, s, files) && Readable(m, files, s.authority))
      && (Room(m, files, s.authority) <==> |m.start.evidence| + 3 * (|m.plan.before| + |m.plan.after|) <= MAX_EVENTS)
  {
    QuietEvidence(m.plan, m.start.evidence);
  }

  /** The greatest registry whose Runs leave room at `begin`. */
  function Largest(route: Resources.Route): nat { if route.Direct? then 36 else 28 }

  /** Beside the reports that a Run has collected there is room at `begin` exactly if its registry is not too large:
    at most 36 providers when it is promoted at once, at most 28 when it was sealed first. */
  lemma CollectedRoom(m: Mission, s: Outside, files: Files, registry: seq<E.Provider>, route: Resources.Route)
    requires Inv(m, s, files) && m.plan.runId in files && files[m.plan.runId] == Begun(m.plan, m.start, m.scope)
    requires |registry| == |m.plan.before| + |m.plan.after| && Resources.Collected(registry, route, m.start.evidence)
    ensures CanFinish(m, s, files, m.scope) <==> Deliverable(m, s) && |registry| <= Largest(route)
  {
    Resources.CollectedLength(registry, route, m.start.evidence);
    CanFinishAt(m, s, files, m.scope);
    BegunCore(m);
    hide WellFormed, Resources.Collected, Inv, Deliverable, Begun;
    assert PhaseOf(m, files) == Validated;
    assert Needed(m, Validated) == 3 * |registry|;
  }

  lemma BegunCore(m: Mission)
    ensures var r := Begun(m.plan, m.start, m.scope); r.phase == Validated && r.transaction.evidence == m.start.evidence
  {
  }

  /** By moves: the providers are prepared, described, validated and planned, the Promotion begins, and the process
    dies. */
  method StopAtBegin(w: World, m: Mission, c: Resources.ResourceCoordinator) returns (mission: Mission)
    requires Inv(m, w.Now(), w.journal.files) && m.plan.runId !in w.journal.files
    requires c.Valid() && c.events == [] && forall p | p in c.registry :: c.holding[p] == Resources.Nothing
    requires |c.registry| == |m.plan.before| + |m.plan.after| <= MAX_PROVIDERS && Deliverable(m, w.Now())
    modifies w.journal, c`holding, c`events
    ensures mission == With(m, mission.start.evidence) && Inv(mission, w.Now(), w.journal.files)
    ensures m.plan.runId in w.journal.files && PhaseOf(m, w.journal.files) == Validated
    ensures CanFinish(mission, w.Now(), w.journal.files, m.scope) <==> |c.registry| <= Largest(Resources.Direct)
  {
    hide Inv, Resources.Collected, Resources.Checked, Resources.Quiet, E.Distinct, CanFinish, Begun;
    var died, reached := Collect(c, Passes, true);
    mission := With(m, c.events);
    WithInv(m, w.Now(), w.journal.files, c.events);
    assert Deliverable(mission, w.Now());
    var o, t := BeginStep(w, mission, true);
    CollectedRoom(mission, w.Now(), w.journal.files, c.registry, Resources.Direct);
  }

  function Name(i: nat): string { seq(i + 1, _ => 'p') }

  function Numbered(n: nat): seq<ResourcePlan> { seq(n, i requires 0 <= i => ResourcePlan(Name(i), Name(i), "1")) }

  function Note(p: E.Provider, stage: E.Stage): E.Event { E.Event(p, stage, E.Passed, true, "") }

  function PassOf(p: seq<E.Provider>, stage: E.Stage): E.Events {
    seq(|p|, i requires 0 <= i < |p| => Note(p[i], stage))
  }

  function ChecksOf(p: seq<E.Provider>): E.Events {
    seq(2 * |p|, i requires 0 <= i < 2 * |p| => Note(p[i / 2], if i % 2 == 0 then E.Describe else E.Validate))
  }

  /** A Run of `n` providers that will be visible with the manifest and no effects, about to begin its Promotion. */
  function NumberedMission(n: nat): Mission {
    var plan := Plan("run", "source", "target", Numbered(n), []);
    var p := Expected(plan);
    var evidence := PassOf(p, E.Prepare) + ChecksOf(p) + PassOf(p, E.PlanPromotion);
    Mission(plan, Transaction(Outcomes(None, None, None, [], 0, false), Promoting, false, false, [], map[], evidence),
      [], "local")
  }

  lemma PassOfPasses(p: seq<E.Provider>, stage: E.Stage)
    ensures E.Pass(p, stage, PassOf(p, stage))
  {
  }

  lemma ChecksOfChecks(p: seq<E.Provider>)
    ensures Resources.Checks(p, ChecksOf(p))
  {
    var b := ChecksOf(p);
    forall i | 0 <= i < |p|
      ensures E.PassedOn(p[i], E.Describe, b[2 * i]) && E.PassedOn(p[i], E.Validate, b[2 * i + 1])
    {
      assert (2 * i) / 2 == i && (2 * i + 1) / 2 == i;
    }
  }

  lemma ReportsCollected(p: seq<E.Provider>)
    ensures Resources.Collected(p, Resources.Direct, PassOf(p, E.Prepare) + ChecksOf(p) + PassOf(p, E.PlanPromotion))
  {
    var a, b, c := PassOf(p, E.Prepare), ChecksOf(p), PassOf(p, E.PlanPromotion);
    PassOfPasses(p, E.Prepare);
    PassOfPasses(p, E.PlanPromotion);
    ChecksOfChecks(p);
    hide PassOf, ChecksOf, E.Pass, Resources.Checks, Resources.Checked, Resources.Collected;
    assert Resources.Added([], a) == a && Resources.Added(a, a + b) == b && Resources.Added(a + b, a + b + c) == c;
    Resources.CheckedParts(p, a, a + b);
    Resources.CollectedDirect(p, a + b, a + b + c);
  }

  lemma NumberedCollected(n: nat)
    requires n <= MAX_PROVIDERS
    ensures var m := NumberedMission(n);
      WellFormed(m) && |Expected(m.plan)| == n &&
      Resources.Collected(Expected(m.plan), Resources.Direct, m.start.evidence)
  {
    var m := NumberedMission(n);
    var p := Expected(m.plan);
    assert m.plan.before + m.plan.after == Numbered(n);
    forall i, j | 0 <= i < j < n ensures Name(i) != Name(j) { assert |Name(i)| != |Name(j)|; }
    assert DistinctProviders(Numbered(n));
    assert m.start.core.intents == Undelivered([]);
    hide PassOf, ChecksOf, Numbered, DistinctProviders, Resources.Collected;
    ReportsCollected(p);
    CollectedQuiet(p, m.start.evidence);
  }

  lemma CollectedQuiet(p: seq<E.Provider>, xs: E.Events)
    requires Resources.Collected(p, Resources.Direct, xs) && |p| <= MAX_PROVIDERS
    ensures Trail(xs) == [] && |xs| <= MAX_EVENTS
  {
    if p != [] {
      assert E.PassedOn(p[|p| - 1], E.PlanPromotion, xs[3 * |p|..][|p| - 1]);
      assert xs[|xs| - 1].stage == E.PlanPromotion;
    }
  }

  /** The least such registry: an undisturbed Run of 37 providers finishes, and one that stops behind `begin` is not
    recovered. */
  lemma CrowdedJournal(s: Outside)
    requires Untouched(NumberedMission(37), s)
    ensures var m := NumberedMission(37);
      var files: Files := map["run" := Begun(m.plan, m.start, m.scope)];
      && Resources.Collected(Expected(m.plan), Resources.Direct, m.start.evidence)
      && Inv(m, s, files) && Readable(m, files, s.authority) && MayRun(m, s) && !CanFinish(m, s, files, m.scope)
  {
    var m := NumberedMission(37);
    NumberedCollected(37);
    hide Numbered, PassOf, ChecksOf, WellFormed, Expected;
    Resources.CollectedLength(Expected(m.plan), Resources.Direct, m.start.evidence);
    NumberedPlan(37);
    BegunRoom(m, s);
    var files: Files := map["run" := Begun(m.plan, m.start, m.scope)];
    CollectedRoom(m, s, files, Expected(m.plan), Resources.Direct);
  }

  lemma NumberedPlan(n: nat)
    ensures var m := NumberedMission(n);
      |m.plan.before| == n && m.plan.after == [] && m.plan.runId == "run" && KeySet(m) == {}
  {
  }

  // ---- A doubled report ----

  /** A restart that got as far as the report of provider `i`, took it down twice, and left it there. */
  predicate Interrupted(plan: Plan, i: nat, before: E.Events, after: E.Events)
    requires i < |plan.before|
  {
    && before <= after && |after| == |before| + i + 2 && R.AllReconcile(after[|before|..])
    && after[|before|].provider == ProviderOf(plan.before[0])
    && after[|before| + i].provider == after[|before| + i + 1].provider == ProviderOf(plan.before[i])
  }

  lemma InterruptedBy(plan: Plan, i: nat, before: E.Events, now: E.Events, after: E.Events)
    requires i < |plan.before| && Extends(plan.before[..i], E.Reconcile, before, now)
    requires AddsBoth(plan.before[i], E.Reconcile, now, after)
    ensures Interrupted(plan, i, before, after)
  {
    var p := plan.before[..i];
    ExtendsLength(p, E.Reconcile, before, now);
    assert after == now + [after[|now|], after[|now| + 1]];
    assert after[|before|..] == now[|before|..] + [after[|now|], after[|now| + 1]];
    forall k | 0 <= k < i ensures after[|before| + k].provider == ProviderOf(plan.before[k]) {
      assert now[|before|..][k] == after[|before| + k];
      assert E.PassedOn(Providers(p)[k], E.Reconcile, now[|before|..][k]);
    }
  }

  /** What the restart that finishes then adds is reports of recovery alone, when no provider is promoted behind the
    manifest. */
  lemma RecordedReconciles(plan: Plan, before: E.Events, after: E.Events)
    requires plan.after == [] && Recorded(plan, VersionInstalled, before, after)
    ensures before <= after && R.AllReconcile(after[|before|..])
  {
    var all := plan.before + plan.after;
    var staged := after[..|after| - |all|];
    var b := |before| + |plan.before|;
    assert all == plan.before;
    assert Stages(plan, CanonicalAdvanced, staged[..b], staged);
    ExtendsLength(plan.before, E.Reconcile, before, staged[..b]);
    assert staged == staged[..b];
    assert after == before + staged[|before|..] + after[|staged|..];
    assert E.Pass(Providers(plan.before), E.Reconcile, staged[|before|..]);
    assert E.Pass(Providers(all), E.Reconcile, after[|staged|..]);
    assert after[|before|..] == staged[|before|..] + after[|staged|..];
  }

  lemma PromotedQuiet(plans: seq<ResourcePlan>, before: E.Events, after: E.Events)
    requires plans != [] && Extends(plans, E.Promote, before, after)
    ensures Trail(after) == []
  {
    var xs := after[|before|..];
    assert E.PassedOn(Providers(plans)[|xs| - 1], E.Promote, xs[|xs| - 1]);
    assert after[|after| - 1] == xs[|xs| - 1];
  }

  /** The reports of the two restarts behind the promotions are untidy. */
  lemma DoubledEvidence(plan: Plan, i: nat, promoted: E.Events, interrupted: E.Events, finished: E.Events)
    requires plan.after == [] && 0 < i < |plan.before| && DistinctProviders(plan.before + plan.after)
    requires Trail(promoted) == []
    requires Interrupted(plan, i, promoted, interrupted) && Recorded(plan, VersionInstalled, interrupted, finished)
    ensures Expected(plan) != [] && !Tidy(Expected(plan), Trail(finished))
  {
    var p, xs := Expected(plan), finished[|promoted|..];
    RecordedReconciles(plan, interrupted, finished);
    ExpectedDistinct(plan);
    ExpectedAt(plan, plan.before, 0);
    ExpectedAt(plan, plan.before, i);
    hide Expected, Recorded, Trail, E.Distinct, DistinctProviders, Tidy;
    assert finished == promoted + xs;
    assert xs == interrupted[|promoted|..] + finished[|interrupted|..];
    assert xs[0] == interrupted[|promoted|] && xs[i] == interrupted[|promoted| + i] &&
      xs[i + 1] == interrupted[|promoted| + i + 1];
    DoubledUntidy(p, promoted, xs, i);
  }

  /** The live run as far as version-installed, where the process dies. */
  method StopInstalled(w: World, m: Mission)
    requires Inv(m, w.Now(), w.journal.files) && m.plan.runId !in w.journal.files
    requires Journalable(m) && |m.start.evidence| + |m.plan.before| <= MAX_EVENTS
    modifies w`providers, w`installed, w.journal
    ensures Inv(m, w.Now(), w.journal.files) && m.plan.runId in w.journal.files
    ensures PhaseOf(m, w.journal.files) == VersionInstalled
    ensures Extends(m.plan.before, E.Promote, m.start.evidence, w.journal.files[m.plan.runId].transaction.evidence)
  {
    BegunCore(m);
    hide *;
    var o, t := BeginStep(w, m, true);
    o, t := InstallStep(w, m, t, false, true);
    LiveInv(m, w.Now(), w.journal.files, t);
  }

  /** A restart whose check of provider `i` passes, whose report of it cannot be written, and whose failed report
    can: the moves of ReconcileAtStartup, with these fates. */
  method RestartInterrupted(w: World, m: Mission, i: nat)
    requires Inv(m, w.Now(), w.journal.files) && m.plan.runId in w.journal.files
    requires PhaseOf(m, w.journal.files) == VersionInstalled
    requires i < |m.plan.before| && |w.journal.files[m.plan.runId].transaction.evidence| + i + 2 <= MAX_EVENTS
    modifies w.journal
    ensures Inv(m, w.Now(), w.journal.files) && m.plan.runId in w.journal.files
    ensures PhaseOf(m, w.journal.files) == VersionInstalled
    ensures Interrupted(m.plan, i, old(w.journal.files)[m.plan.runId].transaction.evidence,
                        w.journal.files[m.plan.runId].transaction.evidence)
  {
    ScopeBound(m, w.Now(), w.journal.files, m.scope);
    StoredLive(m, w.Now(), w.journal.files);
    hide *;
    var bound := w.journal.BindExternalActionScope(m.plan.runId, m.scope, true);
    var t := bound.value.transaction.(recovered := true, recoveryError := false);
    InstalledFacts(m, w.Now(), w.journal.files, t);
    var verified := w.VerifyInstalledPromotion(m, TargetCanonical(m.plan), true);
    LiveEvidenced(m, w.Now(), w.journal.files, t);
    PassStarts(m.plan, E.Reconcile, m.plan.before, t.evidence);
    var o, current := ReconcileFirst(w, m, m.plan.before, i, t, true);
    var call := w.ReconcileProvider(m.plan.before[i], true);
    LiveMission(m, w.Now(), w.journal.files, current);
    var next;
    o, next := Report(w, m, E.Reconcile, m.plan.before, i, current, call, true, ThrowBefore, Calm);
    InterruptedBy(m.plan, i, t.evidence, current.evidence, next.evidence);
    LiveInv(m, w.Now(), w.journal.files, next);
    var recorded := RecordError(w, m, true);
  }

  /** Three moves of the program leave a journal that no restart can read: a run that stops at version-installed, a
    restart in which the report of any provider but the first is doubled, and one in calm weather that finishes and
    stops before its decision is published. */
  method DoubledJournal(w: World, m: Mission, i: nat)
    requires Inv(m, w.Now(), w.journal.files) && m.plan.runId !in w.journal.files
    requires m.plan.after == [] && 0 < i < |m.plan.before| && Journalable(m) && Deliverable(m, w.Now())
    requires |m.start.evidence| + 3 * |m.plan.before| + i + 2 <= MAX_EVENTS
    modifies w, w.journal
    ensures Wedged(m, w.Now(), w.journal.files) && w.authority == None
  {
    InvAuthorityNone(m, w.Now(), w.journal.files);
    InvMission(m, w.Now(), w.journal.files);
    MissionDistinct(m);
    hide *;
    StopInstalled(w, m);
    ghost var promoted := w.journal.files[m.plan.runId].transaction.evidence;
    ExtendsLength(m.plan.before, E.Promote, m.start.evidence, promoted);
    PromotedQuiet(m.plan.before, m.start.evidence, promoted);
    RestartInterrupted(w, m, i);
    ghost var interrupted := w.journal.files[m.plan.runId].transaction.evidence;
    InterruptedRoom(m, w.Now(), w.journal.files, i, promoted);
    DeliverableSame(m, old(w.Now()), w.Now());
    var o := ReconcileAtStartup(w, m, m.scope, true);
    DoubledEvidence(m.plan, i, promoted, interrupted, o.value.evidence);
    StandsInv(m, w.Now(), w.journal.files, VersionInstalled);
    ReadableWhen(m, w.Now(), w.journal.files);
    WedgedMeans(m, w.Now(), w.journal.files, m.scope);
  }

  lemma MissionDistinct(m: Mission)
    requires WellFormed(m)
    ensures DistinctProviders(m.plan.before + m.plan.after)
  {
  }

  /** The restart behind the interrupted one has room. */
  lemma InterruptedRoom(m: Mission, s: Outside, files: Files, i: nat, promoted: E.Events)
    requires Inv(m, s, files) && m.plan.runId in files && PhaseOf(m, files) == VersionInstalled
    requires m.plan.after == [] && i < |m.plan.before|
    requires Interrupted(m.plan, i, promoted, files[m.plan.runId].transaction.evidence)
    requires |promoted| + i + 2 + 2 * |m.plan.before| <= MAX_EVENTS
    ensures Deliverable(m, s) ==> CanFinish(m, s, files, m.scope)
  {
    CanFinishAt(m, s, files, m.scope);
    hide Inv, Deliverable, CanFinish;
    assert |files[m.plan.runId].transaction.evidence| == |promoted| + i + 2;
    assert Needed(m, VersionInstalled) == 2 * |m.plan.before|;
  }

  /** It is never read again: whatever the weather, no later restart returns. */
  method StaysWedged(w: World, m: Mission, scopes: seq<string>) returns (returned: bool)
    requires Wedged(m, w.Now(), w.journal.files)
    modifies w, w.journal
    ensures Wedged(m, w.Now(), w.journal.files) && w.authority == old(w.authority) && !returned
  {
    hide *;
    returned := false;
    for n := 0 to |scopes|
      invariant Wedged(m, w.Now(), w.journal.files) && w.authority == old(w.authority) && !returned
    {
      WedgedMeans(m, w.Now(), w.journal.files, scopes[n]);
      var o := ReconcileAtStartup(w, m, scopes[n], false);
      returned := returned || o.Ok?;
    }
  }
}
