/** The steps that the first run of a Promotion and its recovery share.

  Every method returns with its phase invariant standing, whether it succeeded, threw or
  lost the process at any durable step: that is the safety over whole runs. `calm` means
  that nothing goes wrong, and then the methods also promise success.
*/
module PromotionSteps {
  import opened Faults
  import opened PromotionEvidence
  import opened PromotionJournals
  import opened PromotionWorld
  import opened RecoveryTrail
  import E = RecoveryEvents

  /** Writing a fitting transaction keeps the invariant, whether or not the write happened. */
  method Update(w: World, m: Mission, t: Transaction, fate: Fate) returns (o: Outcome<Transaction>)
    requires Live(m, w.Now(), w.journal.files, t)
    modifies w.journal
    ensures Live(m, w.Now(), w.journal.files, t) && PhaseOf(m, w.journal.files) == PhaseOf(m, old(w.journal.files))
    ensures o.Ok? ==> o.value == t && w.journal.files[m.plan.runId].transaction == t && |t.evidence| <= MAX_EVENTS
    ensures fate.Calm? && |t.evidence| <= MAX_EVENTS && Agrees(m, t) ==> o.Ok?
    ensures fate.ThrowBefore? ==> o.Thrown?
    ensures w.journal.files.Keys == old(w.journal.files.Keys)
  {
    UpdateAllowed(m, w.Now(), w.journal.files, t);
    LiveMission(m, w.Now(), w.journal.files, t);
    hide Live, PhaseOf, Agrees, ValidFiles, Performs, UpdateMove, OnlyForward;
    ghost var before := w.journal.files;
    var r := w.journal.UpdateTransaction(m.plan.runId, t, fate);
    UpdateKeeps(m, w.Now(), before, t, w.journal.files, r);
    o := match r case Ok(record) => Ok(record.transaction) case Thrown => Thrown case Crashed => Crashed;
  }

  lemma UpdateAllowed(m: Mission, s: Outside, files: Files, t: Transaction)
    requires Live(m, s, files, t)
    ensures |t.evidence| <= MAX_EVENTS && Agrees(m, t) ==> !UpdateMove(files, m.plan.runId, t).Refuse?
  {
  }

  lemma UpdateKeeps(m: Mission, s: Outside, files: Files, t: Transaction, after: Files, r: Outcome<Record>)
    requires Live(m, s, files, t) && ValidFiles(after) && Performs(UpdateMove(files, m.plan.runId, t), files, after, r)
    ensures Live(m, s, after, t) && PhaseOf(m, after) == PhaseOf(m, files)
    ensures r.Ok? ==>
      r.value.transaction == t && m.plan.runId in after && after[m.plan.runId].transaction == t &&
      |t.evidence| <= MAX_EVENTS
  {
    hide Evidenced, AuthorityFits, WellFormed, Advances, Covers, Provides, TargetCanonical, Targets, Reached;
  }

  /** Other evidence leaves a live transaction live, until the journal is completed. */
  lemma LiveEvent(m: Mission, s: Outside, files: Files, t: Transaction, evidence: E.Events)
    requires Live(m, s, files, t) && PhaseOf(m, files) != Completed && Evidenced(m.plan, evidence)
    ensures Live(m, s, files, t.(evidence := evidence))
  {
    hide WellFormed, ValidFiles, CoreAt, Advances, Covers, Evidenced;
  }

  /** One more provider event: bounded, and durable only during recovery. */
  method NoteEvent(w: World, m: Mission, t: Transaction, e: E.Event, recovering: bool, fate: Fate)
    returns (o: Outcome<()>, next: Transaction)
    requires Live(m, w.Now(), w.journal.files, t) && PhaseOf(m, w.journal.files) != Completed
    requires Evidenced(m.plan, t.evidence + [e])
    modifies w.journal
    ensures Live(m, w.Now(), w.journal.files, next) && PhaseOf(m, w.journal.files) == PhaseOf(m, old(w.journal.files))
    ensures next == t.(evidence := if |t.evidence| < MAX_EVENTS then t.evidence + [e] else t.evidence)
    ensures o.Ok? ==> |t.evidence| < MAX_EVENTS && (recovering ==> w.journal.files[m.plan.runId].transaction == next)
    ensures fate.Calm? && |t.evidence| < MAX_EVENTS && Agrees(m, t) ==> o.Ok?
    ensures fate.ThrowBefore? ==> o.Thrown?
  {
    if |t.evidence| >= MAX_EVENTS {
      return Thrown, t;
    }
    hide Live, Evidenced;
    LiveEvent(m, w.Now(), w.journal.files, t, t.evidence + [e]);
    next := t.(evidence := t.evidence + [e]);
    if recovering {
      var r := Update(w, m, next, fate);
      o := match r case Ok(_) => Ok(()) case Thrown => Thrown case Crashed => Crashed;
    } else {
      o := Ends(fate, ());
    }
  }

  /** How the coordinator reports a provider call: passed, or failed when the call or the report threw. `noted` and
    `again` are the fates of the two reports. */
  method Report(w: World, m: Mission, stage: E.Stage, plans: seq<ResourcePlan>, i: nat, t: Transaction,
                call: Outcome<string>, recovering: bool, noted: Fate, again: Fate)
    returns (o: Outcome<()>, next: Transaction)
    requires Live(m, w.Now(), w.journal.files, t) && PhaseOf(m, w.journal.files) != Completed && WellFormed(m)
    requires stage in {E.Promote, E.Reconcile} && i < |plans| && Part(m.plan, plans)
    requires InPass(m.plan, stage, plans, i, t.evidence)
    modifies w.journal
    ensures Live(m, w.Now(), w.journal.files, next) && PhaseOf(m, w.journal.files) == PhaseOf(m, old(w.journal.files))
    ensures next == t.(evidence := next.evidence)
    ensures o.Ok? ==> call.Ok? && Adds(plans[i], stage, t.evidence, next.evidence) && |next.evidence| <= MAX_EVENTS
    ensures o.Ok? ==> InPass(m.plan, stage, plans, i + 1, next.evidence)
    ensures noted.Calm? && call.Ok? && |t.evidence| < MAX_EVENTS && Agrees(m, t) ==> o.Ok?
    ensures noted.ThrowBefore? && again.Calm? && call.Ok? && recovering && |t.evidence| + 2 <= MAX_EVENTS ==>
      Agrees(m, t) ==>
      o.Thrown? && AddsBoth(plans[i], stage, t.evidence, next.evidence) &&
      w.journal.files[m.plan.runId].transaction == next
  {
    hide Live, PhaseOf, Evidenced, InPass, DistinctProviders, Agrees;
    var detail: string := *;
    FailedKeeps(m.plan, stage, plans, i, t.evidence, detail);
    if call.Crashed? {
      return Crashed, t;
    }
    next := t;
    var failed := Reported(plans[i], stage, E.Failed, detail);
    if call.Ok? {
      var passed := Reported(plans[i], stage, E.Passed, detail);
      PassedKeeps(m.plan, stage, plans, i, t.evidence, detail);
      PassEvidenced(m.plan, stage, plans, i + 1, t.evidence + [passed]);
      o, next := NoteEvent(w, m, t, passed, recovering, noted);
      if !o.Thrown? {
        return;
      }
      if next != t { DoubledKeeps(m.plan, stage, plans, i, next.evidence, detail); }
      AgreesSame(m, t, next);
    }
    o, next := NoteEvent(w, m, next, failed, recovering, again);
    if o.Ok? {
      o := Thrown;
    }
  }

  lemma PassEvidenced(plan: Plan, stage: E.Stage, plans: seq<ResourcePlan>, i: nat, evidence: E.Events)
    requires i <= |plans| && Part(plan, plans) && InPass(plan, stage, plans, i, evidence)
    ensures Evidenced(plan, evidence)
  {
  }

  lemma {:induction false} TargetOwner(p: seq<ResourcePlan>, id: string) returns (i: nat)
    requires id in Targets(p)
    ensures i < |p| && p[i].provider == id
  {
    if p[|p| - 1].provider == id {
      i := |p| - 1;
    } else {
      i := TargetOwner(p[..|p| - 1], id);
    }
  }

  lemma {:induction false} TargetsAt(p: seq<ResourcePlan>, i: nat)
    requires DistinctProviders(p) && i < |p|
    ensures p[i].provider in Targets(p) && Targets(p)[p[i].provider] == p[i].target
  {
    if i < |p| - 1 {
      TargetsAt(p[..|p| - 1], i);
      assert p[..|p| - 1][i] == p[i];
    }
  }

  /** Every provider of the plan was seen at the version planned for it, and no other provider at all. */
  lemma FinalInstalled(m: Mission, t: Transaction, receipts: map<string, string>)
    requires WellFormed(m) && Final(m, t, receipts)
    ensures forall q | q in m.plan.before || q in m.plan.after ::
      q.provider in t.installed && t.installed[q.provider] == q.target
    ensures forall id | id in t.installed :: exists q | q in m.plan.before + m.plan.after :: q.provider == id
  {
    var all := m.plan.before + m.plan.after;
    forall q | q in all ensures q.provider in t.installed && t.installed[q.provider] == q.target {
      var i :| 0 <= i < |all| && all[i] == q;
      TargetsAt(all, i);
    }
    assert forall q | q in m.plan.before || q in m.plan.after :: q in all;
    forall id | id in t.installed ensures exists q | q in all :: q.provider == id {
      var i := TargetOwner(all, id);
      assert all[i] in all;
    }
  }

  /** The record of a completed Promotion holds the manifest that Canonical was advanced to. */
  lemma CompletedManifest(m: Mission, s: Outside, files: Files)
    requires Inv(m, s, files) && m.plan.runId in files && PhaseOf(m, files) == Completed
    ensures var r := files[m.plan.runId];
      && r.target.Some? && r.target.value.stateId == m.plan.targetState && r.plan == m.plan && r.scope == Some(m.scope)
      && forall q | q in m.plan.before + m.plan.after ::
           q.provider in r.target.value.versions && r.target.value.versions[q.provider] == q.target
  {
    var all := m.plan.before + m.plan.after;
    forall q | q in all ensures q.provider in Targets(all) && Targets(all)[q.provider] == q.target {
      var i :| 0 <= i < |all| && all[i] == q;
      TargetsAt(all, i);
    }
    assert ValidRecord(files[m.plan.runId]);
    hide Fits, Reached, Targets;
  }

  ghost predicate Planned(m: Mission, q: ResourcePlan) { q in m.plan.before + m.plan.after }

  lemma OnePlanEach(m: Mission, a: ResourcePlan, b: ResourcePlan)
    requires WellFormed(m) && Planned(m, a) && Planned(m, b)
    ensures a.provider == b.provider ==> a == b
  {
    var p := m.plan.before + m.plan.after;
    var k :| 0 <= k < |p| && p[k] == a;
    var l :| 0 <= l < |p| && p[l] == b;
    assert k == l || p[k].provider != p[l].provider;
  }

  /** Promoting a planned provider never undoes another. */
  lemma ProvidesKept(m: Mission, providers: map<string, string>, q: ResourcePlan, plans: seq<ResourcePlan>)
    requires WellFormed(m) && Planned(m, q) && AllPlanned(m, plans)
    ensures Provides(providers, plans) ==> Provides(providers[q.provider := q.target], plans)
  {
    forall i | 0 <= i < |plans| ensures plans[i].provider == q.provider ==> plans[i].target == q.target {
      OnePlanEach(m, plans[i], q);
    }
  }

  ghost predicate AllPlanned(m: Mission, plans: seq<ResourcePlan>) {
    forall i | 0 <= i < |plans| :: Planned(m, plans[i])
  }

  lemma PartsPlanned(m: Mission)
    ensures AllPlanned(m, m.plan.before) && AllPlanned(m, m.plan.after)
  {
    var p := m.plan.before + m.plan.after;
    forall i | 0 <= i < |m.plan.before| ensures Planned(m, m.plan.before[i]) { assert p[i] == m.plan.before[i]; }
    forall i | 0 <= i < |m.plan.after| ensures Planned(m, m.plan.after[i]) {
      assert p[|m.plan.before| + i] == m.plan.after[i];
    }
  }

  /** The first `i` providers of a pass are as planned and reported. */
  ghost predicate Through(m: Mission, s: Outside, files: Files, stage: E.Stage, plans: seq<ResourcePlan>, i: nat,
                          t: Transaction, next: Transaction)
    requires i <= |plans| && Part(m.plan, plans)
  {
    && Live(m, s, files, next) && PhaseOf(m, files) != Completed
    && next == t.(evidence := next.evidence)
    && |next.evidence| == |t.evidence| + i && (i > 0 ==> |next.evidence| <= MAX_EVENTS)
    && Extends(plans[..i], stage, t.evidence, next.evidence)
    && InPass(m.plan, stage, plans, i, next.evidence)
    && Provides(s.providers, plans[..i])
  }

  method PromoteOne(w: World, m: Mission, plans: seq<ResourcePlan>, i: nat, ghost t: Transaction, current: Transaction,
                    recovering: bool, calm: bool)
    returns (o: Outcome<()>, next: Transaction)
    requires i < |plans| && Part(m.plan, plans) && AllPlanned(m, plans)
    requires Through(m, w.Now(), w.journal.files, E.Promote, plans, i, t, current) && Agrees(m, t)
    modifies w`providers, w.journal
    ensures Live(m, w.Now(), w.journal.files, next) && PhaseOf(m, w.journal.files) == PhaseOf(m, old(w.journal.files))
    ensures next == t.(evidence := next.evidence)
    ensures o.Ok? ==> Through(m, w.Now(), w.journal.files, E.Promote, plans, i + 1, t, next)
    ensures calm && |t.evidence| + i < MAX_EVENTS ==> o.Ok?
  {
    LiveMission(m, w.Now(), w.journal.files, current);
    hide Live, PhaseOf, WellFormed, ValidFiles, Provides, AllPlanned, InPass, Agrees, Extends;
    ghost var before := w.Now();
    var q := plans[i];
    ProvidesOne(m, w.providers, plans, i);
    LiveProvider(m, before, w.journal.files, current, q);
    var call := w.PromoteProvider(q, calm);
    assert w.Now() == before || w.Now() == before.(providers := before.providers[q.provider := q.target]);
    AgreesSame(m, t, current);
    var noted := Next(calm);
    var again := Next(calm);
    o, next := Report(w, m, E.Promote, plans, i, current, call, recovering, noted, again);
    if o.Ok? { ExtendsMore(plans, i, E.Promote, t.evidence, current.evidence, next.evidence); }
  }

  lemma LiveProvider(m: Mission, s: Outside, files: Files, t: Transaction, q: ResourcePlan)
    requires Live(m, s, files, t) && Planned(m, q)
    ensures Live(m, s.(providers := s.providers[q.provider := q.target]), files, t)
  {
    hide Provides, WellFormed, ValidFiles, CoreAt, Covers, Planned, AllPlanned, Advances;
    PartsPlanned(m);
    ProvidesKept(m, s.providers, q, m.plan.before);
    ProvidesKept(m, s.providers, q, m.plan.after);
  }

  /** The versions a promotion pass returns are the planned ones. */
  lemma MergedVersions(m: Mission, t: Transaction, plans: seq<ResourcePlan>)
    requires WellFormed(m) && Agrees(m, t) && Part(m.plan, plans)
    ensures Agrees(m, t.(installed := t.installed + Targets(plans))) && Covers(t.installed + Targets(plans), plans)
  {
    DistinctPart(m, plans);
    var all := m.plan.before + m.plan.after;
    hide WellFormed, DistinctProviders, Targets;
    forall i | 0 <= i < |plans| ensures plans[i].provider in Targets(plans) { TargetsAt(plans, i); }
    forall id | id in Targets(plans) ensures id in Targets(all) && Targets(plans)[id] == Targets(all)[id] {
      var i := TargetOwner(plans, id);
      VersionOfPart(m, plans, i);
    }
  }

  lemma VersionOfPart(m: Mission, plans: seq<ResourcePlan>, i: nat)
    requires WellFormed(m) && (plans == m.plan.before || plans == m.plan.after) && i < |plans|
    ensures var all := m.plan.before + m.plan.after;
      plans[i].provider in Targets(all) && plans[i].provider in Targets(plans) &&
      Targets(all)[plans[i].provider] == Targets(plans)[plans[i].provider] == plans[i].target
  {
    hide Targets, DistinctProviders;
    var all := m.plan.before + m.plan.after;
    var k := if plans == m.plan.before then i else |m.plan.before| + i;
    assert all[k] == plans[i];
    TargetsAt(all, k);
    DistinctPart(m, plans);
    TargetsAt(plans, i);
  }

  lemma DistinctPart(m: Mission, plans: seq<ResourcePlan>)
    requires WellFormed(m) && (plans == m.plan.before || plans == m.plan.after)
    ensures DistinctProviders(plans)
  {
    var all, shift := m.plan.before + m.plan.after, if plans == m.plan.before then 0 else |m.plan.before|;
    forall i, j | 0 <= i < j < |plans| ensures plans[i].provider != plans[j].provider {
      assert all[shift + i] == plans[i] && all[shift + j] == plans[j];
    }
  }

  /** promoteBeforeCanonical or promoteAfterCanonical, then the merge of the versions returned. */
  method PromoteVisible(w: World, m: Mission, plans: seq<ResourcePlan>, t: Transaction, recovering: bool, calm: bool)
    returns (o: Outcome<()>, next: Transaction)
    requires Live(m, w.Now(), w.journal.files, t) && PhaseOf(m, w.journal.files) != Completed
    requires Part(m.plan, plans) && Agrees(m, t)
    modifies w`providers, w.journal
    ensures Live(m, w.Now(), w.journal.files, next) && PhaseOf(m, w.journal.files) == PhaseOf(m, old(w.journal.files))
    ensures Agrees(m, next)
    ensures next == t.(evidence := next.evidence, installed := next.installed)
    ensures o.Ok? ==>
      Provides(w.providers, plans) && Covers(next.installed, plans) && |next.evidence| == |t.evidence| + |plans|
    ensures o.Ok? ==> Extends(plans, E.Promote, t.evidence, next.evidence)
    ensures o.Ok? && plans != [] ==> |next.evidence| <= MAX_EVENTS && Trail(next.evidence) == []
    ensures calm && |t.evidence| + |plans| <= MAX_EVENTS ==> o.Ok?
  {
    hide *;
    ThroughNone(m, w.Now(), w.journal.files, plans, t);
    next := t;
    var i := 0;
    while i < |plans|
      invariant i <= |plans|
      invariant PhaseOf(m, w.journal.files) == PhaseOf(m, old(w.journal.files))
      invariant Through(m, w.Now(), w.journal.files, E.Promote, plans, i, t, next)
    {
      o, next := PromoteOne(w, m, plans, i, t, next, recovering, calm);
      if !o.Ok? {
        AgreesSame(m, t, next);
        return;
      }
      i := i + 1;
    }
    ThroughAll(m, w.Now(), w.journal.files, plans, t, next);
    return Ok(()), next.(installed := t.installed + Targets(plans));
  }

  lemma ThroughNone(m: Mission, s: Outside, files: Files, plans: seq<ResourcePlan>, t: Transaction)
    requires Live(m, s, files, t) && PhaseOf(m, files) != Completed && Part(m.plan, plans)
    ensures Through(m, s, files, E.Promote, plans, 0, t, t) && AllPlanned(m, plans)
  {
    PartsPlanned(m);
    NoneProvided(s.providers, plans);
    LiveEvidenced(m, s, files, t);
    hide Live, Evidenced, InPass;
    PassStarts(m.plan, E.Promote, plans, t.evidence);
    ExtendsNone(plans, E.Promote, t.evidence);
  }

  lemma LiveEvidenced(m: Mission, s: Outside, files: Files, t: Transaction)
    requires Live(m, s, files, t)
    ensures Evidenced(m.plan, t.evidence)
  {
  }

  /** After the pass the versions it returned are merged. */
  lemma ThroughAll(m: Mission, s: Outside, files: Files, plans: seq<ResourcePlan>, t: Transaction, next: Transaction)
    requires Part(m.plan, plans) && Through(m, s, files, E.Promote, plans, |plans|, t, next) && Agrees(m, t)
    ensures Provides(s.providers, plans) && next == t.(evidence := next.evidence)
    ensures |next.evidence| == |t.evidence| + |plans|
    ensures Extends(plans, E.Promote, t.evidence, next.evidence)
    ensures plans != [] ==> |next.evidence| <= MAX_EVENTS && Trail(next.evidence) == []
    ensures var u := next.(installed := t.installed + Targets(plans));
      Live(m, s, files, u) && Agrees(m, u) && Covers(u.installed, plans)
  {
    hide Provides, Targets, Agrees, Covers, Trail, Evidenced, Live, PhaseOf, Extends;
    assert plans[..|plans|] == plans;
    AgreesSame(m, t, next);
    LiveMission(m, s, files, next);
    MergedVersions(m, next, plans);
    LiveMerge(m, s, files, next, Targets(plans));
  }

  lemma AgreesSame(m: Mission, t: Transaction, u: Transaction)
    requires u.installed == t.installed
    ensures Agrees(m, t) <==> Agrees(m, u)
  {
  }

  lemma NoneProvided(providers: map<string, string>, plans: seq<ResourcePlan>)
    ensures Provides(providers, plans[..0])
  {
  }

  lemma ProvidesOne(m: Mission, providers: map<string, string>, plans: seq<ResourcePlan>, i: nat)
    requires WellFormed(m) && i < |plans| && AllPlanned(m, plans)
    ensures Planned(m, plans[i])
    ensures Provides(providers, plans[..i]) ==>
      Provides(providers[plans[i].provider := plans[i].target], plans[..i + 1])
  {
    ProvidesKept(m, providers, plans[i], plans[..i]);
    assert plans[..i + 1] == plans[..i] + [plans[i]];
  }

  lemma LiveMission(m: Mission, s: Outside, files: Files, t: Transaction)
    requires Live(m, s, files, t)
    ensures WellFormed(m) && ValidFiles(files) && m.plan.runId in files
  {
  }

  lemma LivePhase(m: Mission, s: Outside, files: Files, t: Transaction)
    requires Live(m, s, files, t)
    ensures t.core.phase.Some?
  {
  }

  lemma LiveMerge(m: Mission, s: Outside, files: Files, t: Transaction, versions: map<string, string>)
    requires Live(m, s, files, t)
    ensures Live(m, s, files, t.(installed := t.installed + versions))
  {
  }

  // ---- What each outside step keeps ----

  lemma LiveInstalled(m: Mission, s: Outside, files: Files, t: Transaction)
    requires Live(m, s, files, t)
    ensures Live(m, s.(installed := s.installed + {m.plan.targetState}), files, t)
  {
  }

  lemma LiveCanonical(m: Mission, s: Outside, files: Files, t: Transaction)
    requires Live(m, s, files, t) && Index(PhaseOf(m, files)) >= 1
    ensures Live(m, s.(canonical := m.plan.targetState), files, t)
    ensures s.canonical == m.plan.sourceState || s.canonical == m.plan.targetState
    ensures m.plan.targetState in s.installed
  {
  }

  lemma LiveReceipts(m: Mission, s: Outside, files: Files, t: Transaction, receipts: map<string, string>)
    requires Live(m, s, files, t) && Index(PhaseOf(m, files)) >= 2
    requires s.receipts.Keys <= receipts.Keys <= KeySet(m) && forall k | k in s.receipts :: receipts[k] == s.receipts[k]
    ensures Live(m, s.(receipts := receipts), files, t)
  {
    if Done(PhaseOf(m, files)) {
      assert receipts.Keys == s.receipts.Keys;
      assert receipts == s.receipts;
    }
  }

  lemma {:induction false} AdvanceNoted(events: seq<RunEvent>)
    ensures CanonicalAdvance in events <==> Advances(events) > 0
  {
    if events != [] {
      AdvanceNoted(events[..|events| - 1]);
      assert events == events[..|events| - 1] + [events[|events| - 1]];
    }
  }

  /** Recording the canonical advance twice is recording it once. */
  lemma LiveAdvance(m: Mission, s: Outside, files: Files, t: Transaction)
    requires Live(m, s, files, t) && s.canonical == m.plan.targetState && 1 <= Index(PhaseOf(m, files)) <= 2
    ensures var u := RecordCanonicalAdvance(t, m.plan.targetState);
      && Live(m, s, files, u) && Advances(u.events) == 1
      && RecordCanonicalAdvance(u, m.plan.targetState) == u
      && (Advances(t.events) == 1 ==> u == t)
  {
    AdvanceNoted(t.events);
    AdvancesPush(t.events, CanonicalAdvance);
  }

  // ---- A step of the journal ----

  /** The journal's own transaction has seen no more installed than `t` has, and `t` calls
    itself promoted only if Canonical has moved. */
  ghost predicate Evident(m: Mission, s: Outside, files: Files, t: Transaction) {
    && Inv(m, s, files) && m.plan.runId in files
    && (t.core.disposition == Some(Promoted) ==> s.canonical == m.plan.targetState)
    && files[m.plan.runId].transaction.installed.Keys <= t.installed.Keys
    && Evidenced(m.plan, t.evidence)
  }

  lemma LiveEvident(m: Mission, s: Outside, files: Files, t: Transaction)
    requires Live(m, s, files, t)
    ensures Evident(m, s, files, t)
  {
  }

  function AtPhase(t: Transaction, phase: Phase): (u: Transaction)
    ensures u.core.phase == Some(phase) && SameLog(t, u)
  {
    InPhase(t, phase).(recoveryError := false)
  }

  lemma StepKeeps(m: Mission, s: Outside, files: Files, phase: Phase, t: Transaction, after: Files, r: Outcome<Record>)
    requires Evident(m, s, files, t) && Index(phase) == Index(PhaseOf(m, files)) + 1
    requires Reached(m, s, phase) && Fits(m, s, phase, AtPhase(t, phase)) && ValidFiles(after)
    requires Performs(AdvanceMove(files, m.plan.runId, phase, t, Some(TargetCanonical(m.plan))), files, after, r)
    ensures Evident(m, s, after, t)
    ensures PhaseOf(m, after) == PhaseOf(m, files) || PhaseOf(m, after) == phase
    ensures r.Ok? ==>
      r.value.transaction == AtPhase(t, phase) && Live(m, s, after, AtPhase(t, phase)) && PhaseOf(m, after) == phase
    ensures r.Ok? ==> m.plan.runId in after && after[m.plan.runId].transaction == AtPhase(t, phase)
    ensures r.Ok? ==> |t.evidence| <= MAX_EVENTS
  {
    hide Evidenced, WellFormed, CoreAt, Advances, Covers, Provides, TargetCanonical, Targets;
  }

  method AdvanceTo(w: World, m: Mission, phase: Phase, t: Transaction, calm: bool) returns (o: Outcome<Transaction>)
    requires Evident(m, w.Now(), w.journal.files, t) && Index(phase) == Index(PhaseOf(m, w.journal.files)) + 1
    requires Reached(m, w.Now(), phase) && Fits(m, w.Now(), phase, AtPhase(t, phase))
    modifies w.journal
    ensures Evident(m, w.Now(), w.journal.files, t)
    ensures PhaseOf(m, w.journal.files) in {PhaseOf(m, old(w.journal.files)), phase}
    ensures o.Ok? ==> o.value == AtPhase(t, phase) && Live(m, w.Now(), w.journal.files, o.value)
    ensures o.Ok? ==>
      Evident(m, w.Now(), w.journal.files, o.value) && w.journal.files[m.plan.runId].transaction == o.value
    ensures o.Ok? ==> PhaseOf(m, w.journal.files) == phase && |t.evidence| <= MAX_EVENTS
    ensures calm && |t.evidence| <= MAX_EVENTS && Agrees(m, t) ==> o.Ok?
  {
    AdvanceAllowed(m, w.Now(), w.journal.files, phase, t);
    EvidentMission(m, w.Now(), w.journal.files, t);
    hide Live, Reached, Fits, Agrees, ValidFiles, AdvanceMove, Performs, TargetCanonical, Evident, PhaseOf;
    ghost var before := w.journal.files;
    var r := w.journal.Advance(m.plan.runId, phase, t, Some(TargetCanonical(m.plan)), calm);
    StepKeeps(m, w.Now(), before, phase, t, w.journal.files, r);
    if r.Ok? { LiveEvident(m, w.Now(), w.journal.files, r.value.transaction); }
    o := match r case Ok(record) => Ok(record.transaction) case Thrown => Thrown case Crashed => Crashed;
  }

  lemma EvidentMission(m: Mission, s: Outside, files: Files, t: Transaction)
    requires Evident(m, s, files, t)
    ensures WellFormed(m) && ValidFiles(files) && m.plan.runId in files
  {
  }

  lemma EvidentInv(m: Mission, s: Outside, files: Files, t: Transaction)
    requires Evident(m, s, files, t)
    ensures Inv(m, s, files) && m.plan.runId in files
  {
  }

  lemma AdvanceAllowed(m: Mission, s: Outside, files: Files, phase: Phase, t: Transaction)
    requires Evident(m, s, files, t) && Index(phase) == Index(PhaseOf(m, files)) + 1
    ensures |t.evidence| <= MAX_EVENTS && Agrees(m, t) ==>
      !AdvanceMove(files, m.plan.runId, phase, t, Some(TargetCanonical(m.plan))).Refuse?
  {
  }

  /** Recovery's check of one visibility: every provider must report its planned version. */
  method ReconcileVisible(w: World, m: Mission, plans: seq<ResourcePlan>, t: Transaction, calm: bool)
    returns (o: Outcome<()>, next: Transaction)
    requires Live(m, w.Now(), w.journal.files, t) && PhaseOf(m, w.journal.files) != Completed && Agrees(m, t)
    requires Part(m.plan, plans) && InPass(m.plan, E.Reconcile, plans, 0, t.evidence)
    modifies w.journal
    ensures Live(m, w.Now(), w.journal.files, next) && PhaseOf(m, w.journal.files) == PhaseOf(m, old(w.journal.files))
    ensures Agrees(m, next)
    ensures next == t.(evidence := next.evidence)
    ensures o.Ok? ==> Provides(w.providers, plans) && |next.evidence| == |t.evidence| + |plans|
    ensures o.Ok? ==> Extends(plans, E.Reconcile, t.evidence, next.evidence)
    ensures o.Ok? && plans != [] ==> |next.evidence| <= MAX_EVENTS
    ensures calm && Provides(w.providers, plans) && |t.evidence| + |plans| <= MAX_EVENTS ==> o.Ok?
  {
    o, next := ReconcileFirst(w, m, plans, |plans|, t, calm);
    assert plans[..|plans|] == plans;
  }

  /** The loop over the providers, as far as the first `n`. */
  method ReconcileFirst(w: World, m: Mission, plans: seq<ResourcePlan>, n: nat, t: Transaction, calm: bool)
    returns (o: Outcome<()>, next: Transaction)
    requires Live(m, w.Now(), w.journal.files, t) && PhaseOf(m, w.journal.files) != Completed && Agrees(m, t)
    requires n <= |plans| && Part(m.plan, plans) && InPass(m.plan, E.Reconcile, plans, 0, t.evidence)
    modifies w.journal
    ensures Live(m, w.Now(), w.journal.files, next) && PhaseOf(m, w.journal.files) == PhaseOf(m, old(w.journal.files))
    ensures Agrees(m, next)
    ensures next == t.(evidence := next.evidence)
    ensures o.Ok? ==> Through(m, w.Now(), w.journal.files, E.Reconcile, plans, n, t, next)
    ensures calm && Provides(w.providers, plans) && |t.evidence| + n <= MAX_EVENTS ==> o.Ok?
  {
    NoneProvided(w.providers, plans);
    ExtendsNone(plans, E.Reconcile, t.evidence);
    hide Live, PhaseOf, Agrees, Provides, InPass, Extends;
    next := t;
    for i := 0 to n
      invariant PhaseOf(m, w.journal.files) == PhaseOf(m, old(w.journal.files))
      invariant Through(m, w.Now(), w.journal.files, E.Reconcile, plans, i, t, next)
    {
      o, next := ReconcileOne(w, m, plans, i, t, next, calm);
      if !o.Ok? {
        AgreesSame(m, t, next);
        return;
      }
    }
    AgreesSame(m, t, next);
    return Ok(()), next;
  }

  lemma ProvidedOne(providers: map<string, string>, plans: seq<ResourcePlan>, i: nat)
    requires i < |plans| && Provides(providers, plans[..i])
    ensures plans[i].provider in providers && providers[plans[i].provider] == plans[i].target ==>
      Provides(providers, plans[..i + 1])
    ensures Provides(providers, plans) ==>
      plans[i].provider in providers && providers[plans[i].provider] == plans[i].target
  {
    assert plans[..i + 1] == plans[..i] + [plans[i]];
  }

  method ReconcileOne(w: World, m: Mission, plans: seq<ResourcePlan>, i: nat, ghost t: Transaction,
                      current: Transaction, calm: bool)
    returns (o: Outcome<()>, next: Transaction)
    requires i < |plans| && Part(m.plan, plans)
    requires Through(m, w.Now(), w.journal.files, E.Reconcile, plans, i, t, current) && Agrees(m, t)
    modifies w.journal
    ensures Live(m, w.Now(), w.journal.files, next) && PhaseOf(m, w.journal.files) == PhaseOf(m, old(w.journal.files))
    ensures next == t.(evidence := next.evidence)
    ensures o.Ok? ==> Through(m, w.Now(), w.journal.files, E.Reconcile, plans, i + 1, t, next)
    ensures calm && Provides(w.providers, plans) && |t.evidence| + i < MAX_EVENTS ==> o.Ok?
  {
    LiveMission(m, w.Now(), w.journal.files, current);
    ProvidedOne(w.providers, plans, i);
    hide Live, PhaseOf, WellFormed, InPass, Provides, Agrees, Extends;
    var call := w.ReconcileProvider(plans[i], calm);
    AgreesSame(m, t, current);
    var noted := Next(calm);
    var again := Next(calm);
    o, next := Report(w, m, E.Reconcile, plans, i, current, call, true, noted, again);
    if o.Ok? { ExtendsMore(plans, i, E.Reconcile, t.evidence, current.evidence, next.evidence); }
  }
}
