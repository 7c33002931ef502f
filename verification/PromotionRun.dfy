/** The first run of a Promotion: `run` and `promoteSealedCandidate` of airlock-runner.ts.

  The sequence from begin to completed is the same in both. Whatever fails, the catch block
  reads the journal back and either keeps the Run for reconciliation or ends it untouched.
*/
module PromotionRun {
  import opened Faults
  import opened PromotionEvidence
  import opened PromotionJournals
  import opened PromotionWorld
  import opened PromotionSteps
  import opened RecoveryTrail
  import E = RecoveryEvents

  /** Providers before the manifest, the new version, then the journal. */
  method InstallStep(w: World, m: Mission, t: Transaction, recovering: bool, calm: bool)
    returns (o: Outcome<()>, next: Transaction)
    requires Live(m, w.Now(), w.journal.files, t) && PhaseOf(m, w.journal.files) == Validated && Agrees(m, t)
    modifies w`providers, w`installed, w.journal
    ensures Evident(m, w.Now(), w.journal.files, next) && next.core.phase.Some? && next.recovered == t.recovered
    ensures PhaseOf(m, w.journal.files) in {Validated, VersionInstalled}
    ensures o.Ok? ==> Live(m, w.Now(), w.journal.files, next) && PhaseOf(m, w.journal.files) == VersionInstalled
    ensures o.Ok? ==> Agrees(m, next) && |next.evidence| == |t.evidence| + |m.plan.before| <= MAX_EVENTS
    ensures o.Ok? ==>
      Extends(m.plan.before, E.Promote, t.evidence, next.evidence) && w.journal.files[m.plan.runId].transaction == next
    ensures calm && |t.evidence| + |m.plan.before| <= MAX_EVENTS ==> o.Ok?
  {
    hide Live, Inv, PhaseOf, Evident, Agrees, Reached, Fits, Provides, Covers, Extends;
    o, next := PromoteVisible(w, m, m.plan.before, t, recovering, calm);
    LiveEvident(m, w.Now(), w.journal.files, next);
    LivePhase(m, w.Now(), w.journal.files, next);
    if o.Ok? {
      o, next := InstallVersion(w, m, next, calm);
    }
  }

  method InstallVersion(w: World, m: Mission, t: Transaction, calm: bool) returns (o: Outcome<()>, next: Transaction)
    requires Live(m, w.Now(), w.journal.files, t) && PhaseOf(m, w.journal.files) == Validated && Agrees(m, t)
    requires Provides(w.providers, m.plan.before) && Covers(t.installed, m.plan.before)
    modifies w`installed, w.journal
    ensures Evident(m, w.Now(), w.journal.files, next) && next.core.phase.Some? && next.recovered == t.recovered
    ensures PhaseOf(m, w.journal.files) in {Validated, VersionInstalled}
    ensures o.Ok? ==> Live(m, w.Now(), w.journal.files, next) && PhaseOf(m, w.journal.files) == VersionInstalled
    ensures o.Ok? ==> Agrees(m, next) && next.evidence == t.evidence && |t.evidence| <= MAX_EVENTS
    ensures o.Ok? ==> w.journal.files[m.plan.runId].transaction == next
    ensures calm && |t.evidence| <= MAX_EVENTS ==> o.Ok?
  {
    LivePhase(m, w.Now(), w.journal.files, t);
    assert Index(VersionInstalled) == Index(Validated) + 1;
    hide *;
    next := t;
    o := InstallTarget(w, m, t, calm);
    LiveEvident(m, w.Now(), w.journal.files, t);
    if !o.Ok? {
      return;
    }
    InstalledReached(m, w.Now(), w.journal.files, t);
    var a := AdvanceTo(w, m, VersionInstalled, t, calm);
    if a.Ok? { AgreesSame(m, t, a.value); }
    o, next := Taken(t, a);
  }

  /** Installing the target version changes nothing else. */
  method InstallTarget(w: World, m: Mission, t: Transaction, calm: bool) returns (o: Outcome<()>)
    requires Live(m, w.Now(), w.journal.files, t) && PhaseOf(m, w.journal.files) == Validated
    modifies w`installed
    ensures Live(m, w.Now(), w.journal.files, t)
    ensures w.Now() == old(w.Now()).(installed := w.installed) && (o.Ok? ==> m.plan.targetState in w.installed)
    ensures calm ==> o.Ok?
  {
    ghost var before := w.Now();
    LiveInstalled(m, before, w.journal.files, t);
    hide Live, PhaseOf;
    var install := w.InstallPromotion(m, calm);
    assert w.Now() == before || w.Now() == before.(installed := before.installed + {m.plan.targetState});
    o := match install case Ok(_) => Ok(()) case Thrown => Thrown case Crashed => Crashed;
  }

  /** The transaction a step leaves in memory: the journal's when the step was recorded. */
  method Taken(t: Transaction, a: Outcome<Transaction>) returns (o: Outcome<()>, next: Transaction)
    ensures next == if a.Ok? then a.value else t
    ensures o == match a { case Ok(_) => Ok(()) case Thrown => Thrown case Crashed => Crashed }
  {
    o := match a case Ok(_) => Ok(()) case Thrown => Thrown case Crashed => Crashed;
    next := if a.Ok? then a.value else t;
  }

  lemma InstalledReached(m: Mission, s: Outside, files: Files, t: Transaction)
    requires Live(m, s, files, t) && PhaseOf(m, files) == Validated && m.plan.targetState in s.installed
    requires Provides(s.providers, m.plan.before) && Covers(t.installed, m.plan.before)
    ensures Reached(m, s, VersionInstalled) && Fits(m, s, VersionInstalled, AtPhase(t, VersionInstalled))
  {
  }

  /** Canonical moves, and the transaction records it once. */
  method MoveCanonical(w: World, m: Mission, t: Transaction, calm: bool) returns (o: Outcome<()>, next: Transaction)
    requires Live(m, w.Now(), w.journal.files, t) && 1 <= Index(PhaseOf(m, w.journal.files)) <= 2
    modifies w`canonical
    ensures Live(m, w.Now(), w.journal.files, next) && next.core.phase.Some? && SameLog(t, next)
    ensures o.Ok? ==> w.canonical == m.plan.targetState && Advances(next.events) == 1
    ensures Advances(t.events) == 1 ==> next == t
    ensures calm ==> o.Ok?
  {
    LivePhase(m, w.Now(), w.journal.files, t);
    hide Live, Inv, PhaseOf, Advances;
    ghost var before := w.Now();
    LiveCanonical(m, before, w.journal.files, t);
    var advanced := w.AdvancePromotion(m, calm);
    assert w.Now() == before || w.Now() == before.(canonical := m.plan.targetState);
    if !advanced.Ok? {
      return if advanced.Thrown? then Thrown else Crashed, t;
    }
    LiveAdvance(m, w.Now(), w.journal.files, t);
    return Ok(()), RecordCanonicalAdvance(t, advanced.value);
  }

  method CanonicalStep(w: World, m: Mission, t: Transaction, calm: bool) returns (o: Outcome<()>, next: Transaction)
    requires Live(m, w.Now(), w.journal.files, t) && PhaseOf(m, w.journal.files) == VersionInstalled && Agrees(m, t)
    modifies w`canonical, w.journal
    ensures Evident(m, w.Now(), w.journal.files, next) && next.core.phase.Some? && next.recovered == t.recovered
    ensures PhaseOf(m, w.journal.files) in {VersionInstalled, CanonicalAdvanced}
    ensures o.Ok? ==> Live(m, w.Now(), w.journal.files, next) && PhaseOf(m, w.journal.files) == CanonicalAdvanced
    ensures o.Ok? ==> Agrees(m, next) && next.evidence == t.evidence
    ensures calm && |t.evidence| <= MAX_EVENTS ==> o.Ok?
  {
    hide Live, Inv, PhaseOf, Advances, Evident, Agrees;
    o, next := MoveCanonical(w, m, t, calm);
    LiveEvident(m, w.Now(), w.journal.files, next);
    if !o.Ok? {
      return;
    }
    AgreesSame(m, t, next);
    var fate := Next(calm);
    var updated := Update(w, m, next, fate);
    LiveEvident(m, w.Now(), w.journal.files, next);
    if !updated.Ok? {
      return if updated.Thrown? then Thrown else Crashed, next;
    }
    o, next := JournalCanonical(w, m, next, calm);
  }

  method JournalCanonical(w: World, m: Mission, t: Transaction, calm: bool) returns (o: Outcome<()>, next: Transaction)
    requires Live(m, w.Now(), w.journal.files, t) && PhaseOf(m, w.journal.files) == VersionInstalled && Agrees(m, t)
    requires w.canonical == m.plan.targetState && Advances(t.events) == 1
    modifies w.journal
    ensures Evident(m, w.Now(), w.journal.files, next) && next.core.phase.Some? && next.recovered == t.recovered
    ensures PhaseOf(m, w.journal.files) in {VersionInstalled, CanonicalAdvanced}
    ensures o.Ok? ==> Live(m, w.Now(), w.journal.files, next) && PhaseOf(m, w.journal.files) == CanonicalAdvanced
    ensures o.Ok? ==> Agrees(m, next) && next.evidence == t.evidence && |t.evidence| <= MAX_EVENTS
    ensures calm && |t.evidence| <= MAX_EVENTS ==> o.Ok?
  {
    LivePhase(m, w.Now(), w.journal.files, t);
    LiveEvident(m, w.Now(), w.journal.files, t);
    AdvancedReached(m, w.Now(), w.journal.files, t);
    hide Live, Inv, PhaseOf, Advances, Evident, Agrees, Reached, Fits;
    var a := AdvanceTo(w, m, CanonicalAdvanced, t, calm);
    if a.Ok? { AgreesSame(m, t, a.value); }
    o, next := Taken(t, a);
  }

  lemma AdvancedReached(m: Mission, s: Outside, files: Files, t: Transaction)
    requires Live(m, s, files, t) && PhaseOf(m, files) == VersionInstalled
    requires s.canonical == m.plan.targetState && Advances(t.events) == 1
    ensures Reached(m, s, CanonicalAdvanced) && Fits(m, s, CanonicalAdvanced, AtPhase(t, CanonicalAdvanced))
  {
  }

  /** Providers behind the manifest; recovery then checks them against their planned versions. */
  method ProvidersBehind(w: World, m: Mission, t: Transaction, recovering: bool, calm: bool)
    returns (o: Outcome<()>, next: Transaction)
    requires Live(m, w.Now(), w.journal.files, t) && PhaseOf(m, w.journal.files) != Completed && Agrees(m, t)
    modifies w`providers, w.journal
    ensures Live(m, w.Now(), w.journal.files, next) && PhaseOf(m, w.journal.files) == PhaseOf(m, old(w.journal.files))
    ensures Agrees(m, next)
    ensures next.recovered == t.recovered
    ensures o.Ok? ==> Provides(w.providers, m.plan.after) && Covers(next.installed, m.plan.after)
    ensures o.Ok? ==> |next.evidence| == |t.evidence| + |m.plan.after| + if recovering then |m.plan.after| else 0
    ensures o.Ok? ==> if recovering then Stages(m.plan, CanonicalAdvanced, t.evidence, next.evidence)
                      else Extends(m.plan.after, E.Promote, t.evidence, next.evidence)
    ensures calm && |t.evidence| + |m.plan.after| + (if recovering then |m.plan.after| else 0) <= MAX_EVENTS ==> o.Ok?
  {
    hide Live, Inv, PhaseOf, Agrees, Provides, Covers, Evidenced, InPass, Trail, Extends, Stages;
    o, next := PromoteVisible(w, m, m.plan.after, t, recovering, calm);
    if o.Ok? && recovering {
      LiveEvidenced(m, w.Now(), w.journal.files, next);
      PassStarts(m.plan, E.Reconcile, m.plan.after, next.evidence);
      var promoted := next.evidence;
      o, next := ReconcileVisible(w, m, m.plan.after, next, calm);
      if o.Ok? { StagesFirst(m.plan, CanonicalAdvanced, t.evidence, promoted, next.evidence); }
    }
  }

  /** Providers behind the manifest, then the effects, then the journal. */
  method EffectsStep(w: World, m: Mission, t: Transaction, recovering: bool, calm: bool)
    returns (o: Outcome<()>, next: Transaction)
    requires Live(m, w.Now(), w.journal.files, t) && PhaseOf(m, w.journal.files) == CanonicalAdvanced && Agrees(m, t)
    modifies w`providers, w`receipts, w.journal
    ensures Evident(m, w.Now(), w.journal.files, next) && next.core.phase.Some? && next.recovered == t.recovered
    ensures PhaseOf(m, w.journal.files) in {CanonicalAdvanced, EffectsDelivered}
    ensures o.Ok? ==> Live(m, w.Now(), w.journal.files, next) && PhaseOf(m, w.journal.files) == EffectsDelivered
    ensures o.Ok? ==> Agrees(m, next) && |next.evidence| <= MAX_EVENTS
    ensures o.Ok? ==> |next.evidence| == |t.evidence| + |m.plan.after| + if recovering then |m.plan.after| else 0
    ensures o.Ok? ==> if recovering then Stages(m.plan, CanonicalAdvanced, t.evidence, next.evidence)
                      else Extends(m.plan.after, E.Promote, t.evidence, next.evidence)
    ensures o.Ok? ==> Deliverable(m, old(w.Now()))
    ensures (calm && |t.evidence| + |m.plan.after| + (if recovering then |m.plan.after| else 0) <= MAX_EVENTS
             && Deliverable(m, old(w.Now()))) ==> o.Ok?
  {
    hide Live, Inv, PhaseOf, Evident, Agrees, Provides, Covers, Extends, Stages;
    o, next := ProvidersBehind(w, m, t, recovering, calm);
    LiveEvident(m, w.Now(), w.journal.files, next);
    LivePhase(m, w.Now(), w.journal.files, next);
    if !o.Ok? {
      return;
    }
    o := DispatchStep(w, m, next, calm);
    LiveEvident(m, w.Now(), w.journal.files, next);
    if o.Ok? {
      o, next := FinalizeStep(w, m, next, calm);
    }
  }

  method DispatchStep(w: World, m: Mission, ghost t: Transaction, calm: bool) returns (o: Outcome<()>)
    requires Live(m, w.Now(), w.journal.files, t) && Index(PhaseOf(m, w.journal.files)) >= 2
    modifies w`receipts
    ensures Live(m, w.Now(), w.journal.files, t)
    ensures Done(PhaseOf(m, w.journal.files)) ==> w.receipts == old(w.receipts)
    ensures o.Ok? ==> w.receipts.Keys == KeySet(m) && Deliverable(m, old(w.Now()))
    ensures calm && Deliverable(m, old(w.Now())) ==> o.Ok?
  {
    ghost var before := w.Now();
    KeysBounded(m, before, w.journal.files, t);
    hide *;
    DeliverableKeys(m, before);
    o := w.Dispatch(m.keys, calm);
    assert w.Now() == before.(receipts := w.receipts);
    LiveReceipts(m, before, w.journal.files, t, w.receipts);
    assert o.Ok? ==> KeySet(m) <= w.receipts.Keys;
    if Done(PhaseOf(m, w.journal.files)) {
      assert w.receipts.Keys == before.receipts.Keys;
      assert w.receipts == before.receipts;
    }
  }

  lemma DeliverableKeys(m: Mission, s: Outside)
    ensures Deliverable(m, s) <==> forall k | k in m.keys :: k in s.receipts || k !in s.refused
    ensures s.receipts.Keys == KeySet(m) ==> Deliverable(m, s)
  {
    assert forall k | k in KeySet(m) :: k in m.keys;
    assert forall k | k in m.keys :: k in KeySet(m);
  }

  lemma DeliverableSame(m: Mission, s: Outside, t: Outside)
    requires s.receipts == t.receipts && s.refused == t.refused
    ensures Deliverable(m, s) <==> Deliverable(m, t)
  {
  }

  lemma KeysBounded(m: Mission, s: Outside, files: Files, t: Transaction)
    requires Live(m, s, files, t)
    ensures s.receipts.Keys <= KeySet(m) && (Done(PhaseOf(m, files)) ==> s.receipts.Keys == KeySet(m))
  {
  }

  method FinalizeStep(w: World, m: Mission, t: Transaction, calm: bool) returns (o: Outcome<()>, next: Transaction)
    requires Live(m, w.Now(), w.journal.files, t) && PhaseOf(m, w.journal.files) == CanonicalAdvanced && Agrees(m, t)
    requires w.receipts.Keys == KeySet(m) && Provides(w.providers, m.plan.after) && Covers(t.installed, m.plan.after)
    modifies w.journal
    ensures Evident(m, w.Now(), w.journal.files, next) && next.core.phase.Some? && next.recovered == t.recovered
    ensures PhaseOf(m, w.journal.files) in {CanonicalAdvanced, EffectsDelivered}
    ensures o.Ok? ==> Live(m, w.Now(), w.journal.files, next) && PhaseOf(m, w.journal.files) == EffectsDelivered
    ensures o.Ok? ==> Agrees(m, next) && next.evidence == t.evidence && |t.evidence| <= MAX_EVENTS
    ensures calm && |t.evidence| <= MAX_EVENTS ==> o.Ok?
  {
    LivePhase(m, w.Now(), w.journal.files, t);
    FinalizedReached(m, w.Now(), w.journal.files, t);
    hide *;
    next := FinalizePromotedEffects(t, m.keys, w.receipts);
    AgreesSame(m, t, next);
    var a := AdvanceTo(w, m, EffectsDelivered, next, calm);
    if a.Ok? { AgreesSame(m, next, a.value); }
    o, next := Taken(next, a);
  }

  lemma FinalizedReached(m: Mission, s: Outside, files: Files, t: Transaction)
    requires Live(m, s, files, t) && PhaseOf(m, files) == CanonicalAdvanced
    requires s.receipts.Keys == KeySet(m) && Provides(s.providers, m.plan.after) && Covers(t.installed, m.plan.after)
    ensures forall i | 0 <= i < |m.keys| :: m.keys[i] in s.receipts
    ensures var u := FinalizePromotedEffects(t, m.keys, s.receipts);
      Evident(m, s, files, u) && Reached(m, s, EffectsDelivered) &&
      Fits(m, s, EffectsDelivered, AtPhase(u, EffectsDelivered))
  {
    assert forall i | 0 <= i < |m.keys| :: m.keys[i] in KeySet(m);
  }

  method CompleteStep(w: World, m: Mission, t: Transaction, calm: bool) returns (o: Outcome<()>, next: Transaction)
    requires Live(m, w.Now(), w.journal.files, t) && PhaseOf(m, w.journal.files) == EffectsDelivered && Agrees(m, t)
    modifies w.journal
    ensures Evident(m, w.Now(), w.journal.files, next) && next.core.phase.Some? && next.recovered == t.recovered
    ensures PhaseOf(m, w.journal.files) in {EffectsDelivered, Completed}
    ensures o.Ok? ==> Live(m, w.Now(), w.journal.files, next) && PhaseOf(m, w.journal.files) == Completed
    ensures o.Ok? ==> Final(m, next, w.receipts) && w.journal.files[m.plan.runId].transaction == next
    ensures o.Ok? ==> next.evidence == t.evidence && |t.evidence| <= MAX_EVENTS
    ensures calm && |t.evidence| <= MAX_EVENTS ==> o.Ok?
  {
    LivePhase(m, w.Now(), w.journal.files, t);
    SettledReached(m, w.Now(), w.journal.files, t);
    next := Settle(t);
    FinalReached(m, w.Now(), w.journal.files, t);
    hide *;
    AgreesSame(m, t, next);
    var a := AdvanceTo(w, m, Completed, next, calm);
    o, next := Taken(next, a);
  }

  lemma SettledReached(m: Mission, s: Outside, files: Files, t: Transaction)
    requires Live(m, s, files, t) && PhaseOf(m, files) == EffectsDelivered
    ensures Evident(m, s, files, Settle(t)) && Reached(m, s, Completed)
    ensures Fits(m, s, Completed, AtPhase(Settle(t), Completed))
  {
    AdvancesPush(t.events, Transition(Promoted));
    hide Advances, Evidenced, Covers, Provides, WellFormed, ValidFiles;
  }

  lemma FinalReached(m: Mission, s: Outside, files: Files, t: Transaction)
    requires Live(m, s, files, t) && PhaseOf(m, files) == EffectsDelivered && Agrees(m, t)
    ensures Final(m, AtPhase(Settle(t), Completed), s.receipts)
  {
    AdvancesPush(t.events, Transition(Promoted));
    AllInstalled(m, t);
  }

  /** Having seen every provider installed at a planned version is having seen the plan. */
  lemma AllInstalled(m: Mission, t: Transaction)
    requires Agrees(m, t) && Covers(t.installed, m.plan.before) && Covers(t.installed, m.plan.after)
    ensures t.installed == Targets(m.plan.before + m.plan.after)
  {
    var all := m.plan.before + m.plan.after;
    forall id | id in Targets(all) ensures id in t.installed {
      var i := TargetOwner(all, id);
      if i < |m.plan.before| {
        assert m.plan.before[i].provider == id;
      } else {
        assert m.plan.after[i - |m.plan.before|].provider == id;
      }
    }
  }

  // ---- The whole sequence ----

  method BeginStep(w: World, m: Mission, calm: bool) returns (o: Outcome<()>, next: Transaction)
    requires Inv(m, w.Now(), w.journal.files) && m.plan.runId !in w.journal.files
    modifies w.journal
    ensures Inv(m, w.Now(), w.journal.files)
    ensures m.plan.runId in w.journal.files ==> Evident(m, w.Now(), w.journal.files, next)
    ensures o.Ok? ==>
      Live(m, w.Now(), w.journal.files, next) && PhaseOf(m, w.journal.files) == Validated && Agrees(m, next)
    ensures if o.Ok? then next == Begun(m.plan, m.start, m.scope).transaction else next == m.start
    ensures o.Ok? ==>
      m.plan.runId in w.journal.files && w.journal.files[m.plan.runId] == Begun(m.plan, m.start, m.scope)
    ensures calm && Journalable(m) ==> o.Ok?
  {
    var r := w.journal.Begin(m.plan, m.start, m.scope, calm);
    return match r { case Ok(_) => Ok(()) case Thrown => Thrown case Crashed => Crashed },
           if r.Ok? then r.value.transaction else m.start;
  }

  /** Progress writes to the agent store and fault injection: nothing of this model changes. */
  method Progress(calm: bool) returns (o: Outcome<()>)
    ensures calm ==> o.Ok?
  {
    var fate := Next(calm);
    o := Ends(fate, ());
  }

  /** What a first run needs: a journal that takes its providers and their events, and effects that will be
    delivered. */
  ghost predicate MayRun(m: Mission, s: Outside) {
    Journalable(m) && |m.start.evidence| + |m.plan.before| + |m.plan.after| <= MAX_EVENTS && Deliverable(m, s)
  }

  /** From begin to completed. The in-memory phase is absent until begin has returned. */
  method Promote(w: World, m: Mission, calm: bool) returns (o: Outcome<()>, t: Transaction)
    requires Inv(m, w.Now(), w.journal.files) && m.plan.runId !in w.journal.files
    modifies w, w.journal
    ensures Inv(m, w.Now(), w.journal.files)
    ensures o.Ok? ==> m.plan.runId in w.journal.files && PhaseOf(m, w.journal.files) == Completed
    ensures o.Ok? ==> Final(m, t, w.receipts) && w.journal.files[m.plan.runId].transaction == t && !t.recovered
    ensures o.Ok? ==> t.core.disposition == Some(Promoted) && t.core.canonicalAfter == Some(m.plan.targetState)
    ensures o.Ok? ==> t.core.delivered == |m.keys| && t.core.receipt
    ensures m.plan.runId in w.journal.files ==> Evident(m, w.Now(), w.journal.files, t)
    ensures t.core.phase == None ==> t == m.start && w.Now() == old(w.Now())
    ensures m.plan.runId !in w.journal.files ==> t.core.phase == None
    ensures w.authority == old(w.authority)
    ensures calm && MayRun(m, old(w.Now())) ==> o.Ok?
  {
    assert MayRun(m, w.Now()) ==>
      Journalable(m) && |m.start.evidence| + |m.plan.before| + |m.plan.after| <= MAX_EVENTS && Deliverable(m, w.Now());
    hide *;
    InvMission(m, w.Now(), w.journal.files);
    BegunPhase(m);
    o, t := BeginStep(w, m, calm);
    if !o.Ok? {
      return;
    }
    o, t := InstallStep(w, m, t, false, calm);
    EvidentInv(m, w.Now(), w.journal.files, t);
    if !o.Ok? {
      return;
    }
    DeliverableSame(m, old(w.Now()), w.Now());
    o, t := PromoteInstalled(w, m, t, calm);
    if o.Ok? { FinalNames(m, t, w.receipts); }
  }

  /** From version-installed to completed. */
  method PromoteInstalled(w: World, m: Mission, t0: Transaction, calm: bool) returns (o: Outcome<()>, t: Transaction)
    requires Live(m, w.Now(), w.journal.files, t0) && PhaseOf(m, w.journal.files) == VersionInstalled && Agrees(m, t0)
    requires t0.core.phase.Some? && |t0.evidence| <= MAX_EVENTS
    modifies w, w.journal
    ensures Inv(m, w.Now(), w.journal.files) && m.plan.runId in w.journal.files
    ensures Evident(m, w.Now(), w.journal.files, t) && t.core.phase.Some? && t.recovered == t0.recovered
    ensures o.Ok? ==> PhaseOf(m, w.journal.files) == Completed
    ensures o.Ok? ==> Final(m, t, w.receipts) && w.journal.files[m.plan.runId].transaction == t
    ensures w.authority == old(w.authority)
    ensures calm && |t0.evidence| + |m.plan.after| <= MAX_EVENTS && Deliverable(m, old(w.Now())) ==> o.Ok?
  {
    hide *;
    t := t0;
    LiveEvident(m, w.Now(), w.journal.files, t);
    EvidentInv(m, w.Now(), w.journal.files, t);
    o := Progress(calm);
    if !o.Ok? {
      return;
    }
    o, t := CanonicalStep(w, m, t, calm);
    EvidentInv(m, w.Now(), w.journal.files, t);
    if !o.Ok? {
      return;
    }
    o := Progress(calm);
    if !o.Ok? {
      return;
    }
    DeliverableSame(m, old(w.Now()), w.Now());
    o, t := EffectsStep(w, m, t, false, calm);
    EvidentInv(m, w.Now(), w.journal.files, t);
    if !o.Ok? {
      return;
    }
    o := Progress(calm);
    if !o.Ok? {
      return;
    }
    o, t := CompleteStep(w, m, t, calm);
    EvidentInv(m, w.Now(), w.journal.files, t);
  }

  lemma InvMission(m: Mission, s: Outside, files: Files)
    requires Inv(m, s, files)
    ensures WellFormed(m)
  {
  }

  lemma BegunPhase(m: Mission)
    requires WellFormed(m)
    ensures m.start.core.phase == None && !m.start.recovered
    ensures var b := Begun(m.plan, m.start, m.scope).transaction;
      b.core.phase == Some(Validated) && !b.recovered && b.evidence == m.start.evidence
  {
  }
}
