/** A whole Run Transaction: what happens before Promotion, Promotion itself, and the catch
  block that decides between ending the Run untouched and leaving it to reconciliation.
*/
module AirlockRun {
  import opened Faults
  import opened PromotionEvidence
  import opened PromotionJournals
  import opened PromotionWorld
  import opened PromotionSteps
  import opened PromotionRun
  import E = RecoveryEvents
  import Resources = ResourceCoordinators

  /** How the Candidate fares before Promotion would begin. */
  datatype Verdict = PreparationFails(cleanedUp: bool) | BoundaryViolated | CancelledEarly | RuntimeFails
                   | ValidationFails | Deferred | Passes

  /** How the Run ends. `Pending` keeps its journal for reconciliation, `Unreadable` means the
    journal could not be read back, `Raised` is any error that escapes with no transaction. */
  datatype End = Terminal(transaction: Transaction) | Succeeded(transaction: Transaction)
               | SealedAway(transaction: Transaction) | Pending(transaction: Transaction)
               | Unreadable(transaction: Transaction) | Raised | Died

  predicate Ended(d: RunStatus) { d == Quarantined || d == Discarded || d == Cancelled }

  /** A Run that ends without Promotion reports the state it started from. */
  function EndWith(m: Mission, t: Transaction, d: RunStatus): Transaction {
    t.(core := t.core.(disposition := Some(d), canonicalAfter := Some(m.plan.sourceState), receipt := true),
       status := d, events := t.events + [Transition(d)])
  }

  /** The Run is told to have ended at its source, with a receipt and the event of its ending, and nothing else of it is
    changed. */
  predicate Closed(m: Mission, t: Transaction, u: Transaction) {
    && u.core.canonicalAfter == Some(m.plan.sourceState) && u.core.receipt
    && u.events == t.events + [Transition(u.status)] && u.core.disposition == Some(u.status)
    && u.core.phase == t.core.phase && u.core.intents == t.core.intents && u.core.delivered == t.core.delivered
    && u.evidence == t.evidence && u.installed == t.installed
    && u.recovered == t.recovered && u.recoveryError == t.recoveryError
  }

  /** The transaction says nothing of a Promotion. */
  predicate Untold(m: Mission, t: Transaction) {
    && t.core.phase == None && t.core.disposition != Some(Promoted) && t.status != Promoted
    && t.core.canonicalAfter in {None, Some(m.plan.sourceState)}
  }

  predicate HasCanonicalAdvanceEvidence(m: Mission, t: Transaction) {
    || t.core.disposition == Some(Promoted) || t.status == Promoted
    || (t.core.canonicalAfter.Some? && t.core.canonicalAfter != Some(m.plan.sourceState))
    || t.core.phase in {Some(CanonicalAdvanced), Some(EffectsDelivered), Some(Completed)}
  }

  datatype ReadBack = NoJournal | Journal(record: Record) | Unavailable(transaction: Transaction)

  /** readPromotionJournalAfterFailure. The file may be absent, unreadable, or removed from
    outside; only a Run that never began is told that there is no journal. */
  method ReadJournalAfterFailure(w: World, m: Mission, t: Transaction, calm: bool) returns (r: ReadBack)
    requires ValidFiles(w.journal.files)
    modifies w.journal
    ensures ValidFiles(w.journal.files)
    ensures calm ==> w.journal.files == old(w.journal.files) && (r.Journal? <==> m.plan.runId in w.journal.files)
    ensures calm && m.plan.runId !in w.journal.files ==>
      (r.NoJournal? <==> t.core.phase == None && t.core.disposition != Some(Promoted) && t.status != Promoted &&
                         t.core.canonicalAfter in {None, Some(m.plan.sourceState)})
    ensures w.journal.files == old(w.journal.files) ||
      (w.journal.files == old(w.journal.files) - {m.plan.runId} && !r.Journal?)
    ensures r.NoJournal? ==> m.plan.runId !in w.journal.files
    ensures r.NoJournal? ==> t.core.phase == None && !HasCanonicalAdvanceEvidence(m, t)
    ensures r.NoJournal? ==> t.core.disposition != Some(Promoted) && t.status != Promoted
    ensures r.NoJournal? ==> t.core.canonicalAfter in {None, Some(m.plan.sourceState)}
    ensures r.Journal? ==> m.plan.runId in w.journal.files && r.record == w.journal.files[m.plan.runId]
    ensures r.Unavailable? ==> r.transaction.status == RecoveryError && r.transaction.recoveryError
    ensures r.Unavailable? ==>
      r.transaction.core == t.core ||
      (r.transaction.core.disposition == Some(Promoted) && w.canonical == m.plan.targetState)
    ensures calm && r.Unavailable? ==>
      if w.canonical == m.plan.targetState
      then r.transaction.core.disposition == Some(Promoted) && r.transaction.core.canonicalAfter == Some(w.canonical)
      else r.transaction.core == t.core
  {
    var lost: bool, unreadable: bool, inspected: bool := *, *, *;
    lost, unreadable, inspected := lost && !calm, unreadable && !calm, inspected || calm;
    if lost {
      w.journal.Lose(m.plan.runId);
    }
    if !unreadable && m.plan.runId in w.journal.files {
      return Journal(w.journal.files[m.plan.runId]);
    }
    if !unreadable && t.core.phase == None && !HasCanonicalAdvanceEvidence(m, t) {
      return NoJournal;
    }
    var recovery := t;
    if inspected && w.canonical == m.plan.targetState {
      recovery := RecordCanonicalAdvance(t, w.canonical);
    }
    return Unavailable(recovery.(status := RecoveryError, recoveryError := true));
  }

  /** The catch block when there is no journal: clean the Candidate up, then end the Run. */
  method EndUntouched(m: Mission, t: Transaction, verdict: Verdict, calm: bool) returns (end: End)
    ensures end.Terminal? || end.Raised? || end.Died?
    ensures end.Terminal? ==> exists d :: Ended(d) && end.transaction == EndWith(m, t, d)
    ensures calm ==> end.Terminal?
    ensures calm && verdict.CancelledEarly? ==> end.transaction.core.disposition == Some(Cancelled)
    ensures end.Terminal? ==>
      (end.transaction.core.disposition == Some(Discarded) <==> verdict == PreparationFails(true))
    ensures end.Terminal? && verdict !in {PreparationFails(true), CancelledEarly} ==>
      end.transaction.core.disposition == Some(Quarantined)
    ensures end.Terminal? && verdict == CancelledEarly ==>
      end.transaction.core.disposition in {Some(Cancelled), Some(Quarantined)}
    ensures end.Terminal? ==> Some(end.transaction.status) == end.transaction.core.disposition
    ensures end.Terminal? ==> Closed(m, t, end.transaction)
  {
    var cleanup := Next(calm);
    var kept := Next(calm);
    var saved := Next(calm);
    if cleanup.CrashBefore? || cleanup.CrashAfter? || kept.CrashBefore? || kept.CrashAfter? || saved.CrashBefore? ||
      saved.CrashAfter? {
      return Died;
    }
    var d := match verdict
      case PreparationFails(cleanedUp) => if cleanedUp then Discarded else Quarantined
      case CancelledEarly => if cleanup.Calm? then Cancelled else Quarantined
      case _ => Quarantined;
    if !kept.Calm? || !saved.Calm? {
      return Raised;
    }
    end := Terminal(EndWith(m, t, d));
  }

  /** The catch block: a journal found is evidenced and kept, otherwise the Run ends untouched. */
  method AfterFailure(w: World, m: Mission, t: Transaction, verdict: Verdict, calm: bool) returns (end: End)
    requires Inv(m, w.Now(), w.journal.files) && w.authority == None
    requires m.plan.runId in w.journal.files ==> Evident(m, w.Now(), w.journal.files, t)
    requires m.plan.runId !in w.journal.files ==> t.core.phase == None
    modifies w.journal
    ensures end.Terminal? ==> m.plan.runId !in w.journal.files
    ensures end.Terminal? ==> t.core.phase == None && exists d :: Ended(d) && end.transaction == EndWith(m, t, d)
    ensures end.Terminal? ==>
      (end.transaction.core.disposition == Some(Discarded) <==> verdict == PreparationFails(true))
    ensures end.Terminal? && verdict !in {PreparationFails(true), CancelledEarly} ==>
      end.transaction.core.disposition == Some(Quarantined)
    ensures end.Terminal? && verdict == CancelledEarly ==>
      end.transaction.core.disposition in {Some(Cancelled), Some(Quarantined)}
    ensures end.Terminal? ==> Some(end.transaction.status) == end.transaction.core.disposition
    ensures end.Terminal? ==> Closed(m, t, end.transaction)
    ensures calm && m.plan.runId !in old(w.journal.files) && Untold(m, t) ==> end.Terminal?
    ensures calm && verdict.CancelledEarly? && end.Terminal? ==> end.transaction.core.disposition == Some(Cancelled)
    ensures !end.Succeeded? && !end.SealedAway?
    ensures end.Pending? ==> m.plan.runId in w.journal.files && Inv(m, w.Now(), w.journal.files)
    ensures Inv(m, w.Now(), w.journal.files) || m.plan.runId !in w.journal.files
    ensures w.journal.files.Keys <= old(w.journal.files.Keys)
    ensures end.Unreadable? ==> end.transaction.status == RecoveryError
    ensures end.Unreadable? ==>
      end.transaction.core == t.core ||
      (end.transaction.core.disposition == Some(Promoted) && w.canonical == m.plan.targetState)
  {
    var readBack := ReadJournalAfterFailure(w, m, t, calm);
    match readBack {
      case NoJournal =>
        end := EndUntouched(m, t, verdict, calm);
      case Unavailable(closed) =>
        end := Unreadable(closed);
      case Journal(record) =>
        end := Evidence(w, m, t, calm);
    }
  }

  /** What was collected is added to the journal found, which is kept for reconciliation. */
  method Evidence(w: World, m: Mission, t: Transaction, calm: bool) returns (end: End)
    requires Inv(m, w.Now(), w.journal.files) && w.authority == None
    requires m.plan.runId in w.journal.files && Evident(m, w.Now(), w.journal.files, t)
    modifies w.journal
    ensures m.plan.runId in w.journal.files && Inv(m, w.Now(), w.journal.files)
    ensures w.journal.files.Keys == old(w.journal.files.Keys)
    ensures end.Pending? || end.Died?
  {
    hide *;
    var evidenced := w.journal.files[m.plan.runId].transaction.(installed := t.installed, evidence := t.evidence);
    EvidencedLive(m, w.Now(), w.journal.files, t);
    var fate := Next(calm);
    var updated := Update(w, m, evidenced, fate);
    LiveMission(m, w.Now(), w.journal.files, evidenced);
    LiveEvident(m, w.Now(), w.journal.files, evidenced);
    EvidentInv(m, w.Now(), w.journal.files, evidenced);
    end := if updated.Crashed? then Died else Pending(w.journal.files[m.plan.runId].transaction);
  }

  lemma EvidencedLive(m: Mission, s: Outside, files: Files, t: Transaction)
    requires Evident(m, s, files, t) && s.authority == None
    ensures Live(m, s, files, files[m.plan.runId].transaction.(installed := t.installed, evidence := t.evidence))
  {
  }

  /** Every failure path: a Run that ends quarantined, discarded or cancelled left Canonical,
    the providers and the effects as they were. */
  method Run(w: World, m: Mission, verdict: Verdict, calm: bool) returns (end: End)
    requires Inv(m, w.Now(), w.journal.files) && m.plan.runId !in w.journal.files
    modifies w, w.journal
    ensures Inv(m, w.Now(), w.journal.files) || m.plan.runId !in w.journal.files
    ensures end.Terminal? ==> m.plan.runId !in w.journal.files
    ensures verdict != Passes ==> m.plan.runId !in w.journal.files
    ensures w.authority == old(w.authority) == None
    ensures end.Terminal? ==> w.Now() == old(w.Now()) && end.transaction.core.canonicalAfter == Some(old(w.canonical))
    ensures end.Terminal? ==> end.transaction.core.disposition.Some? && Ended(end.transaction.core.disposition.value)
    ensures end.Terminal? ==>
      (end.transaction.core.disposition == Some(Discarded) <==> verdict == PreparationFails(true))
    ensures end.Terminal? && verdict !in {PreparationFails(true), CancelledEarly} ==>
      end.transaction.core.disposition == Some(Quarantined)
    ensures end.Terminal? && verdict == CancelledEarly ==>
      end.transaction.core.disposition in {Some(Cancelled), Some(Quarantined)}
    ensures end.Terminal? ==> Some(end.transaction.status) == end.transaction.core.disposition
    ensures end.Terminal? && verdict != Passes ==> Closed(m, m.start.(status := Running), end.transaction)
    ensures calm && verdict !in {Passes, Deferred} ==> end.Terminal?
    ensures calm && verdict == CancelledEarly ==> end.transaction.core.disposition == Some(Cancelled)
    ensures calm && verdict == Deferred ==> end.SealedAway?
    ensures end.SealedAway? ==>
      verdict == Deferred && w.Now() == old(w.Now()) && end.transaction.core.disposition == None
    ensures end.SealedAway? ==> end.transaction.status == Sealed && Transition(Sealed) in end.transaction.events
    ensures end.Succeeded? ==>
      verdict == Passes && Final(m, end.transaction, w.receipts) && w.canonical == m.plan.targetState
    ensures end.Succeeded? ==> m.plan.runId in w.journal.files && PhaseOf(m, w.journal.files) == Completed
    ensures end.Succeeded? ==>
      w.journal.files[m.plan.runId].transaction == end.transaction && !end.transaction.recovered
    ensures end.Pending? ==> m.plan.runId in w.journal.files
    ensures w.receipts != map[] ==> w.canonical == m.plan.targetState
    ensures end.Unreadable? ==> end.transaction.status == RecoveryError
    ensures end.Unreadable? ==> end.transaction.core.disposition == Some(Promoted) ==> w.canonical == m.plan.targetState
    ensures calm && verdict == Passes && MayRun(m, old(w.Now())) ==> end.Succeeded?
  {
    var draft := m.start.(status := Running);
    match verdict {
      case Passes =>
        var o, t := Promote(w, m, calm);
        if o.Ok? {
          EffectsFollowCanonical(m, w.Now(), w.journal.files);
          return Succeeded(t);
        }
        EffectsFollowCanonical(m, w.Now(), w.journal.files);
        if o.Crashed? {
          return Died;
        }
        end := AfterFailure(w, m, t, verdict, calm);
      case Deferred =>
        var o := Progress(calm);
        if o.Ok? {
          return SealedAway(draft.(status := Sealed, events := draft.events + [Transition(Sealed)]));
        }
        if o.Crashed? {
          return Died;
        }
        end := AfterFailure(w, m, draft, verdict, calm);
      case ValidationFails =>
        var o := Progress(calm);
        if o.Ok? {
          return Terminal(EndWith(m, draft, Quarantined));
        }
        if o.Crashed? {
          return Died;
        }
        end := AfterFailure(w, m, draft, verdict, calm);
      case _ =>
        end := AfterFailure(w, m, draft, verdict, calm);
    }
  }

  /** The mission of a Run that has collected these events. */
  function With(m: Mission, events: E.Events): Mission { m.(start := m.start.(evidence := events)) }

  lemma WithInv(m: Mission, s: Outside, files: Files, events: E.Events)
    requires Inv(m, s, files) && m.plan.runId !in files && Resources.Quiet(events) && |events| <= MAX_EVENTS
    ensures Inv(With(m, events), s, files)
  {
    Resources.QuietTrail(events);
  }

  /** The provider calls of a Run before its Promotion: all are prepared, and if the Run gets that far described,
    validated and planned. A call that throws ends the Run as any failure does. */
  method Collect(c: Resources.ResourceCoordinator, verdict: Verdict, calm: bool) returns (died: bool, reached: Verdict)
    requires c.Valid() && c.events == [] && !verdict.PreparationFails? && forall p | p in c.registry ::
      c.holding[p] == Resources.Nothing
    modifies c`holding, c`events
    ensures c.Valid() && (reached in {verdict, RuntimeFails} || reached.PreparationFails?)
    ensures !died && reached == PreparationFails(true) ==>
      forall p | p in c.registry :: c.holding[p] == Resources.Nothing
    ensures !died && !reached.PreparationFails? ==> forall p | p in c.registry :: c.holding[p] == Resources.Held
    ensures !died && reached == Passes ==> Resources.Collected(c.registry, Resources.Direct, c.events)
    ensures !died && reached in {ValidationFails, Deferred} ==> Resources.Checked(c.registry, c.events)
    ensures calm && verdict == Passes && 4 * |c.registry| <= MAX_EVENTS ==> !died && reached == Passes
  {
    hide E.Pass, E.Distinct, Resources.Checks, Resources.Quiet, Resources.Checked, Resources.Collected;
    var o, prepared, cleanedUp := c.PrepareAll(calm);
    if !o.Ok? {
      return o.Crashed?, PreparationFails(cleanedUp);
    }
    reached := verdict;
    ghost var ready := c.events;
    Resources.PassLength(c.registry, E.Prepare, [], ready);
    if reached in {ValidationFails, Deferred, Passes} {
      o := c.DescribeAndValidate(calm);
      if !o.Ok? {
        return o.Crashed?, RuntimeFails;
      }
      Resources.CheckedParts(c.registry, ready, c.events);
    }
    ghost var checked := c.events;
    if reached == Passes {
      o := c.PlanAll(calm);
      if !o.Ok? {
        return o.Crashed?, RuntimeFails;
      }
      Resources.CollectedDirect(c.registry, checked, c.events);
    }
    died := false;
  }

  /** A Run from the preparation of its providers on; `mission` holds the evidence with which it goes on. It ends
    discarded only when no provider holds anything of it, it goes on only when every provider has been prepared, and
    it is journaled with one report of each of the four calls before a Promotion. */
  method PrepareAndRun(w: World, m: Mission, c: Resources.ResourceCoordinator, verdict: Verdict, calm: bool)
    returns (end: End, mission: Mission, reached: Verdict)
    requires Inv(m, w.Now(), w.journal.files) && m.plan.runId !in w.journal.files && !verdict.PreparationFails?
    requires c.Valid() && c.events == [] && forall p | p in c.registry :: c.holding[p] == Resources.Nothing
    modifies w, w.journal, c`holding, c`events
    ensures mission == With(m, mission.start.evidence)
    ensures Inv(mission, w.Now(), w.journal.files) || m.plan.runId !in w.journal.files
    ensures m.plan.runId in w.journal.files ==>
      Resources.Collected(c.registry, Resources.Direct, mission.start.evidence)
    ensures end.SealedAway? ==> Resources.Checked(c.registry, c.events)
    ensures reached in {verdict, RuntimeFails} || reached.PreparationFails?
    ensures end.Terminal? ==>
      (end.transaction.core.disposition == Some(Discarded) <==> reached == PreparationFails(true))
    ensures end.Terminal? && reached !in {PreparationFails(true), CancelledEarly} ==>
      end.transaction.core.disposition == Some(Quarantined)
    ensures end.Terminal? && end.transaction.core.disposition == Some(Discarded) ==>
      c.Valid() && forall p | p in c.registry :: c.holding[p] == Resources.Nothing
    ensures end.Succeeded? || end.SealedAway? ==>
      c.Valid() && forall p | p in c.registry :: c.holding[p] == Resources.Held
    ensures w.receipts != map[] ==> w.canonical == m.plan.targetState
    ensures end.Terminal? ==> w.Now() == old(w.Now()) && m.plan.runId !in w.journal.files
    ensures calm && verdict == Passes && MayCollect(m, c.registry, Resources.Direct, old(w.Now())) ==> end.Succeeded?
  {
    EffectsFollowCanonical(m, w.Now(), w.journal.files);
    hide Inv, Final, MayRun, MayCollect, Resources.Collected, Resources.Checked, Resources.Quiet, E.Distinct;
    MayCollectRuns(m, c.registry, Resources.Direct, w.Now());
    mission := m;
    var died;
    died, reached := Collect(c, verdict, calm);
    if died {
      return Died, mission, reached;
    }
    mission := With(m, c.events);
    WithInv(m, w.Now(), w.journal.files, c.events);
    end := Run(w, mission, reached, calm);
  }

  /** In calm weather: a journal that takes the registry and all that the Run records, and effects that will be
    delivered. */
  ghost predicate MayCollect(m: Mission, registry: seq<E.Provider>, route: Resources.Route, s: Outside) {
    && |registry| == |m.plan.before| + |m.plan.after| <= MAX_PROVIDERS && Deliverable(m, s)
    && (if route.Direct? then 5 else 7) * |registry| <= MAX_EVENTS
  }

  lemma MayCollectRuns(m: Mission, registry: seq<E.Provider>, route: Resources.Route, s: Outside)
    ensures MayCollect(m, registry, route, s) ==> (if route.Direct? then 4 else 6) * |registry| <= MAX_EVENTS
    ensures MayCollect(m, registry, route, s) ==>
      forall events | Resources.Collected(registry, route, events) :: MayRun(With(m, events), s)
  {
    if MayCollect(m, registry, route, s) {
      forall events | Resources.Collected(registry, route, events) ensures MayRun(With(m, events), s) {
        Resources.CollectedLength(registry, route, events);
        assert Deliverable(With(m, events), s);
      }
    }
  }

  /** promoteSealedCandidate: a Candidate sealed earlier is checked once more, planned and promoted. Until `begin`
    nothing is kept of a failure. */
  method PromoteSealed(w: World, m: Mission, c: Resources.ResourceCoordinator, calm: bool)
    returns (end: End, mission: Mission)
    requires Inv(m, w.Now(), w.journal.files) && m.plan.runId !in w.journal.files
    requires c.Valid() && Resources.Checked(c.registry, c.events)
    modifies w, w.journal, c`holding, c`events
    ensures mission == With(m, mission.start.evidence)
    ensures Inv(mission, w.Now(), w.journal.files) || m.plan.runId !in w.journal.files
    ensures m.plan.runId in w.journal.files ==>
      Resources.Collected(c.registry, Resources.Sealed, mission.start.evidence)
    ensures end.Succeeded? ==> Final(mission, end.transaction, w.receipts) && w.canonical == m.plan.targetState
    ensures end.Raised? ==> m.plan.runId !in w.journal.files && w.Now() == old(w.Now())
    ensures calm && MayCollect(m, c.registry, Resources.Sealed, old(w.Now())) ==> end.Succeeded?
  {
    InvAuthorityNone(m, w.Now(), w.journal.files);
    hide Inv, Final, MayRun, MayCollect, Resources.Collected, Resources.Checked, Resources.Checks, Resources.Quiet,
      E.Distinct, E.Pass;
    MayCollectRuns(m, c.registry, Resources.Sealed, w.Now());
    ghost var sealed := c.events;
    Resources.CheckedLength(c.registry, sealed);
    mission := m;
    var o := c.DescribeAndValidate(calm);
    if !o.Ok? {
      return if o.Crashed? then Died else Raised, mission;
    }
    ghost var checked := c.events;
    Resources.ChecksLength(c.registry, sealed, checked);
    o := c.PlanAll(calm);
    if !o.Ok? {
      return if o.Crashed? then Died else Raised, mission;
    }
    Resources.CollectedSealed(c.registry, sealed, checked, c.events);
    mission := With(m, c.events);
    WithInv(m, w.Now(), w.journal.files, c.events);
    end := RunSealed(w, mission, calm);
  }

  lemma InvAuthorityNone(m: Mission, s: Outside, files: Files)
    requires Inv(m, s, files) && m.plan.runId !in files
    ensures s.authority == None
  {
  }

  /** The Promotion itself, with its catch block: a failure without a journal is thrown on. */
  method RunSealed(w: World, m: Mission, calm: bool) returns (end: End)
    requires Inv(m, w.Now(), w.journal.files) && m.plan.runId !in w.journal.files
    modifies w, w.journal
    ensures Inv(m, w.Now(), w.journal.files) || m.plan.runId !in w.journal.files
    ensures end.Succeeded? ==> Final(m, end.transaction, w.receipts) && w.canonical == m.plan.targetState
    ensures end.Raised? ==> m.plan.runId !in w.journal.files && w.Now() == old(w.Now())
    ensures calm && MayRun(m, old(w.Now())) ==> end.Succeeded?
  {
    InvAuthorityNone(m, w.Now(), w.journal.files);
    var o, t := Promote(w, m, calm);
    if o.Ok? {
      CompletedCanonical(m, w.Now(), w.journal.files);
      return Succeeded(t);
    }
    hide Inv, Final, Evident, MayRun;
    if o.Crashed? {
      return Died;
    }
    InvFiles(m, w.Now(), w.journal.files);
    var readBack := ReadJournalAfterFailure(w, m, t, calm);
    match readBack {
      case NoJournal => end := Raised;
      case Unavailable(closed) => end := Unreadable(closed);
      case Journal(record) => end := Evidence(w, m, t, calm);
    }
  }

  lemma CompletedCanonical(m: Mission, s: Outside, files: Files)
    requires Inv(m, s, files) && m.plan.runId in files && PhaseOf(m, files) == Completed
    ensures s.canonical == m.plan.targetState
  {
  }

  lemma InvFiles(m: Mission, s: Outside, files: Files)
    requires Inv(m, s, files)
    ensures ValidFiles(files)
  {
  }
}
