/** Recovery after a restart: `reconcilePromotion` and its loop in airlock-runner.ts.

  From any phase, after any earlier crash, a reconcile that returns has finished the
  protocol; one that throws or crashes has kept the invariant and never gone back a phase.
*/
module PromotionRecovery {
  import opened Faults
  import opened PromotionEvidence
  import opened PromotionJournals
  import opened PromotionWorld
  import opened PromotionSteps
  import opened PromotionRun
  import E = RecoveryEvents
  import R = RecoveryNormaliser

  function Everything(m: Mission): nat { |m.plan.before| + |m.plan.after| }

  /** The provider events recovery still has to record from a phase on. */
  function Needed(m: Mission, phase: Phase): nat {
    match phase
    case Validated => |m.plan.before| + |m.plan.before| + |m.plan.after| + |m.plan.after| + Everything(m)
    case VersionInstalled => |m.plan.before| + |m.plan.after| + |m.plan.after| + Everything(m)
    case CanonicalAdvanced => |m.plan.after| + |m.plan.after| + Everything(m)
    case _ => Everything(m)
  }

  /** The evidence of a journal already recovered can be read. Any other journal's evidence is not inspected. */
  predicate Readable(m: Mission, files: Files, authority: Option<Authority>) {
    PhaseOf(m, files) == Completed && m.plan.runId in files ==>
    Prior(m.plan, files[m.plan.runId].transaction, authority).Ok?
  }

  /** The 256-event bound leaves room for what recovery still has to record. */
  predicate Room(m: Mission, files: Files, authority: Option<Authority>)
    requires m.plan.runId in files && Readable(m, files, authority)
  {
    var t := files[m.plan.runId].transaction;
    if PhaseOf(m, files) == Completed then
      var prior := Prior(m.plan, t, authority).value;
      Everything(m) <= MAX_EVENTS && (prior.complete || |KeptEvidence(t, prior)| + Everything(m) <= MAX_EVENTS)
    else |t.evidence| + Needed(m, PhaseOf(m, files)) <= MAX_EVENTS
  }

  /** What a reconcile needs in order to finish: the dispatcher the journal is bound to, readable evidence with room for
    more, and effects that the consumer takes. */
  ghost predicate CanFinish(m: Mission, s: Outside, files: Files, scope: string) {
    && scope == m.scope && m.plan.runId in files && Deliverable(m, s)
    && RoomToRead(m, files, s.authority)
  }

  /** The evidence can be read, and there is room for what recovery adds. */
  predicate RoomToRead(m: Mission, files: Files, authority: Option<Authority>) {
    m.plan.runId in files && Readable(m, files, authority) && Room(m, files, authority)
  }

  /** The reports of a verification, one for each provider in order. */
  method VerifyProviders(w: World, plans: seq<ResourcePlan>, calm: bool) returns (o: Outcome<E.Events>)
    ensures o.Ok? ==> Provides(w.providers, plans) && E.Whole(Providers(plans), o.value)
    ensures calm && Provides(w.providers, plans) ==> o.Ok?
  {
    var events: E.Events := [];
    for i := 0 to |plans|
      invariant Provides(w.providers, plans[..i])
      invariant |events| == i && forall k | 0 <= k < i ::
        E.Reconciles(events[k], ProviderOf(plans[k])) && events[k].status == E.Passed
    {
      var call := w.ReconcileProvider(plans[i], calm);
      if !call.Ok? {
        return if call.Thrown? then Thrown else Crashed;
      }
      var detail: string := *;
      events := events + [Reported(plans[i], E.Reconcile, E.Passed, detail)];
      assert plans[..i + 1] == plans[..i] + [plans[i]];
    }
    assert plans[..|plans|] == plans;
    return Ok(events);
  }

  function IntentKeys(intents: seq<Intent>): seq<string> {
    seq(|intents|, i requires 0 <= i < |intents| => intents[i].key)
  }

  /** Dispatches once more and compares the receipts with the journaled intents. */
  method VerifyDeliveredEffects(w: World, m: Mission, t: Transaction, calm: bool) returns (o: Outcome<()>)
    requires Live(m, w.Now(), w.journal.files, t) && Done(PhaseOf(m, w.journal.files))
    modifies w`receipts
    ensures Live(m, w.Now(), w.journal.files, t) && w.receipts == old(w.receipts)
    ensures calm ==> o.Ok?
  {
    KeysJournaled(m, w.Now(), w.journal.files, t);
    KeysBounded(m, w.Now(), w.journal.files, t);
    DeliverableKeys(m, w.Now());
    hide Live, PhaseOf, Deliverable;
    o := Progress(calm); // the outbox is validated again
    if o.Ok? {
      o := DispatchStep(w, m, t, calm);
    }
    if o.Ok? && multiset(IntentKeys(t.core.intents)) != multiset(m.keys) {
      o := Thrown;
    }
  }

  lemma KeysJournaled(m: Mission, s: Outside, files: Files, t: Transaction)
    requires Live(m, s, files, t) && Done(PhaseOf(m, files))
    ensures IntentKeys(t.core.intents) == m.keys
  {
    assert forall i | 0 <= i < |m.keys| :: m.keys[i] in KeySet(m);
  }

  /** verifyProviderVersions and verifyDeliveredEffects: the events are held back until both pass. */
  method VerifyOutcome(w: World, m: Mission, t: Transaction, calm: bool) returns (o: Outcome<E.Events>)
    requires Live(m, w.Now(), w.journal.files, t) && Done(PhaseOf(m, w.journal.files))
    modifies w`receipts
    ensures Live(m, w.Now(), w.journal.files, t) && w.receipts == old(w.receipts)
    ensures o.Ok? ==> E.Whole(Expected(m.plan), o.value) && |o.value| == Everything(m) <= MAX_EVENTS
    ensures calm && Everything(m) <= MAX_EVENTS ==> o.Ok?
  {
    BothProvided(m, w.Now(), w.journal.files, t);
    hide Live, PhaseOf, Provides, E.Whole;
    var b := VerifyProviders(w, m.plan.before, calm);
    if !b.Ok? {
      return b;
    }
    var a := VerifyProviders(w, m.plan.after, calm);
    if !a.Ok? {
      return a;
    }
    WholeParts(m.plan, b.value, a.value);
    if |b.value + a.value| > MAX_EVENTS {
      return Thrown;
    }
    var e := VerifyDeliveredEffects(w, m, t, calm);
    o := match e case Ok(_) => Ok(b.value + a.value) case Thrown => Thrown case Crashed => Crashed;
  }

  lemma WholeParts(plan: Plan, b: E.Events, a: E.Events)
    requires E.Whole(Providers(plan.before), b) && E.Whole(Providers(plan.after), a)
    ensures E.Whole(Expected(plan), b + a) && |b + a| == |plan.before| + |plan.after|
  {
    assert Expected(plan) == Providers(plan.before) + Providers(plan.after);
  }

  lemma BothProvided(m: Mission, s: Outside, files: Files, t: Transaction)
    requires Live(m, s, files, t) && Done(PhaseOf(m, files))
    ensures Provides(s.providers, m.plan.before) && Provides(s.providers, m.plan.after)
  {
  }

  /** verifyJournalCanonical: the installed version is intact and Canonical is, or is put, at it. */
  method VerifyJournalCanonical(w: World, m: Mission, t: Transaction, calm: bool) returns (o: Outcome<()>)
    requires Live(m, w.Now(), w.journal.files, t) && Index(PhaseOf(m, w.journal.files)) >= 2
    modifies w`canonical
    ensures Live(m, w.Now(), w.journal.files, t) && w.canonical == old(w.canonical) == m.plan.targetState
    ensures calm ==> o.Ok?
  {
    LiveTarget(m, w.Now(), w.journal.files, t);
    hide Live, PhaseOf;
    var verified := w.VerifyInstalledPromotion(m, TargetCanonical(m.plan), calm);
    if !verified.Ok? {
      return if verified.Thrown? then Thrown else Crashed;
    }
    ghost var before := w.Now();
    var advanced := w.AdvancePromotion(m, calm);
    assert w.Now() == before;
    o := match advanced case Ok(_) => Ok(()) case Thrown => Thrown case Crashed => Crashed;
  }

  lemma LiveTarget(m: Mission, s: Outside, files: Files, t: Transaction)
    requires Live(m, s, files, t) && Index(PhaseOf(m, files)) >= 2
    ensures s.canonical == m.plan.targetState && m.plan.targetState in s.installed
    ensures m.plan.sourceState != m.plan.targetState
    ensures files[m.plan.runId].target == Some(TargetCanonical(m.plan))
  {
  }

  // ---- One stage per phase ----

  method RecoverInstalled(w: World, m: Mission, t: Transaction, calm: bool) returns (o: Outcome<()>, next: Transaction)
    requires Live(m, w.Now(), w.journal.files, t) && PhaseOf(m, w.journal.files) == VersionInstalled && Agrees(m, t)
    modifies w`canonical, w.journal
    ensures Evident(m, w.Now(), w.journal.files, next) && next.core.phase.Some? && next.recovered == t.recovered
    ensures PhaseOf(m, w.journal.files) in {VersionInstalled, CanonicalAdvanced}
    ensures o.Ok? ==> Live(m, w.Now(), w.journal.files, next) && PhaseOf(m, w.journal.files) == CanonicalAdvanced
    ensures o.Ok? ==> Agrees(m, next) && |next.evidence| == |t.evidence| + |m.plan.before| <= MAX_EVENTS
    ensures o.Ok? ==> Extends(m.plan.before, E.Reconcile, t.evidence, next.evidence)
    ensures calm && |t.evidence| + |m.plan.before| <= MAX_EVENTS ==> o.Ok?
  {
    InstalledFacts(m, w.Now(), w.journal.files, t);
    LivePhase(m, w.Now(), w.journal.files, t);
    LiveEvident(m, w.Now(), w.journal.files, t);
    hide Live, Inv, PhaseOf, Evident, Agrees, Provides, Advances, Evidenced, InPass, Extends;
    var verified := w.VerifyInstalledPromotion(m, TargetCanonical(m.plan), calm);
    if !verified.Ok? {
      return if verified.Thrown? then Thrown else Crashed, t;
    }
    LiveEvidenced(m, w.Now(), w.journal.files, t);
    PassStarts(m.plan, E.Reconcile, m.plan.before, t.evidence);
    o, next := ReconcileVisible(w, m, m.plan.before, t, calm);
    LiveEvident(m, w.Now(), w.journal.files, next);
    if o.Ok? {
      o, next := RecoverMove(w, m, next, calm);
    }
  }

  lemma InstalledFacts(m: Mission, s: Outside, files: Files, t: Transaction)
    requires Live(m, s, files, t) && PhaseOf(m, files) == VersionInstalled
    ensures m.plan.targetState in s.installed && Provides(s.providers, m.plan.before)
    ensures files[m.plan.runId].target == Some(TargetCanonical(m.plan))
  {
  }

  method RecoverMove(w: World, m: Mission, t: Transaction, calm: bool) returns (o: Outcome<()>, next: Transaction)
    requires Live(m, w.Now(), w.journal.files, t) && PhaseOf(m, w.journal.files) == VersionInstalled && Agrees(m, t)
    modifies w`canonical, w.journal
    ensures Evident(m, w.Now(), w.journal.files, next) && next.core.phase.Some? && next.recovered == t.recovered
    ensures PhaseOf(m, w.journal.files) in {VersionInstalled, CanonicalAdvanced}
    ensures o.Ok? ==> Live(m, w.Now(), w.journal.files, next) && PhaseOf(m, w.journal.files) == CanonicalAdvanced
    ensures o.Ok? ==> Agrees(m, next) && next.evidence == t.evidence && |t.evidence| <= MAX_EVENTS
    ensures calm && |t.evidence| <= MAX_EVENTS ==> o.Ok?
  {
    hide Live, Inv, PhaseOf, Evident, Agrees, Advances;
    o, next := MoveCanonical(w, m, t, calm);
    LiveEvident(m, w.Now(), w.journal.files, next);
    if o.Ok? {
      AgreesSame(m, t, next);
      o, next := JournalCanonical(w, m, next, calm);
    }
  }

  method RecoverAdvanced(w: World, m: Mission, t: Transaction, calm: bool) returns (o: Outcome<()>, next: Transaction)
    requires Live(m, w.Now(), w.journal.files, t) && PhaseOf(m, w.journal.files) == CanonicalAdvanced && Agrees(m, t)
    modifies w`canonical, w`providers, w`receipts, w.journal
    ensures Evident(m, w.Now(), w.journal.files, next) && next.core.phase.Some? && next.recovered == t.recovered
    ensures PhaseOf(m, w.journal.files) in {CanonicalAdvanced, EffectsDelivered}
    ensures o.Ok? ==> Live(m, w.Now(), w.journal.files, next) && PhaseOf(m, w.journal.files) == EffectsDelivered
    ensures o.Ok? ==> Agrees(m, next) && |next.evidence| == |t.evidence| + |m.plan.after| + |m.plan.after| <= MAX_EVENTS
    ensures o.Ok? ==> Stages(m.plan, CanonicalAdvanced, t.evidence, next.evidence)
    ensures o.Ok? ==> Deliverable(m, old(w.Now()))
    ensures calm && |t.evidence| + |m.plan.after| + |m.plan.after| <= MAX_EVENTS && Deliverable(m, old(w.Now())) ==>
      o.Ok?
  {
    LivePhase(m, w.Now(), w.journal.files, t);
    AlreadyAdvanced(m, w.Now(), w.journal.files, t);
    hide Live, Inv, PhaseOf, Evident, Agrees, Advances, Deliverable, Stages;
    next := t;
    o := VerifyJournalCanonical(w, m, t, calm);
    LiveEvident(m, w.Now(), w.journal.files, t);
    if !o.Ok? {
      return;
    }
    o := Progress(calm); // the prepared providers are restored
    if !o.Ok? {
      return;
    }
    DeliverableSame(m, old(w.Now()), w.Now());
    o, next := EffectsStep(w, m, RecordCanonicalAdvance(t, w.canonical), true, calm);
  }

  /** At this phase the advance is already recorded, so recording it again changes nothing. */
  lemma AlreadyAdvanced(m: Mission, s: Outside, files: Files, t: Transaction)
    requires Live(m, s, files, t) && PhaseOf(m, files) == CanonicalAdvanced
    ensures RecordCanonicalAdvance(t, m.plan.targetState) == t && CanonicalAdvance in t.events
  {
    LiveAdvance(m, s, files, t);
    AdvanceNoted(t.events);
  }

  method RecoverDelivered(w: World, m: Mission, t: Transaction, calm: bool) returns (o: Outcome<()>, next: Transaction)
    requires Live(m, w.Now(), w.journal.files, t) && PhaseOf(m, w.journal.files) == EffectsDelivered && Agrees(m, t)
    modifies w`canonical, w`receipts, w.journal
    ensures Evident(m, w.Now(), w.journal.files, next) && next.recovered == t.recovered
    ensures PhaseOf(m, w.journal.files) in {EffectsDelivered, Completed}
    ensures o.Ok? ==> Live(m, w.Now(), w.journal.files, next) && PhaseOf(m, w.journal.files) == Completed
    ensures o.Ok? ==> Final(m, next, w.receipts) && w.journal.files[m.plan.runId].transaction == next
    ensures o.Ok? ==> |t.evidence| + Everything(m) <= MAX_EVENTS
    ensures o.Ok? ==> Extends(m.plan.before + m.plan.after, E.Reconcile, t.evidence, next.evidence)
    ensures calm && |t.evidence| + Everything(m) <= MAX_EVENTS ==> o.Ok?
  {
    hide Live, Inv, PhaseOf, Evident, Agrees, Final, E.Whole, Extends;
    next := t;
    o := VerifyJournalCanonical(w, m, t, calm);
    LiveEvident(m, w.Now(), w.journal.files, t);
    if !o.Ok? {
      return;
    }
    var verified := VerifyOutcome(w, m, t, calm);
    LiveEvident(m, w.Now(), w.journal.files, t);
    if !verified.Ok? {
      return if verified.Thrown? then Thrown else Crashed, next;
    }
    if |t.evidence| + |verified.value| > MAX_EVENTS && verified.value != [] {
      return Thrown, next;
    }
    LiveVerified(m, w.Now(), w.journal.files, t, verified.value);
    VerifiedExtends(m.plan, t.evidence, verified.value);
    next := t.(evidence := t.evidence + verified.value);
    AgreesSame(m, t, next);
    o, next := CompleteStep(w, m, next, calm);
  }

  lemma VerifiedExtends(plan: Plan, evidence: E.Events, verification: E.Events)
    requires E.Whole(Expected(plan), verification)
    ensures Extends(plan.before + plan.after, E.Reconcile, evidence, evidence + verification)
  {
    assert (evidence + verification)[|evidence|..] == verification;
  }

  lemma LiveVerified(m: Mission, s: Outside, files: Files, t: Transaction, verification: E.Events)
    requires Live(m, s, files, t) && PhaseOf(m, files) != Completed && E.Whole(Expected(m.plan), verification)
    ensures Live(m, s, files, t.(evidence := t.evidence + verification))
  {
    LiveMission(m, s, files, t);
    LiveEvidenced(m, s, files, t);
    hide Live, Evidenced;
    VerifiedKeeps(m.plan, t.evidence, verification);
    LiveEvent(m, s, files, t, t.evidence + verification);
  }

  /** A completed journal is verified again, and its evidence brought to its normal form: what RecoveryNormaliser's
    Recover makes of it and of the verification. */
  method RecoverCompleted(w: World, m: Mission, calm: bool) returns (o: Outcome<Transaction>,
                          ghost verification: E.Events)
    requires Inv(m, w.Now(), w.journal.files) && m.plan.runId in w.journal.files
    requires PhaseOf(m, w.journal.files) == Completed
    modifies w`canonical, w`receipts, w.journal
    ensures Inv(m, w.Now(), w.journal.files) && m.plan.runId in w.journal.files
    ensures PhaseOf(m, w.journal.files) == Completed
    ensures o.Ok? ==>
      w.journal.files[m.plan.runId].transaction == o.value && Final(m, o.value, w.receipts) && o.value.recovered
    ensures o.Ok? ==> EndsWhole(m.plan, o.value.evidence)
    ensures o.Ok? ==> E.Whole(Expected(m.plan), verification)
    ensures o.Ok? ==>
      R.Recover(Journaled(m.plan, old(w.journal.files)[m.plan.runId].transaction), Published(m.plan, w.authority),
        verification)
                      == R.Ok(Journaled(m.plan, o.value))
    ensures o.Ok? ==> RoomToRead(m, old(w.journal.files), w.authority)
    ensures !Readable(m, old(w.journal.files), w.authority) ==> w.journal.files == old(w.journal.files)
    ensures calm && RoomToRead(m, old(w.journal.files), w.authority) ==> o.Ok?
  {
    RoomAtEnd(m, w.journal.files, w.authority);
    hide *;
    verification := [];
    var stored := w.journal.files[m.plan.runId].transaction;
    var prior: R.Result<R.Inspection> := R.Ok(R.Inspection(false, E.None));
    if stored.recovered {
      prior := R.InspectCompletedPromotionRecovery(Journaled(m.plan, stored), Published(m.plan, w.authority));
    }
    if prior.Err? {
      return Thrown, verification;
    }
    var verified := VerifyCompleted(w, m, calm);
    if !verified.Ok? {
      return if verified.Thrown? then Thrown else Crashed, verification;
    }
    verification := verified.value;
    o := Renew(w, m, prior.value, verified.value, calm);
  }

  /** Canonical, the providers' versions and the delivered effects of a completed journal. */
  method VerifyCompleted(w: World, m: Mission, calm: bool) returns (o: Outcome<E.Events>)
    requires Inv(m, w.Now(), w.journal.files) && m.plan.runId in w.journal.files
    requires PhaseOf(m, w.journal.files) == Completed
    modifies w`canonical, w`receipts
    ensures Inv(m, w.Now(), w.journal.files) && w.receipts == old(w.receipts)
    ensures o.Ok? ==> E.Whole(Expected(m.plan), o.value) && |o.value| == Everything(m) <= MAX_EVENTS
    ensures calm && Everything(m) <= MAX_EVENTS ==> o.Ok?
  {
    assert Index(Completed) >= 2 && Done(Completed);
    hide *;
    var stored := w.journal.files[m.plan.runId].transaction;
    StoredLive(m, w.Now(), w.journal.files);
    var c := VerifyJournalCanonical(w, m, stored, calm);
    LiveInv(m, w.Now(), w.journal.files, stored);
    if !c.Ok? {
      return if c.Thrown? then Thrown else Crashed;
    }
    o := VerifyOutcome(w, m, stored, calm);
    LiveInv(m, w.Now(), w.journal.files, stored);
  }

  lemma RoomAtEnd(m: Mission, files: Files, a: Option<Authority>)
    requires m.plan.runId in files && PhaseOf(m, files) == Completed
    ensures var t := files[m.plan.runId].transaction;
      && Prior(m.plan, t, a) ==
        (if t.recovered then R.Inspect(Journaled(m.plan, t), Published(m.plan, a))
        else R.Ok(R.Inspection(false, E.None)))
      && (Readable(m, files, a) <==> Prior(m.plan, t, a).Ok?) && (RoomToRead(m, files, a) ==> Prior(m.plan, t, a).Ok?)
      && (Readable(m, files, a) ==>
          var prior := Prior(m.plan, t, a).value;
          RoomToRead(m, files, a) <==>
          Everything(m) <= MAX_EVENTS && (prior.complete || |KeptEvidence(t, prior)| + Everything(m) <= MAX_EVENTS))
  {
    hide R.Inspect;
  }

  /** The journal's transaction after a verification: as it is, or with its evidence renewed. */
  method Renew(w: World, m: Mission, prior: R.Inspection, verification: E.Events, calm: bool)
    returns (o: Outcome<Transaction>)
    requires Inv(m, w.Now(), w.journal.files) && m.plan.runId in w.journal.files
    requires PhaseOf(m, w.journal.files) == Completed
    requires Prior(m.plan, w.journal.files[m.plan.runId].transaction, w.authority) == R.Ok(prior)
    requires E.Whole(Expected(m.plan), verification) && |verification| == Everything(m)
    modifies w.journal
    ensures Inv(m, w.Now(), w.journal.files) && m.plan.runId in w.journal.files
    ensures PhaseOf(m, w.journal.files) == Completed
    ensures o.Ok? ==>
      w.journal.files[m.plan.runId].transaction == o.value && Final(m, o.value, w.receipts) && o.value.recovered
    ensures o.Ok? ==>
      R.Recover(Journaled(m.plan, old(w.journal.files)[m.plan.runId].transaction), Published(m.plan, w.authority),
        verification)
                      == R.Ok(Journaled(m.plan, o.value))
    ensures o.Ok? ==> EndsWhole(m.plan, o.value.evidence)
    ensures var t := old(w.journal.files)[m.plan.runId].transaction;
      o.Ok? ==> prior.complete || |KeptEvidence(t, prior)| + Everything(m) <= MAX_EVENTS
    ensures var t := old(w.journal.files)[m.plan.runId].transaction;
      calm && (prior.complete || |KeptEvidence(t, prior)| + Everything(m) <= MAX_EVENTS) ==> o.Ok?
  {
    hide *;
    var stored := w.journal.files[m.plan.runId].transaction;
    StoredLive(m, w.Now(), w.journal.files);
    StoredFinal(m, w.Now(), w.journal.files);
    RoomAtEnd(m, w.journal.files, w.authority);
    RecoveredFits(m, w.Now(), w.journal.files, verification);
    RecoverIs(m.plan, stored, w.authority, prior, verification);
    RenewedEnds(m, w.Now(), w.journal.files, verification);
    var kept := KeptEvidence(stored, prior);
    if prior.complete && stored.status != RecoveryError && !stored.recoveryError && prior.normalized.None? {
      return Ok(stored);
    }
    if !prior.complete && |kept| + |verification| > MAX_EVENTS && verification != [] {
      return Thrown;
    }
    o := Rewrite(w, m, stored, if prior.complete then kept else kept + verification, calm);
  }

  lemma RenewedEnds(m: Mission, s: Outside, files: Files, verification: E.Events)
    requires Inv(m, s, files) && m.plan.runId in files && PhaseOf(m, files) == Completed
    requires E.Whole(Expected(m.plan), verification)
    requires Prior(m.plan, files[m.plan.runId].transaction, s.authority).Ok?
    ensures var t := files[m.plan.runId].transaction;
      var prior := Prior(m.plan, t, s.authority).value;
      var kept := KeptEvidence(t, prior);
      EndsWhole(m.plan, if prior.complete then kept else kept + verification)
  {
    var t := files[m.plan.runId].transaction;
    assert DistinctProviders(m.plan.before + m.plan.after) && AuthorityFits(m.plan, s.authority, Completed, t);
    hide *;
    var prior := Prior(m.plan, t, s.authority).value;
    if prior.complete {
      CompleteEnds(m.plan, t, s.authority);
    } else {
      VerifiedEnds(m.plan, KeptEvidence(t, prior), verification);
    }
  }

  lemma RecoverIs(plan: Plan, t: Transaction, a: Option<Authority>, prior: R.Inspection, verification: E.Events)
    requires Prior(plan, t, a) == R.Ok(prior)
    ensures prior.complete ==> t.recovered
    ensures prior.normalized.None? ==> KeptEvidence(t, prior) == t.evidence
    ensures var kept := KeptEvidence(t, prior);
      R.Recover(Journaled(plan, t), Published(plan, a), verification) ==
        if prior.complete && t.status != RecoveryError && !t.recoveryError &&
          prior.normalized.None? then R.Ok(Journaled(plan, t))
        else if !prior.complete && |kept| + |verification| > MAX_EVENTS &&
          verification != [] then R.Err("evidence exceeds 256 events")
        else R.Ok(Journaled(plan, t.(status := Promoted, recovered := true, recoveryError := false,
                                     evidence := if prior.complete then kept else kept + verification)))
  {
    hide R.Inspect;
  }

  /** What recovery makes of the evidence fits the journal and its authority. */
  lemma RecoveredFits(m: Mission, s: Outside, files: Files, verification: E.Events)
    requires Inv(m, s, files) && m.plan.runId in files && PhaseOf(m, files) == Completed
    requires E.Whole(Expected(m.plan), verification)
    requires Readable(m, files, s.authority)
    ensures var t := files[m.plan.runId].transaction;
      var prior := Prior(m.plan, t, s.authority).value;
      var kept := KeptEvidence(t, prior);
      var u := t.(recovered := true, evidence := if prior.complete then kept else kept + verification);
      && Evidenced(m.plan, u.evidence) && AuthorityFits(m.plan, s.authority, Completed, u) && |kept| <= MAX_EVENTS
      && (verification == [] ==> u.evidence == kept)
  {
    var t := files[m.plan.runId].transaction;
    assert WellFormed(m) && Evidenced(m.plan, t.evidence) && AuthorityFits(m.plan, s.authority, Completed, t) &&
      |t.evidence| <= MAX_EVENTS;
    hide Inv, Evidenced, DistinctProviders, E.Whole, R.Inspect;
    if s.authority.Some? {
      AuthorityReadable(m.plan, t, s.authority);
      VerifiedKeeps(m.plan, t.evidence, verification);
      if !t.recovered { assert (t.evidence + verification)[|t.evidence|..] == verification; }
    } else {
      KeptEvidenced(m.plan, t);
      VerifiedKeeps(m.plan, KeptEvidence(t, Prior(m.plan, t, None).value), verification);
    }
  }

  method Rewrite(w: World, m: Mission, t: Transaction, evidence: E.Events, calm: bool) returns (o: Outcome<Transaction>)
    requires Live(m, w.Now(), w.journal.files, t) && PhaseOf(m, w.journal.files) == Completed && Agrees(m, t)
    requires |evidence| <= MAX_EVENTS && Evidenced(m.plan, evidence)
    requires AuthorityFits(m.plan, w.authority, Completed, t.(recovered := true, evidence := evidence))
    modifies w.journal
    ensures Inv(m, w.Now(), w.journal.files) && m.plan.runId in w.journal.files
    ensures PhaseOf(m, w.journal.files) == Completed
    ensures o.Ok? ==> w.journal.files[m.plan.runId].transaction == o.value && Final(m, o.value, w.receipts)
    ensures o.Ok? ==> o.value == t.(status := Promoted, recovered := true, recoveryError := false, evidence := evidence)
    ensures calm ==> o.Ok?
  {
    RewriteLive(m, w.Now(), w.journal.files, t, evidence);
    hide Live, Inv, PhaseOf, Agrees, Final, Evidenced, AuthorityFits;
    var next := t.(status := Promoted, recovered := true, recoveryError := false, evidence := evidence);
    AgreesSame(m, t, next);
    var fate := Next(calm);
    o := Update(w, m, next, fate);
    LiveInv(m, w.Now(), w.journal.files, next);
  }

  lemma LiveInv(m: Mission, s: Outside, files: Files, t: Transaction)
    requires Live(m, s, files, t)
    ensures Inv(m, s, files) && m.plan.runId in files
  {
  }

  lemma RewriteLive(m: Mission, s: Outside, files: Files, t: Transaction, evidence: E.Events)
    requires Live(m, s, files, t) && PhaseOf(m, files) == Completed && Agrees(m, t) && Evidenced(m.plan, evidence)
    requires AuthorityFits(m.plan, s.authority, Completed, t.(recovered := true, evidence := evidence))
    ensures var u := t.(status := Promoted, recovered := true, recoveryError := false, evidence := evidence);
      Live(m, s, files, u) && Final(m, u, s.receipts)
  {
    AllInstalled(m, t);
  }

  /** The journal's transaction is live; so is the same one marked recovered, until the journal is completed. */
  lemma StoredLive(m: Mission, s: Outside, files: Files)
    requires Inv(m, s, files) && m.plan.runId in files
    ensures var t := files[m.plan.runId].transaction;
      && Live(m, s, files, t) && Agrees(m, t) && |t.evidence| <= MAX_EVENTS
      && (PhaseOf(m, files) != Completed ==>
          var u := t.(recovered := true, recoveryError := false); Live(m, s, files, u) && Agrees(m, u))
  {
  }

  lemma StoredFinal(m: Mission, s: Outside, files: Files)
    requires Inv(m, s, files) && m.plan.runId in files && PhaseOf(m, files) == Completed
    ensures var t := files[m.plan.runId].transaction;
      t.status != RecoveryError ==> Final(m, t, s.receipts)
  {
    AllInstalled(m, files[m.plan.runId].transaction);
  }

  // ---- The whole reconcile ----

  /** A stage left the journal at least as far on, and its transaction may still be unrecorded. */
  ghost predicate Stands(m: Mission, s: Outside, files: Files, from: Phase) {
    Inv(m, s, files) && m.plan.runId in files && Index(PhaseOf(m, files)) >= Index(from)
  }

  /** A completed journal whose evidence recovery cannot read. */
  ghost predicate Wedged(m: Mission, s: Outside, files: Files) {
    Inv(m, s, files) && m.plan.runId in files && PhaseOf(m, files) == Completed && !Readable(m, files, s.authority)
  }

  /** reconcilePromotion: from any phase to completed and final, or with the phase no further back than it was. In calm
    weather it finishes exactly when it can. */
  method ReconcilePromotion(w: World, m: Mission, scope: string, calm: bool) returns (o: Outcome<Transaction>)
    requires Inv(m, w.Now(), w.journal.files) && m.plan.runId in w.journal.files
    modifies w, w.journal
    ensures Stands(m, w.Now(), w.journal.files, PhaseOf(m, old(w.journal.files))) && w.authority == old(w.authority)
    ensures o.Ok? ==> PhaseOf(m, w.journal.files) == Completed && w.journal.files[m.plan.runId].transaction == o.value
    ensures o.Ok? ==> Final(m, o.value, w.receipts) && o.value.recovered && EndsWhole(m.plan, o.value.evidence)
    ensures o.Ok? ==>
      o.value.core.disposition == Some(Promoted) && o.value.core.canonicalAfter == Some(m.plan.targetState)
    ensures o.Ok? ==> o.value.core.delivered == |m.keys| && o.value.core.receipt
    ensures Wedged(m, old(w.Now()), old(w.journal.files)) ==> w.journal.files == old(w.journal.files) && !o.Ok?
    ensures o.Ok? && PhaseOf(m, old(w.journal.files)) != Completed ==>
      Recorded(m.plan, PhaseOf(m, old(w.journal.files)), old(w.journal.files)[m.plan.runId].transaction.evidence,
               o.value.evidence)
    ensures o.Ok? ==> CanFinish(m, old(w.Now()), old(w.journal.files), scope)
    ensures calm && CanFinish(m, old(w.Now()), old(w.journal.files), scope) ==> o.Ok?
  {
    ghost var start := PhaseOf(m, w.journal.files);
    hide *;
    o := ReconcileStages(w, m, scope, calm);
    if o.Ok? {
      FinalNames(m, o.value, w.receipts);
      StandsInv(m, w.Now(), w.journal.files, start);
      var closing := CloseRecovery(w, m, calm);
      StandsAt(m, w.Now(), w.journal.files, start);
      if !closing.Ok? {
        o := if closing.Thrown? then Thrown else Crashed;
      }
    }
  }

  /** The scope, then the stages from the journal's phase on. */
  method ReconcileStages(w: World, m: Mission, scope: string, calm: bool) returns (o: Outcome<Transaction>)
    requires Inv(m, w.Now(), w.journal.files) && m.plan.runId in w.journal.files
    modifies w, w.journal
    ensures Stands(m, w.Now(), w.journal.files, PhaseOf(m, old(w.journal.files))) && w.authority == old(w.authority)
    ensures o.Ok? ==> PhaseOf(m, w.journal.files) == Completed && w.journal.files[m.plan.runId].transaction == o.value
    ensures o.Ok? ==> Final(m, o.value, w.receipts) && o.value.recovered && EndsWhole(m.plan, o.value.evidence)
    ensures Wedged(m, old(w.Now()), old(w.journal.files)) ==> w.journal.files == old(w.journal.files) && !o.Ok?
    ensures o.Ok? && PhaseOf(m, old(w.journal.files)) != Completed ==>
      Recorded(m.plan, PhaseOf(m, old(w.journal.files)), old(w.journal.files)[m.plan.runId].transaction.evidence,
               o.value.evidence)
    ensures o.Ok? ==> CanFinish(m, old(w.Now()), old(w.journal.files), scope)
    ensures calm && CanFinish(m, old(w.Now()), old(w.journal.files), scope) ==> o.Ok?
  {
    ScopeBound(m, w.Now(), w.journal.files, scope);
    StoredLive(m, w.Now(), w.journal.files);
    CanFinishAt(m, w.Now(), w.journal.files, scope);
    WedgedMeans(m, w.Now(), w.journal.files, scope);
    InvStands(m, w.Now(), w.journal.files, PhaseOf(m, w.journal.files));
    ghost var start := PhaseOf(m, w.journal.files);
    hide Inv, Live, Agrees, Stands, Final, CanFinish, Deliverable, Readable, Room, RoomToRead, Needed, BindMove,
      OnlyForward, ValidFiles, Recorded, Wedged, EndsWhole;
    var bound := w.journal.BindExternalActionScope(m.plan.runId, scope, calm);
    if !bound.Ok? {
      return if bound.Thrown? then Thrown else Crashed;
    }
    if bound.value.phase == Completed {
      ghost var verification;
      o, verification := RecoverCompleted(w, m, calm);
      InvStands(m, w.Now(), w.journal.files, start);
    } else {
      var t := bound.value.transaction.(recovered := true, recoveryError := false);
      o := Finish(w, m, t, calm);
      if o.Ok? { RecordedEnds(m.plan, start, t.evidence, o.value.evidence); }
    }
  }

  lemma RecordedEnds(plan: Plan, phase: Phase, before: E.Events, after: E.Events)
    requires Recorded(plan, phase, before, after)
    ensures EndsWhole(plan, after)
  {
    hide Stages;
    var n := |plan.before + plan.after|;
    assert after[|after[..|after| - n]|..] == after[|after| - n..];
  }

  lemma WedgedMeans(m: Mission, s: Outside, files: Files, scope: string)
    ensures Wedged(m, s, files) <==>
      Inv(m, s, files) && m.plan.runId in files && PhaseOf(m, files) == Completed && !Readable(m, files, s.authority)
    ensures Wedged(m, s, files) ==> !CanFinish(m, s, files, scope)
  {
  }

  lemma StandsAt(m: Mission, s: Outside, files: Files, from: Phase)
    requires Inv(m, s, files) && m.plan.runId in files && PhaseOf(m, files) == Completed
    ensures Stands(m, s, files, from)
  {
  }

  lemma CanFinishAt(m: Mission, s: Outside, files: Files, scope: string)
    requires Inv(m, s, files) && m.plan.runId in files
    ensures var t := files[m.plan.runId].transaction;
      if PhaseOf(m, files) == Completed then
        CanFinish(m, s, files, scope) <==> scope == m.scope && RoomToRead(m, files, s.authority)
      else
        CanFinish(m, s, files, scope) <==>
        scope == m.scope && Deliverable(m, s) && |t.evidence| + Needed(m, PhaseOf(m, files)) <= MAX_EVENTS
  {
    if PhaseOf(m, files) == Completed { DoneDeliverable(m, s, files); }
    hide Inv, Deliverable, Prior, Needed;
  }

  lemma InvStands(m: Mission, s: Outside, files: Files, from: Phase)
    requires Inv(m, s, files) && m.plan.runId in files
    ensures ValidFiles(files)
    ensures Index(PhaseOf(m, files)) >= Index(from) ==> Stands(m, s, files, from)
  {
  }

  lemma StandsInv(m: Mission, s: Outside, files: Files, from: Phase)
    requires Stands(m, s, files, from)
    ensures Inv(m, s, files) && m.plan.runId in files
  {
  }

  /** The last look at Canonical before a reconcile returns. */
  method CloseRecovery(w: World, m: Mission, calm: bool) returns (o: Outcome<()>)
    requires Inv(m, w.Now(), w.journal.files) && m.plan.runId in w.journal.files
    requires PhaseOf(m, w.journal.files) == Completed
    modifies w`canonical
    ensures Inv(m, w.Now(), w.journal.files) && w.canonical == old(w.canonical)
    ensures calm ==> o.Ok?
  {
    StoredLive(m, w.Now(), w.journal.files);
    var t := w.journal.files[m.plan.runId].transaction;
    hide Live, Inv, PhaseOf;
    o := VerifyJournalCanonical(w, m, t, calm);
    LiveInv(m, w.Now(), w.journal.files, t);
  }

  lemma DoneDeliverable(m: Mission, s: Outside, files: Files)
    requires Inv(m, s, files) && m.plan.runId in files && Done(PhaseOf(m, files))
    ensures Deliverable(m, s)
  {
  }

  lemma ScopeBound(m: Mission, s: Outside, files: Files, scope: string)
    requires Inv(m, s, files) && m.plan.runId in files
    ensures BindMove(files, m.plan.runId, scope) == if scope == m.scope then Stay(files[m.plan.runId]) else Refuse
  {
  }

  /** The stages in turn, from whichever phase the journal is in. */
  method Finish(w: World, m: Mission, t: Transaction, calm: bool) returns (o: Outcome<Transaction>)
    requires Live(m, w.Now(), w.journal.files, t) && PhaseOf(m, w.journal.files) != Completed && Agrees(m, t)
    requires t.recovered
    modifies w, w.journal
    ensures Stands(m, w.Now(), w.journal.files, PhaseOf(m, old(w.journal.files)))
    ensures o.Ok? ==> PhaseOf(m, w.journal.files) == Completed && w.journal.files[m.plan.runId].transaction == o.value
    ensures o.Ok? ==> Final(m, o.value, w.receipts) && o.value.recovered
    ensures o.Ok? ==> Recorded(m.plan, PhaseOf(m, old(w.journal.files)), t.evidence, o.value.evidence)
    ensures w.authority == old(w.authority)
    ensures o.Ok? ==>
      |t.evidence| + Needed(m, PhaseOf(m, old(w.journal.files))) <= MAX_EVENTS && Deliverable(m, old(w.Now()))
    ensures (calm && |t.evidence| + Needed(m, PhaseOf(m, old(w.journal.files))) <= MAX_EVENTS
             && Deliverable(m, old(w.Now()))) ==> o.Ok?
  {
    hide *;
    var start := PhaseOf(m, w.journal.files);
    LiveStands(m, w.Now(), w.journal.files, t, start);
    var step, next := FinishBefore(w, m, t, calm);
    EvidentStands(m, w.Now(), w.journal.files, next, start);
    if !step.Ok? {
      return if step.Thrown? then Thrown else Crashed;
    }
    o := FinishLast(w, m, next, start, calm);
    if o.Ok? { RecordedLast(m.plan, start, t.evidence, next.evidence, o.value.evidence); }
  }

  /** The last stage, with the transaction it leaves. */
  method FinishLast(w: World, m: Mission, t: Transaction, ghost start: Phase, calm: bool)
    returns (o: Outcome<Transaction>)
    requires Live(m, w.Now(), w.journal.files, t) && PhaseOf(m, w.journal.files) == EffectsDelivered
    requires Agrees(m, t) && t.recovered && Index(EffectsDelivered) >= Index(start)
    modifies w`canonical, w`receipts, w.journal
    ensures Stands(m, w.Now(), w.journal.files, start)
    ensures o.Ok? ==> PhaseOf(m, w.journal.files) == Completed && m.plan.runId in w.journal.files
    ensures o.Ok? ==> w.journal.files[m.plan.runId].transaction == o.value
    ensures o.Ok? ==> Final(m, o.value, w.receipts) && o.value.recovered && |t.evidence| + Everything(m) <= MAX_EVENTS
    ensures o.Ok? ==> Extends(m.plan.before + m.plan.after, E.Reconcile, t.evidence, o.value.evidence)
    ensures calm && |t.evidence| + Everything(m) <= MAX_EVENTS ==> o.Ok?
  {
    assert Index(Completed) >= Index(EffectsDelivered);
    hide *;
    var step, next := RecoverDelivered(w, m, t, calm);
    EvidentStands(m, w.Now(), w.journal.files, next, start);
    EvidentInv(m, w.Now(), w.journal.files, next);
    o := match step case Ok(_) => Ok(next) case Thrown => Thrown case Crashed => Crashed;
  }

  /** The stages before the last, one phase at a time. */
  method FinishBefore(w: World, m: Mission, t: Transaction, calm: bool) returns (step: Outcome<()>, next: Transaction)
    requires Live(m, w.Now(), w.journal.files, t) && PhaseOf(m, w.journal.files) != Completed && Agrees(m, t)
    modifies w, w.journal
    ensures Evident(m, w.Now(), w.journal.files, next) && next.recovered == t.recovered
    ensures Index(PhaseOf(m, w.journal.files)) >= Index(PhaseOf(m, old(w.journal.files)))
    ensures step.Ok? ==>
      Live(m, w.Now(), w.journal.files, next) && PhaseOf(m, w.journal.files) == EffectsDelivered && Agrees(m, next)
    ensures w.authority == old(w.authority)
    ensures step.Ok? ==> |next.evidence| + Everything(m) == |t.evidence| + Needed(m, PhaseOf(m, old(w.journal.files)))
    ensures step.Ok? ==> Stages(m.plan, PhaseOf(m, old(w.journal.files)), t.evidence, next.evidence)
    ensures step.Ok? ==> Deliverable(m, old(w.Now()))
    ensures (calm && |t.evidence| + Needed(m, PhaseOf(m, old(w.journal.files))) <= MAX_EVENTS
             && Deliverable(m, old(w.Now()))) ==> step.Ok?
  {
    NeededBy(m);
    LiveEvident(m, w.Now(), w.journal.files, t);
    var start := PhaseOf(m, w.journal.files);
    hide Live, Inv, PhaseOf, Agrees, Evident, Deliverable, Needed, Everything, Stages, Extends;
    step, next := Ok(()), t;
    if start == Validated {
      step := Progress(calm); // the prepared providers are restored
      if !step.Ok? {
        return;
      }
      step, next := InstallStep(w, m, next, true, calm);
      if !step.Ok? {
        return;
      }
    }
    DeliverableSame(m, old(w.Now()), w.Now());
    var first := next.evidence;
    step, next := FinishInstalled(w, m, next, calm);
    if step.Ok? && start == Validated { StagesFirst(m.plan, Validated, t.evidence, first, next.evidence); }
  }

  method FinishInstalled(w: World, m: Mission, t: Transaction, calm: bool)
    returns (step: Outcome<()>, next: Transaction)
    requires Live(m, w.Now(), w.journal.files, t)
    requires PhaseOf(m, w.journal.files) in {VersionInstalled, CanonicalAdvanced, EffectsDelivered} && Agrees(m, t)
    modifies w, w.journal
    ensures Evident(m, w.Now(), w.journal.files, next) && next.recovered == t.recovered
    ensures Index(PhaseOf(m, w.journal.files)) >= Index(PhaseOf(m, old(w.journal.files)))
    ensures step.Ok? ==>
      Live(m, w.Now(), w.journal.files, next) && PhaseOf(m, w.journal.files) == EffectsDelivered && Agrees(m, next)
    ensures w.authority == old(w.authority)
    ensures step.Ok? ==> |next.evidence| + Everything(m) == |t.evidence| + Needed(m, PhaseOf(m, old(w.journal.files)))
    ensures step.Ok? ==> Stages(m.plan, PhaseOf(m, old(w.journal.files)), t.evidence, next.evidence)
    ensures step.Ok? ==> Deliverable(m, old(w.Now()))
    ensures (calm && |t.evidence| + Needed(m, PhaseOf(m, old(w.journal.files))) <= MAX_EVENTS
             && Deliverable(m, old(w.Now()))) ==> step.Ok?
  {
    NeededBy(m);
    LiveEvident(m, w.Now(), w.journal.files, t);
    var start := PhaseOf(m, w.journal.files);
    hide Live, Inv, PhaseOf, Agrees, Evident, Deliverable, Needed, Everything, Stages, Extends;
    step, next := Ok(()), t;
    if start == VersionInstalled {
      step, next := RecoverInstalled(w, m, next, calm);
      if !step.Ok? {
        return;
      }
    }
    DeliverableSame(m, old(w.Now()), w.Now());
    var first := next.evidence;
    step, next := FinishAdvanced(w, m, next, calm);
    if step.Ok? &&
      start == VersionInstalled { StagesFirst(m.plan, VersionInstalled, t.evidence, first, next.evidence); }
  }

  method FinishAdvanced(w: World, m: Mission, t: Transaction, calm: bool) returns (step: Outcome<()>, next: Transaction)
    requires Live(m, w.Now(), w.journal.files, t)
    requires PhaseOf(m, w.journal.files) in {CanonicalAdvanced, EffectsDelivered} && Agrees(m, t)
    modifies w, w.journal
    ensures Evident(m, w.Now(), w.journal.files, next) && next.recovered == t.recovered
    ensures Index(PhaseOf(m, w.journal.files)) >= Index(PhaseOf(m, old(w.journal.files)))
    ensures step.Ok? ==>
      Live(m, w.Now(), w.journal.files, next) && PhaseOf(m, w.journal.files) == EffectsDelivered && Agrees(m, next)
    ensures w.authority == old(w.authority)
    ensures step.Ok? ==> |next.evidence| + Everything(m) == |t.evidence| + Needed(m, PhaseOf(m, old(w.journal.files)))
    ensures step.Ok? ==> Stages(m.plan, PhaseOf(m, old(w.journal.files)), t.evidence, next.evidence)
    ensures step.Ok? ==> Deliverable(m, old(w.Now()))
    ensures (calm && |t.evidence| + Needed(m, PhaseOf(m, old(w.journal.files))) <= MAX_EVENTS
             && Deliverable(m, old(w.Now()))) ==> step.Ok?
  {
    NeededBy(m);
    LiveEvident(m, w.Now(), w.journal.files, t);
    var start := PhaseOf(m, w.journal.files);
    if start == EffectsDelivered {
      LiveInv(m, w.Now(), w.journal.files, t);
      DoneDeliverable(m, w.Now(), w.journal.files);
    }
    hide Live, Inv, PhaseOf, Agrees, Evident, Deliverable, Needed, Everything, Stages, Extends;
    step, next := Ok(()), t;
    StagesNone(m.plan, t.evidence);
    if start == CanonicalAdvanced {
      step, next := RecoverAdvanced(w, m, next, calm);
    }
  }

  lemma StagesNone(plan: Plan, evidence: E.Events)
    ensures Stages(plan, EffectsDelivered, evidence, evidence)
  {
  }

  lemma NeededBy(m: Mission)
    ensures Needed(m, Validated) == |m.plan.before| + Needed(m, VersionInstalled)
    ensures Needed(m, VersionInstalled) == |m.plan.before| + Needed(m, CanonicalAdvanced)
    ensures Needed(m, CanonicalAdvanced) == |m.plan.after| + |m.plan.after| + Everything(m)
    ensures Needed(m, EffectsDelivered) == Everything(m)
  {
  }

  lemma LiveStands(m: Mission, s: Outside, files: Files, t: Transaction, from: Phase)
    requires Live(m, s, files, t)
    ensures Index(PhaseOf(m, files)) >= Index(from) ==> Stands(m, s, files, from)
  {
  }

  lemma EvidentStands(m: Mission, s: Outside, files: Files, t: Transaction, from: Phase)
    requires Evident(m, s, files, t)
    ensures Index(PhaseOf(m, files)) >= Index(from) ==> Stands(m, s, files, from)
  {
  }

  // ---- Startup, over and over ----

  /** The startup loop's turn for one Run: a reconcile that throws has its error recorded. */
  method ReconcileAtStartup(w: World, m: Mission, scope: string, calm: bool) returns (o: Outcome<Transaction>)
    requires Inv(m, w.Now(), w.journal.files) && m.plan.runId in w.journal.files
    modifies w, w.journal
    ensures Stands(m, w.Now(), w.journal.files, PhaseOf(m, old(w.journal.files))) && w.authority == old(w.authority)
    ensures o.Ok? ==> PhaseOf(m, w.journal.files) == Completed && w.journal.files[m.plan.runId].transaction == o.value
    ensures o.Ok? ==> Final(m, o.value, w.receipts) && o.value.recovered && EndsWhole(m.plan, o.value.evidence)
    ensures Wedged(m, old(w.Now()), old(w.journal.files)) ==> Wedged(m, w.Now(), w.journal.files) && !o.Ok?
    ensures o.Ok? && PhaseOf(m, old(w.journal.files)) != Completed ==>
      Recorded(m.plan, PhaseOf(m, old(w.journal.files)), old(w.journal.files)[m.plan.runId].transaction.evidence,
               o.value.evidence)
    ensures o.Ok? ==> CanFinish(m, old(w.Now()), old(w.journal.files), scope)
    ensures calm && CanFinish(m, old(w.Now()), old(w.journal.files), scope) ==> o.Ok?
  {
    hide *;
    o := ReconcilePromotion(w, m, scope, calm);
    ghost var start := PhaseOf(m, old(w.journal.files));
    StandsInv(m, w.Now(), w.journal.files, start);
    WedgedMoved(m, old(w.Now()), w.Now(), w.journal.files);
    if o.Thrown? {
      StandsIndex(m, w.Now(), w.journal.files, start);
      var recorded := RecordError(w, m, calm);
      InvStands(m, w.Now(), w.journal.files, start);
      if recorded.Crashed? {
        o := Crashed;
      }
    }
  }

  /** The error of a reconcile that threw is noted; the evidence stays. */
  method RecordError(w: World, m: Mission, calm: bool) returns (o: Outcome<Record>)
    requires Inv(m, w.Now(), w.journal.files) && m.plan.runId in w.journal.files
    modifies w.journal
    ensures Inv(m, w.Now(), w.journal.files) && m.plan.runId in w.journal.files
    ensures PhaseOf(m, w.journal.files) == PhaseOf(m, old(w.journal.files))
    ensures w.journal.files[m.plan.runId].transaction.evidence ==
      old(w.journal.files)[m.plan.runId].transaction.evidence
    ensures Wedged(m, w.Now(), old(w.journal.files)) ==> Wedged(m, w.Now(), w.journal.files)
  {
    ErrorKeeps(m, w.Now(), w.journal.files);
    ErrorWedged(m, w.Now(), w.Now(), w.journal.files);
    hide Inv, PhaseOf, ErrorMove, ValidFiles, OnlyForward, Wedged;
    o := w.journal.RecordRecoveryError(m.plan.runId, w.journal.files[m.plan.runId].transaction, calm);
  }

  lemma StandsIndex(m: Mission, s: Outside, files: Files, from: Phase)
    requires Stands(m, s, files, from)
    ensures Index(PhaseOf(m, files)) >= Index(from)
  {
  }

  /** Being unreadable depends on nothing outside but the published decision. */
  lemma WedgedMoved(m: Mission, before: Outside, s: Outside, files: Files)
    requires Inv(m, s, files) && s.authority == before.authority
    ensures Wedged(m, before, files) ==> Wedged(m, s, files)
  {
  }

  /** An unreadable journal stays so when its error is recorded. */
  lemma ErrorWedged(m: Mission, before: Outside, s: Outside, files: Files)
    requires Inv(m, s, files) && m.plan.runId in files && s.authority == before.authority
    ensures var e := Errored(files[m.plan.runId], files[m.plan.runId].transaction);
      Wedged(m, before, files) ==> Wedged(m, s, files) && Wedged(m, s, files[m.plan.runId := e])
  {
    ErrorKeeps(m, s, files);
    hide Inv, E.Parse, R.TrailingStart;
  }

  lemma ErrorKeeps(m: Mission, s: Outside, files: Files)
    requires Inv(m, s, files) && m.plan.runId in files
    ensures var e := Errored(files[m.plan.runId], files[m.plan.runId].transaction);
      && ValidFiles(files) && PhaseOf(m, files[m.plan.runId := e]) == PhaseOf(m, files)
      && Inv(m, s, files[m.plan.runId := e]) &&
        ErrorMove(files, m.plan.runId, files[m.plan.runId].transaction) == Write(e)
  {
  }
}
