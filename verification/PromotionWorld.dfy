/** What Promotion touches outside its journal, and the invariant that ties the two.

  The workspace, the providers, the effect consumer and the directory of decisions are
  outside this model; their methods state the contract they are assumed to keep. Every
  durable step may act, throw or lose the process, in any combination.
*/
module PromotionWorld {
  import opened Faults
  import opened PromotionEvidence
  import opened PromotionJournals
  import opened RecoveryTrail
  import E = RecoveryEvents

  /** One Run's Promotion: its plan, the transaction it begins with, and its effects. */
  datatype Mission = Mission(plan: Plan, start: Transaction, keys: seq<string>, scope: string)

  function Undelivered(keys: seq<string>): seq<Intent> {
    seq(|keys|, i requires 0 <= i < |keys| => Intent(keys[i], None))
  }

  function Delivered(keys: seq<string>, receipts: map<string, string>): seq<Intent>
    requires forall i | 0 <= i < |keys| :: keys[i] in receipts
  {
    seq(|keys|, i requires 0 <= i < |keys| => Intent(keys[i], Some(receipts[keys[i]])))
  }

  function Advances(events: seq<RunEvent>): nat {
    if events == [] then 0
    else Advances(events[..|events| - 1]) + if events[|events| - 1] == CanonicalAdvance then 1 else 0
  }

  lemma AdvancesPush(events: seq<RunEvent>, e: RunEvent)
    ensures Advances(events + [e]) == Advances(events) + if e == CanonicalAdvance then 1 else 0
  {
    assert (events + [e])[..|events|] == events;
  }

  ghost predicate Provides(m: map<string, string>, plans: seq<ResourcePlan>) {
    forall i | 0 <= i < |plans| :: plans[i].provider in m && m[plans[i].provider] == plans[i].target
  }

  ghost predicate WellFormed(m: Mission) {
    && DistinctProviders(m.plan.before + m.plan.after)
    && (forall i, j | 0 <= i < j < |m.keys| :: m.keys[i] != m.keys[j])
    && m.plan.sourceState != m.plan.targetState
    && m.start.core == Outcomes(None, None, None, Undelivered(m.keys), 0, false)
    && m.start.status == Promoting && !m.start.recovered && !m.start.recoveryError
    && Advances(m.start.events) == 0 && m.start.installed == map[] && |m.start.evidence| <= MAX_EVENTS
    && Trail(m.start.evidence) == []
  }

  /** No more providers than a journal takes. */
  predicate Journalable(m: Mission) { |m.plan.before| + |m.plan.after| <= MAX_PROVIDERS }

  function KeySet(m: Mission): set<string> { set k | k in m.keys }

  // ---- Transactions along the way ----

  function MovedCore(c: Outcomes, canonical: string): Outcomes {
    c.(disposition := Some(Promoted), canonicalAfter := Some(canonical))
  }

  /** Neither the evidence nor the recovered flag changed. */
  predicate SameLog(t: Transaction, u: Transaction) {
    u.evidence == t.evidence && u.installed == t.installed && u.recovered == t.recovered
  }

  function RecordCanonicalAdvance(t: Transaction, canonical: string): (u: Transaction)
    ensures u.core.phase == t.core.phase && SameLog(t, u)
  {
    t.(core := MovedCore(t.core, canonical),
       events := if CanonicalAdvance in t.events then t.events else t.events + [CanonicalAdvance])
  }

  function DeliveredCore(c: Outcomes, keys: seq<string>, receipts: map<string, string>): Outcomes
    requires forall i | 0 <= i < |keys| :: keys[i] in receipts
  {
    c.(intents := Delivered(keys, receipts), delivered := |keys|, receipt := true)
  }

  function FinalizePromotedEffects(t: Transaction, keys: seq<string>, receipts: map<string, string>): (u: Transaction)
    requires forall i | 0 <= i < |keys| :: keys[i] in receipts
    ensures u.core.phase == t.core.phase && SameLog(t, u)
  {
    t.(core := DeliveredCore(t.core, keys, receipts))
  }

  function Settle(t: Transaction): (u: Transaction)
    ensures u.core.phase == t.core.phase && SameLog(t, u)
  {
    t.(status := Promoted, events := t.events + [Transition(Promoted)])
  }

  predicate Done(phase: Phase) { phase == EffectsDelivered || phase == Completed }

  /** What the core must be in a phase. */
  function CoreAt(m: Mission, phase: Phase, advanced: bool, receipts: map<string, string>): Outcomes
    requires Done(phase) ==> forall i | 0 <= i < |m.keys| :: m.keys[i] in receipts
  {
    var begun := m.start.core.(phase := Some(phase));
    var moved := if advanced then MovedCore(begun, m.plan.targetState) else begun;
    if Done(phase) then DeliveredCore(moved, m.keys, receipts) else moved
  }

  /** The terminal transaction every run must agree on, up to the recovered flag, the event log and its evidence. */
  ghost predicate Final(m: Mission, t: Transaction, receipts: map<string, string>) {
    && receipts.Keys == KeySet(m)
    && t.core == Outcomes(Some(Promoted), Some(Completed), Some(m.plan.targetState), Delivered(m.keys, receipts),
                          |m.keys|, true)
    && t.status == Promoted && !t.recoveryError
    && t.installed == Targets(m.plan.before + m.plan.after)
    && Advances(t.events) == 1 && Transition(Promoted) in t.events
  }

  // ---- The invariant ----

  /** The durable facts outside the journal. `refused` are the keys that the effect consumer will not deliver: another
    delivery contradicts them, or their destination is not allowed. */
  datatype Outside = Outside(canonical: string, installed: set<string>, providers: map<string, string>,
                             receipts: map<string, string>, authority: Option<Authority>, refused: set<string>)

  /** Every effect is delivered already or will not be refused. */
  ghost predicate Deliverable(m: Mission, s: Outside) {
    forall k | k in KeySet(m) :: k in s.receipts || k !in s.refused
  }

  /** The outside world as a phase requires it. */
  ghost predicate Reached(m: Mission, s: Outside, phase: Phase) {
    && s.receipts.Keys <= KeySet(m)
    && (Index(phase) <= 1 ==> s.receipts == map[])
    && (phase == Validated ==> s.canonical == m.plan.sourceState)
    && (phase == VersionInstalled ==> s.canonical == m.plan.sourceState || s.canonical == m.plan.targetState)
    && (Index(phase) >= 2 ==> s.canonical == m.plan.targetState)
    && (Index(phase) >= 1 ==> m.plan.targetState in s.installed && Provides(s.providers, m.plan.before))
    && (Done(phase) ==> Provides(s.providers, m.plan.after) && s.receipts.Keys == KeySet(m))
  }

  /** A transaction that may stand in the journal in this phase. */
  ghost predicate Fits(m: Mission, s: Outside, phase: Phase, t: Transaction) {
    var advanced := Advances(t.events) == 1;
    && Advances(t.events) <= 1
    && (advanced ==> s.canonical == m.plan.targetState)
    && (Index(phase) >= 2 ==> advanced)
    && (Done(phase) ==> s.receipts.Keys == KeySet(m))
    && t.core == CoreAt(m, phase, advanced, s.receipts)
    && (Index(phase) >= 1 ==> Covers(t.installed, m.plan.before))
    && (Done(phase) ==> Covers(t.installed, m.plan.after))
    && (phase == Completed ==> Transition(Promoted) in t.events)
    && (phase == Completed ==>
      (t.status == RecoveryError || t.status == Promoted) && (t.recoveryError ==> t.status == RecoveryError))
    && Evidenced(m.plan, t.evidence) && AuthorityFits(m.plan, s.authority, phase, t)
  }

  ghost predicate Untouched(m: Mission, s: Outside) {
    s.canonical == m.plan.sourceState && s.receipts == map[] && s.authority == None
  }

  ghost predicate Inv(m: Mission, s: Outside, files: Files) {
    && WellFormed(m) && ValidFiles(files)
    && if m.plan.runId !in files then Untouched(m, s)
       else
         var r := files[m.plan.runId];
         && r.plan == m.plan && r.scope == Some(m.scope)
         && Reached(m, s, r.phase) && Fits(m, s, r.phase, r.transaction)
  }

  /** A receipt exists only once Canonical is at this Run's target. */
  lemma EffectsFollowCanonical(m: Mission, s: Outside, files: Files)
    requires Inv(m, s, files)
    ensures s.receipts != map[] ==>
      s.canonical == m.plan.targetState && m.plan.runId in files && Index(PhaseOf(m, files)) >= 2
    ensures s.receipts.Keys <= KeySet(m)
  {
  }

  /** A finished Run says so: promoted and complete, at the plan's target, every effect under its own key with the
    receipt that is recorded for it. */
  lemma FinalNames(m: Mission, t: Transaction, receipts: map<string, string>)
    requires Final(m, t, receipts)
    ensures t.status == Promoted && t.core.disposition == Some(Promoted) && t.core.phase == Some(Completed)
    ensures Advances(t.events) == 1 && Transition(Promoted) in t.events
    ensures t.core.canonicalAfter == Some(m.plan.targetState)
    ensures t.core.delivered == |m.keys| == |t.core.intents| && t.core.receipt
    ensures forall i | 0 <= i < |m.keys| :: m.keys[i] in receipts
    ensures forall i | 0 <= i < |m.keys| ::
      t.core.intents[i].key == m.keys[i] && t.core.intents[i].receipt == Some(receipts[m.keys[i]])
  {
    assert forall i | 0 <= i < |m.keys| :: m.keys[i] in KeySet(m);
  }

  /** Two runs that finished agree on everything but the recovered flag, the log and its evidence. */
  lemma FinishedAlike(m: Mission, t: Transaction, receipts: map<string, string>, u: Transaction,
                      others: map<string, string>)
    requires Final(m, t, receipts) && Final(m, u, others)
    ensures t.status == u.status == Promoted && !t.recoveryError && !u.recoveryError && t.installed == u.installed
    ensures Advances(t.events) == Advances(u.events) == 1
    ensures receipts.Keys == others.Keys && |t.core.intents| == |u.core.intents| == |m.keys|
    ensures forall i | 0 <= i < |m.keys| :: m.keys[i] in receipts && m.keys[i] in others
    ensures forall i | 0 <= i < |m.keys| :: t.core.intents[i] == Intent(m.keys[i], Some(receipts[m.keys[i]]))
    ensures t.core.(intents := []) == u.core.(intents := [])
    ensures receipts == others ==> t.core == u.core
  {
    assert forall i | 0 <= i < |m.keys| :: m.keys[i] in KeySet(m);
  }

  /** The in-memory transaction beside the journal's: it may be written over it. */
  ghost predicate Live(m: Mission, s: Outside, files: Files, t: Transaction) {
    && Inv(m, s, files) && m.plan.runId in files
    && Fits(m, s, files[m.plan.runId].phase, t)
    && files[m.plan.runId].transaction.installed.Keys <= t.installed.Keys
  }

  /** The versions a transaction has seen installed are the planned ones. */
  ghost predicate Agrees(m: Mission, t: Transaction) {
    var targets := Targets(m.plan.before + m.plan.after);
    forall id | id in t.installed :: id in targets && t.installed[id] == targets[id]
  }

  function PhaseOf(m: Mission, files: Files): Phase {
    if m.plan.runId in files then files[m.plan.runId].phase else Validated
  }

  class World {
    const journal: PromotionJournal
    var canonical: string
    var installed: set<string>
    var providers: map<string, string>
    var receipts: map<string, string>
    var authority: Option<Authority>
    const refused: set<string>

    constructor (canonical: string, providers: map<string, string>, refused: set<string>)
      ensures fresh(journal) && journal.files == map[] && this.refused == refused && authority == None
      ensures this.canonical == canonical && this.providers == providers && receipts == map[]
      ensures installed == {canonical}
    {
      journal := new PromotionJournal();
      this.canonical, this.providers, receipts, installed := canonical, providers, map[], {canonical};
      this.refused, authority := refused, None;
    }

    function Now(): (s: Outside)
      reads this
      ensures s.canonical == canonical && s.installed == installed && s.providers == providers && s.receipts == receipts
      ensures s.authority == authority && s.refused == refused
    {
      Outside(canonical, installed, providers, receipts, authority, refused)
    }

    // ---- Assumed contracts ----

    method InstallPromotion(m: Mission, calm: bool) returns (o: Outcome<Canonical>)
      modifies this`installed
      ensures installed == old(installed) || installed == old(installed) + {m.plan.targetState}
      ensures o.Ok? ==> m.plan.targetState in installed && o.value == TargetCanonical(m.plan)
      ensures calm ==> o.Ok?
    {
      var fate := Next(calm);
      if fate.Acts() {
        installed := installed + {m.plan.targetState};
      }
      o := Ends(fate, TargetCanonical(m.plan));
    }

    /** Checks only: the installed version is there and is the one the journal names. */
    method VerifyInstalledPromotion(m: Mission, target: Canonical, calm: bool) returns (o: Outcome<Canonical>)
      ensures o.Ok? ==> m.plan.targetState in installed && o.value == target
      ensures calm && m.plan.targetState in installed && target == TargetCanonical(m.plan) ==> o.Ok?
    {
      if m.plan.targetState !in installed || target != TargetCanonical(m.plan) {
        return Thrown;
      }
      var fate := Next(calm);
      o := Ends(fate, target);
    }

    /** Moves Canonical from the plan's source to its target; at the target it does nothing. */
    method AdvancePromotion(m: Mission, calm: bool) returns (o: Outcome<string>)
      modifies this`canonical
      ensures canonical == old(canonical) || (old(canonical) == m.plan.sourceState && canonical == m.plan.targetState)
      ensures o.Ok? ==> canonical == m.plan.targetState && o.value == canonical
      ensures calm && old(canonical) in {m.plan.sourceState, m.plan.targetState} ==> o.Ok?
    {
      if canonical != m.plan.targetState && canonical != m.plan.sourceState {
        return Thrown;
      }
      var fate := Next(calm);
      if fate.Acts() {
        canonical := m.plan.targetState;
      }
      o := Ends(fate, m.plan.targetState);
    }

    /** Promote is idempotent: it makes the provider's version the planned one. */
    method PromoteProvider(p: ResourcePlan, calm: bool) returns (o: Outcome<string>)
      modifies this`providers
      ensures providers == old(providers) || providers == old(providers)[p.provider := p.target]
      ensures o.Ok? ==> providers == old(providers)[p.provider := p.target]
      ensures calm ==> o.Ok?
    {
      var fate := Next(calm);
      if fate.Acts() {
        providers := providers[p.provider := p.target];
      }
      o := Ends(fate, p.target);
    }

    /** Reconcile reports the version the provider has; any other than the planned one throws. */
    method ReconcileProvider(p: ResourcePlan, calm: bool) returns (o: Outcome<string>)
      ensures o.Ok? ==> p.provider in providers && providers[p.provider] == p.target
      ensures calm && p.provider in providers && providers[p.provider] == p.target ==> o.Ok?
    {
      if p.provider !in providers || providers[p.provider] != p.target {
        return Thrown;
      }
      var fate := Next(calm);
      o := Ends(fate, p.target);
    }

    /** The directory records a decision it has, or one that may follow it. */
    method RecordAuthority(m: Mission, t: Transaction, calm: bool) returns (o: Outcome<()>)
      modifies this`authority
      ensures authority == old(authority) ||
        (MayPublish(m.plan, old(authority), t) && authority == Some(Authority(t.evidence, t.recovered)))
      ensures o.Ok? ==> authority == Some(Authority(t.evidence, t.recovered))
      ensures calm && MayPublish(m.plan, old(authority), t) ==> o.Ok?
    {
      if !MayPublish(m.plan, authority, t) {
        return Thrown;
      }
      var fate := Next(calm);
      if fate.Acts() {
        authority := Some(Authority(t.evidence, t.recovered));
      }
      o := Ends(fate, ());
    }

    /** Delivers each intent under its key once, unless it is refused; a key already delivered keeps its receipt. */
    method Dispatch(keys: seq<string>, calm: bool) returns (o: Outcome<()>)
      modifies this`receipts
      ensures old(receipts.Keys) <= receipts.Keys <= old(receipts.Keys) + set k | k in keys
      ensures forall k | k in old(receipts) :: receipts[k] == old(receipts)[k]
      ensures o.Ok? ==> forall k | k in keys :: k in receipts
      ensures o.Ok? ==> forall k | k in keys :: k in old(receipts) || k !in refused
      ensures calm && (forall k | k in keys :: k in old(receipts) || k !in refused) ==> o.Ok?
    {
      for i := 0 to |keys|
        invariant old(receipts.Keys) <= receipts.Keys <= old(receipts.Keys) + set k | k in keys
        invariant forall k | k in old(receipts) :: k in receipts && receipts[k] == old(receipts)[k]
        invariant forall j | 0 <= j < i :: keys[j] in receipts && (keys[j] in old(receipts) || keys[j] !in refused)
        invariant forall k | k in receipts && k !in old(receipts) :: k !in refused
      {
        if keys[i] !in receipts {
          if keys[i] in refused {
            assert keys[i] in keys;
            return Thrown;
          }
          var fate := Next(calm);
          if fate.Acts() {
            var receipt: string := *;
            receipts := receipts[keys[i] := receipt];
          }
          if !fate.Calm? {
            return if fate.ThrowBefore? || fate.ThrowAfter? then Thrown else Crashed;
          }
        }
      }
      return Ok(());
    }
  }

  ghost predicate Covers(seen: map<string, string>, plans: seq<ResourcePlan>) {
    forall i | 0 <= i < |plans| :: plans[i].provider in seen
  }
}
