/** The durable promotion journal of promotion-journal.ts: one file a Run, five phases. */
module PromotionJournals {
  import opened Faults
  import E = RecoveryEvents

  const MAX_EVENTS: nat := 256
  const MAX_PROVIDERS: nat := 64

  datatype Phase = Validated | VersionInstalled | CanonicalAdvanced | EffectsDelivered | Completed

  function Index(p: Phase): nat {
    match p
    case Validated => 0
    case VersionInstalled => 1
    case CanonicalAdvanced => 2
    case EffectsDelivered => 3
    case Completed => 4
  }

  /** A provider's share of the plan: the version it must reach. */
  datatype ResourcePlan = ResourcePlan(provider: string, kind: string, target: string)

  /** `before` providers become visible with the canonical manifest, `after` ones behind it. */
  datatype Plan = Plan(runId: string, sourceState: string, targetState: string,
                       before: seq<ResourcePlan>, after: seq<ResourcePlan>)

  function Targets(plans: seq<ResourcePlan>): map<string, string> {
    if plans == [] then map[]
    else Targets(plans[..|plans| - 1])[plans[|plans| - 1].provider := plans[|plans| - 1].target]
  }

  datatype Canonical = Canonical(stateId: string, versions: map<string, string>)

  function TargetCanonical(plan: Plan): Canonical { Canonical(plan.targetState, Targets(plan.before + plan.after)) }

  datatype RunStatus = Running | Sealed | Promoting | Promoted | Quarantined | Discarded | Cancelled | RecoveryError

  datatype RunEvent = CanonicalAdvance | Transition(status: RunStatus)

  datatype Intent = Intent(key: string, receipt: Option<string>)

  /** The fields of a Run Transaction that every run of one Promotion must agree on. */
  datatype Outcomes = Outcomes(
    disposition: Option<RunStatus>,
    phase: Option<Phase>,
    canonicalAfter: Option<string>,
    intents: seq<Intent>,
    delivered: nat,
    receipt: bool)

  /** `evidence` holds the provider events, `installed` the provider versions seen installed;
    both, with the event log and the recovery flags, depend on what went wrong. */
  datatype Transaction = Transaction(
    core: Outcomes,
    status: RunStatus,
    recovered: bool,
    recoveryError: bool,
    events: seq<RunEvent>,
    installed: map<string, string>,
    evidence: E.Events)

  function InPhase(t: Transaction, phase: Phase): Transaction { t.(core := t.core.(phase := Some(phase))) }

  /** `scope` is absent in a legacy, schema 2 record. */
  datatype Record = Record(phase: Phase, plan: Plan, target: Option<Canonical>, transaction: Transaction,
    scope: Option<string>)

  /** The checks of validateRecord on what the model keeps. */
  predicate ValidRecord(r: Record) {
    var targets := Targets(r.plan.before + r.plan.after);
    && (Index(r.phase) >= 1 ==> r.target.Some?)
    && (r.target.Some? ==> r.target.value == TargetCanonical(r.plan))
    && (forall id | id in r.transaction.installed :: id in targets && r.transaction.installed[id] == targets[id])
    && |r.transaction.evidence| <= MAX_EVENTS && |r.plan.before| + |r.plan.after| <= MAX_PROVIDERS
  }

  function Begun(plan: Plan, t: Transaction, scope: string): Record {
    Record(Validated, plan, None, InPhase(t, Validated).(recovered := false, recoveryError := false), Some(scope))
  }

  /** The record after a step to the next phase; no target given keeps the target. */
  function Advanced(r: Record, phase: Phase, t: Transaction, target: Option<Canonical>): Record {
    r.(phase := phase,
       transaction := InPhase(t, phase).(recoveryError := false),
       target := if target.None? then r.target else target)
  }

  function Updated(r: Record, t: Transaction): Record { r.(transaction := InPhase(t, r.phase)) }

  function Errored(r: Record, t: Transaction): Record {
    r.(transaction := InPhase(t, r.phase).(status := RecoveryError,
                         recovered := r.transaction.recovered, recoveryError := true))
  }

  /** What an operation may do to the Run's file. */
  datatype Move = Refuse | Stay(record: Record) | Write(record: Record)

  type Files = map<string, Record>

  /** Checked before it is written. */
  function Checked(r: Record): Move { if ValidRecord(r) then Write(r) else Refuse }

  /** A Run begins once. */
  function BeginMove(files: Files, plan: Plan, t: Transaction, scope: string): Move {
    if plan.runId in files then Refuse else Checked(Begun(plan, t, scope))
  }

  /** One phase at a time: the same phase again changes nothing, any other jump is refused. */
  function AdvanceMove(files: Files, runId: string, phase: Phase, t: Transaction, target: Option<Canonical>): Move {
    if runId !in files then Refuse
    else if Index(phase) == Index(files[runId].phase) then Stay(files[runId])
    else if Index(phase) != Index(files[runId].phase) + 1 then Refuse
    else Checked(Advanced(files[runId], phase, t, target))
  }

  function UpdateMove(files: Files, runId: string, t: Transaction): Move {
    if runId !in files then Refuse else Checked(Updated(files[runId], t))
  }

  function ErrorMove(files: Files, runId: string, t: Transaction): Move {
    if runId !in files then Refuse else Checked(Errored(files[runId], t))
  }

  /** A scope is bound once: a legacy record takes it, any later one must already carry it. */
  function BindMove(files: Files, runId: string, scope: string): Move {
    if runId !in files then Refuse
    else if files[runId].scope.None? then Write(files[runId].(scope := Some(scope)))
    else if files[runId].scope == Some(scope) then Stay(files[runId])
    else Refuse
  }

  /** The move was made, or its write did not happen and the caller was told no success. */
  predicate Performs(m: Move, before: Files, after: Files, r: Outcome<Record>) {
    match m
    case Refuse => r.Thrown? && after == before
    case Stay(record) => r == Ok(record) && after == before
    case Write(record) =>
      && (after == before || after == before[record.plan.runId := record])
      && (r.Ok? ==> after == before[record.plan.runId := record] && r.value == record)
  }

  predicate ValidFiles(files: Files) {
    forall id | id in files :: files[id].plan.runId == id && ValidRecord(files[id])
  }

  /** The Run's record may be absent before; once there it keeps its plan and its bound scope,
    and moves at most one phase, forward. */
  predicate Follows(before: Files, runId: string, r: Record) {
    runId in before ==>
      && r.plan == before[runId].plan
      && (before[runId].scope.Some? ==> r.scope == before[runId].scope)
      && Index(before[runId].phase) <= Index(r.phase) <= Index(before[runId].phase) + 1
  }

  /** No operation, with any arguments, writes anything else. */
  lemma EveryWriteFollows(files: Files, runId: string, plan: Plan, phase: Phase, t: Transaction,
                          target: Option<Canonical>, scope: string)
    requires ValidFiles(files) && plan.runId == runId
    ensures forall m | m in {BeginMove(files, plan, t, scope), AdvanceMove(files, runId, phase, t, target),
                             UpdateMove(files, runId, t), ErrorMove(files, runId, t), BindMove(files, runId, scope)} &&
                             m.Write? ::
      m.record.plan.runId == runId && ValidRecord(m.record) && Follows(files, runId, m.record)
        && (runId !in files ==> m.record.phase == Validated && m.record.target.None?)
  {
  }

  /** No other Run's file changes, and this Run's goes at most one phase forward under its plan and scope. */
  predicate OnlyForward(before: Files, after: Files, runId: string) {
    && before.Keys <= after.Keys <= before.Keys + {runId}
    && (forall id | id in before && id != runId :: after[id] == before[id])
    && (runId in before ==> Follows(before, runId, after[runId]))
  }

  /** What is written down of a transaction: all but its flags and its status, in the phase of the record. */
  predicate SameButPhase(t: Transaction, u: Transaction, phase: Phase) {
    && u.core.phase == Some(phase) && u.core.disposition == t.core.disposition
    && u.core.canonicalAfter == t.core.canonicalAfter && u.core.intents == t.core.intents
    && u.core.delivered == t.core.delivered && u.core.receipt == t.core.receipt
    && u.events == t.events && u.installed == t.installed && u.evidence == t.evidence
  }

  lemma AdvancedSame(r: Record, phase: Phase, t: Transaction, target: Option<Canonical>)
    ensures SameButPhase(t, Advanced(r, phase, t, target).transaction, phase)
  {
  }

  class PromotionJournal {
    var files: Files

    constructor ()
      ensures files == map[] && ValidFiles(files)
    {
      files := map[];
    }

    /** One atomic replacement of the Run's file. */
    method Persist(record: Record, fate: Fate) returns (r: Outcome<Record>)
      modifies this
      ensures Performs(Write(record), old(files), files, r) && r == Ends(fate, record)
      ensures files == if fate.Acts() then old(files)[record.plan.runId := record] else old(files)
    {
      if fate.Acts() {
        files := files[record.plan.runId := record];
      }
      r := Ends(fate, record);
    }

    method Begin(plan: Plan, t: Transaction, scope: string, calm: bool) returns (r: Outcome<Record>)
      requires ValidFiles(files)
      modifies this
      ensures ValidFiles(files) && Performs(BeginMove(old(files), plan, t, scope), old(files), files, r)
      ensures calm && !BeginMove(old(files), plan, t, scope).Refuse? ==> r.Ok?
      ensures plan.runId in old(files) ==> r.Thrown? && files == old(files)
      ensures OnlyForward(old(files), files, plan.runId)
      ensures r.Ok? ==> files[plan.runId] == r.value && r.value.phase == Validated && r.value.plan == plan
      ensures r.Ok? ==> r.value.target == None && r.value.scope == Some(scope)
      ensures r.Ok? ==> SameButPhase(t, r.value.transaction, Validated)
      ensures r.Ok? ==>
        !r.value.transaction.recovered && !r.value.transaction.recoveryError && r.value.transaction.status == t.status
    {
      if plan.runId in files {
        return Thrown;
      }
      var record := Begun(plan, t, scope);
      if !ValidRecord(record) {
        return Thrown;
      }
      var fate := Next(calm);
      r := Persist(record, fate);
    }

    method Advance(runId: string, phase: Phase, t: Transaction, target: Option<Canonical>, calm: bool)
      returns (r: Outcome<Record>)
      requires ValidFiles(files)
      modifies this
      ensures ValidFiles(files) && Performs(AdvanceMove(old(files), runId, phase, t, target), old(files), files, r)
      ensures calm && !AdvanceMove(old(files), runId, phase, t, target).Refuse? ==> r.Ok?
      ensures OnlyForward(old(files), files, runId)
      ensures r.Ok? ==> runId in files && files[runId] == r.value && r.value.phase == phase
      ensures r.Ok? && old(files)[runId].phase == phase ==> files == old(files)
      ensures runId in old(files) ==>
        var now := Index(old(files)[runId].phase);
        Index(phase) !in {now, now + 1} ==> r.Thrown?
      ensures r.Ok? && target.None? ==> r.value.target == old(files)[runId].target
      ensures r.Ok? && old(files)[runId].phase != phase ==>
        SameButPhase(t, r.value.transaction, phase) && !r.value.transaction.recoveryError &&
        r.value.transaction.recovered == t.recovered && r.value.transaction.status == t.status &&
        (target.Some? ==> r.value.target == target)
    {
      hide ValidRecord, SameButPhase, Targets, TargetCanonical;
      if runId !in files {
        return Thrown;
      }
      var current := files[runId];
      if Index(phase) == Index(current.phase) {
        return Ok(current);
      }
      if Index(phase) != Index(current.phase) + 1 {
        return Thrown;
      }
      var next := Advanced(current, phase, t, target);
      AdvancedSame(current, phase, t, target);
      if !ValidRecord(next) {
        return Thrown;
      }
      var fate := Next(calm);
      r := Persist(next, fate);
    }

    method UpdateTransaction(runId: string, t: Transaction, fate: Fate) returns (r: Outcome<Record>)
      requires ValidFiles(files)
      modifies this
      ensures ValidFiles(files) && Performs(UpdateMove(old(files), runId, t), old(files), files, r)
      ensures fate.Calm? && !UpdateMove(old(files), runId, t).Refuse? ==> r.Ok?
      ensures !fate.Acts() ==> files == old(files) && (fate.ThrowBefore? ==> r.Thrown?)
      ensures OnlyForward(old(files), files, runId) && files.Keys == old(files).Keys
      ensures runId in old(files) ==>
        files[runId].phase == old(files)[runId].phase && files[runId].target == old(files)[runId].target
      ensures r.Ok? ==> runId in files && files[runId] == r.value
      ensures r.Ok? ==>
        SameButPhase(t, r.value.transaction, r.value.phase) && r.value.transaction.status == t.status &&
        r.value.transaction.recovered == t.recovered && r.value.transaction.recoveryError == t.recoveryError
    {
      if runId !in files {
        return Thrown;
      }
      var next := Updated(files[runId], t);
      if !ValidRecord(next) {
        return Thrown;
      }
      r := Persist(next, fate);
    }

    method RecordRecoveryError(runId: string, t: Transaction, calm: bool) returns (r: Outcome<Record>)
      requires ValidFiles(files)
      modifies this
      ensures ValidFiles(files) && Performs(ErrorMove(old(files), runId, t), old(files), files, r)
      ensures calm && !ErrorMove(old(files), runId, t).Refuse? ==> r.Ok?
      ensures OnlyForward(old(files), files, runId) && files.Keys == old(files).Keys
      ensures runId in old(files) ==>
        files[runId].phase == old(files)[runId].phase && files[runId].target == old(files)[runId].target
      ensures r.Ok? ==>
        runId in files && files[runId] == r.value && r.value.transaction.recoveryError &&
        r.value.transaction.status == RecoveryError && SameButPhase(t, r.value.transaction, r.value.phase) &&
        r.value.transaction.recovered == old(files)[runId].transaction.recovered
    {
      if runId !in files {
        return Thrown;
      }
      var next := Errored(files[runId], t);
      if !ValidRecord(next) {
        return Thrown;
      }
      var fate := Next(calm);
      r := Persist(next, fate);
    }

    method BindExternalActionScope(runId: string, scope: string, calm: bool) returns (r: Outcome<Record>)
      requires ValidFiles(files)
      modifies this
      ensures ValidFiles(files) && Performs(BindMove(old(files), runId, scope), old(files), files, r)
      ensures calm && !BindMove(old(files), runId, scope).Refuse? ==> r.Ok?
      ensures OnlyForward(old(files), files, runId) && files.Keys == old(files).Keys
      ensures r.Ok? ==> runId in files && files[runId] == r.value == old(files)[runId].(scope := Some(scope))
      ensures r.Ok? ==> old(files)[runId].scope in {None, Some(scope)}
    {
      if runId !in files {
        return Thrown;
      }
      var current := files[runId];
      if current.scope.Some? {
        if current.scope != Some(scope) {
          return Thrown;
        }
        return Ok(current);
      }
      var fate := Next(calm);
      r := Persist(current.(scope := Some(scope)), fate);
    }

    /** Something outside the program removes the Run's file. */
    method Lose(runId: string)
      requires ValidFiles(files)
      modifies this
      ensures ValidFiles(files) && files == old(files) - {runId}
    {
      files := files - {runId};
    }
  }
}
