/** Both federated coordinators at work, interrupted anywhere.

  Whatever a call does, and however it ends, records, decisions and Candidates only grow and
  the invariant of `Federated` stands; a call that returns has finished its saga.
*/
module FederatedCoordinators {
  import opened Faults
  import opened Federated

  function Told<T>(o: Outcome<()>, value: T): Outcome<T> {
    match o
    case Ok(_) => Ok(value)
    case Thrown => Thrown
    case Crashed => Crashed
  }

  /** How beginning an import may leave the journals. Its plan is written first and its pointer then, and each write may
    be lost; only when both are there does it return. */
  ghost predicate MayBegin(s: State, a: AdmissionId, t: State, o: Outcome<Plan>) {
    var x, i := a.attempt.transfer, a.import_;
    var known := i in s.plans && s.plans[i].admission == a;
    var planned := if known then s else s.(plans := s.plans[i := Plan(a, Planned, None)]);
    var pointed := if x in s.transfers then planned else planned.(transfers := s.transfers[x := i]);
    if (x in s.transfers && s.transfers[x] != i) || (i in s.plans && !known) then t == s && o.Thrown?
    else if o.Ok? then t == pointed && o.value == planned.plans[i]
    else t in {s, planned, pointed}
  }

  /** A plan may go to this phase, or is there or further already. */
  predicate CanAdvance(p: Plan, phase: Phase, candidate: Option<string>) {
    || Index(p.phase) > Index(phase)
    || (p.phase == phase && (candidate.Some? ==> p.candidate == candidate))
    || Index(phase) == Index(p.phase) + 1
    || (p.phase == RecordPublished && phase == Completed && VerdictOf(p.admission) != Admitted)
  }

  /** The transfer is this import's, and nothing else was asked under it; a new transfer must not contradict the
    import's plan. */
  predicate MayAdmit(s: State, a: AdmissionId) {
    var x, i := a.attempt.transfer, a.import_;
    if x in s.transfers then
      && s.transfers[x] == i && i in s.plans
      && s.plans[i].admission.attempt.agent == a.attempt.agent &&
        s.plans[i].admission.attempt.evidence == a.attempt.evidence
    else i in s.plans ==> s.plans[i].admission == a
  }

  /** The moves of an admission: its record, its Candidate, its end, and straight to the end if it is not admitted. */
  predicate StepsTo(p: Plan, q: Plan) {
    && q.admission == p.admission && (p.candidate.Some? ==> q.candidate.Some?)
    && match (p.phase, q.phase)
       case (Planned, RecordPublished) => true
       case (RecordPublished, CandidatePrepared) => q.candidate.Some?
       case (CandidatePrepared, Completed) => true
       case (RecordPublished, Completed) => p.admission.attempt.decision.verdict != Admitted
       case _ => false
  }

  /** Of a decision: the Candidate it approves and the end, or the end at once for a denial. */
  predicate ApprovalStepsTo(p: ApprovalPlan, q: ApprovalPlan) {
    && q.approval == p.approval && (p.candidate.Some? ==> q.candidate.Some?)
    && match (p.phase, q.phase)
       case (DecisionPublished, Prepared) => q.candidate.Some?
       case (Prepared, Done) => true
       case (DecisionPublished, Done) => p.approval.choice == Deny
       case _ => false
  }

  predicate CanAdvanceApproval(p: ApprovalPlan, phase: ApprovalPhase, candidate: Option<string>) {
    || ApprovalIndex(p.phase) > ApprovalIndex(phase)
    || (p.phase == phase && (candidate.Some? ==> p.candidate == candidate))
    || ApprovalIndex(phase) == ApprovalIndex(p.phase) + 1
    || (p.approval.choice == Deny && p.phase == DecisionPublished && phase == Done)
  }

  /** The admission awaits a decision, it has none but this one, and an approval still finds the bundle to prepare. */
  predicate MayDecide(s: State, v: Approval) {
    var a := ApprovalId(v.pending.admission);
    && VerdictOf(v.pending.admission) == ApprovalRequired && (a in s.approvals ==> SameDecision(s.approvals[a], v))
    && (v.choice == Approve && (a in s.approvalPlans ==> s.approvalPlans[a].phase == DecisionPublished) ==>
        v.pending.admission.import_ in s.staged)
  }

  class Receiver {
    var s: State

    constructor ()
      ensures Inv(s) && s == State(map[], map[], map[], {}, map[], map[], map[])
    {
      s := State(map[], map[], map[], {}, map[], map[], map[]);
    }

    /** One atomic publication or replacement. */
    method Store(next: State, calm: bool) returns (o: Outcome<()>)
      requires Inv(s) && Inv(next) && Grows(s, next)
      modifies this
      ensures s == old(s) || s == next
      ensures Inv(s) && Grows(old(s), s) && (o.Ok? ==> s == next) && (calm ==> o.Ok?)
    {
      GrowsSelf(s);
      var fate := Next(calm);
      if fate.Acts() {
        s := next;
      }
      o := Ends(fate, ());
    }

    // ---- The admission journal ----

    method PublishTransferPointer(x: string, i: string, calm: bool) returns (o: Outcome<()>)
      requires Inv(s) && PointerHolds(s, x, i)
      modifies this
      ensures Inv(s) && Grows(old(s), s) && (s == old(s) || s == old(s).(transfers := old(s).transfers[x := i]))
      ensures o.Ok? ==> x in s.transfers && s.transfers[x] == i
      ensures x in old(s).transfers ==> s == old(s)
      ensures calm ==> (o.Ok? <==> x !in old(s).transfers || old(s).transfers[x] == i)
    {
      GrowsSelf(s);
      if x in s.transfers {
        return if s.transfers[x] == i then Ok(()) else Thrown;
      }
      PointerKeeps(s, x, i);
      o := Store(s.(transfers := s.transfers[x := i]), calm);
    }

    /** An import begins once; beginning it again returns its plan, or fails if anything differs. */
    method Begin(a: AdmissionId, calm: bool) returns (o: Outcome<Plan>)
      requires Inv(s) && a.attempt.import_ == a.import_
      modifies this
      ensures Inv(s) && Grows(old(s), s) && s.records == old(s).records && s.candidates == old(s).candidates
      ensures o.Ok? ==> a.import_ in s.plans && o.value == s.plans[a.import_] && o.value.admission == a
      ensures a.import_ in old(s).plans && old(s).plans[a.import_].admission != a ==> o.Thrown? && s == old(s)
      ensures MayBegin(old(s), a, s, o)
      ensures calm ==> (o.Ok? <==>
        && (a.attempt.transfer in old(s).transfers ==> old(s).transfers[a.attempt.transfer] == a.import_)
        && (a.import_ in old(s).plans ==> old(s).plans[a.import_].admission == a))
    {
      hide Inv, Grows, PlanHolds;
      var x, i := a.attempt.transfer, a.import_;
      GrowsSelf(s);
      if x in s.transfers && s.transfers[x] != i {
        return Thrown;
      }
      if i in s.plans {
        if s.plans[i].admission != a {
          return Thrown;
        }
        var p := PublishTransferPointer(x, i, calm);
        return Told(p, s.plans[i]);
      }
      var plan := Plan(a, Planned, None);
      NoRecordYet(s, i);
      FreshPlan(s, plan);
      PlanKeeps(s, i, plan);
      var q := Store(s.(plans := s.plans[i := plan]), calm);
      if !q.Ok? {
        return Told(q, plan);
      }
      ghost var planned := s;
      var p := PublishTransferPointer(x, i, calm);
      GrowsTrans(old(s), planned, s);
      o := Told(p, plan);
    }

    /** One phase at a time; a plan already further stays, a different Candidate is refused. */
    method Advance(i: string, phase: Phase, candidate: Option<string>, calm: bool) returns (o: Outcome<Plan>)
      requires Inv(s) && i in s.plans && i in s.records
      requires candidate.Some? ==>
        VerdictOf(s.plans[i].admission) == Admitted && Is(s, ForAdmission(s.plans[i].admission), candidate.value)
      requires phase == CandidatePrepared ==> candidate.Some?
      modifies this
      ensures Inv(s) && Grows(old(s), s) && s == old(s).(plans := s.plans) && i in s.plans
      ensures o.Ok? ==> o.value == s.plans[i] && Index(o.value.phase) >= Index(phase)
      ensures calm ==> (o.Ok? <==> CanAdvance(old(s).plans[i], phase, candidate))
      ensures s.plans != old(s).plans ==> StepsTo(old(s).plans[i], s.plans[i]) && s.plans[i].phase == phase
      ensures s.plans != old(s).plans ==>
        s.plans == old(s).plans[i := s.plans[i]] && (candidate.Some? ==> s.plans[i].candidate == candidate)
    {
      hide Inv, Grows, PlanHolds;
      GrowsSelf(s);
      var current := s.plans[i];
      if Index(current.phase) > Index(phase) {
        return Ok(current);
      }
      if current.phase == phase {
        return if candidate.Some? && current.candidate != candidate then Thrown else Ok(current);
      }
      var skips := current.phase == RecordPublished && phase == Completed && VerdictOf(current.admission) != Admitted;
      if Index(phase) != Index(current.phase) + 1 && !skips {
        return Thrown;
      }
      var next := Plan(current.admission, phase, if candidate.Some? then candidate else current.candidate);
      StepHolds(s, i, next);
      PlanKeeps(s, i, next);
      var q := Store(s.(plans := s.plans[i := next]), calm);
      o := Told(q, next);
    }

    method PublishRecord(plan: Plan, recordedAt: string, calm: bool) returns (o: Outcome<Record>)
      requires Inv(s) && plan.admission.import_ in s.plans
      requires plan.admission == s.plans[plan.admission.import_].admission
      modifies this
      ensures Inv(s) && Grows(old(s), s) && s == old(s).(records := s.records)
      ensures o.Ok? ==> plan.admission.import_ in s.records && o.value == s.records[plan.admission.import_]
      ensures calm && plan.admission.import_ !in old(s).records ==> o.Ok?
    {
      var i, record := plan.admission.import_, Record(plan.admission, recordedAt);
      GrowsSelf(s);
      if i in s.records {
        return if s.records[i] == record then Ok(record) else Thrown;
      }
      RecordKeeps(s, i, record);
      var q := Store(s.(records := s.records[i := record]), calm);
      o := Told(q, record);
    }

    /** inspect, then prepare only if there is nothing: one Candidate a Run. */
    method EnsureCandidate(r: RunId, calm: bool) returns (o: Outcome<string>)
      requires Inv(s) && CandidateHolds(s, r)
      modifies this
      ensures Inv(s) && Grows(old(s), s) && s == old(s).(candidates := s.candidates)
      ensures o.Ok? ==> Is(s, r, o.value)
      ensures r in old(s).candidates && o.Ok? ==> o.value == old(s).candidates[r]
      ensures calm ==> o.Ok?
    {
      GrowsSelf(s);
      if r in s.candidates {
        var fate := Next(calm);
        return Ends(fate, s.candidates[r]);
      }
      var c: string := *;
      CandidateKeeps(s, r, c);
      var q := Store(s.(candidates := s.candidates[r := c]), calm);
      o := Told(q, c);
    }

    // ---- The admission coordinator ----

    /** The plan to follow: the transfer's own, or a new one under the policy active now. */
    method PlanFor(transfer: string, import_: string, agent: string, evidence: string, active: Decision, calm: bool)
      returns (o: Outcome<Plan>)
      requires Inv(s)
      modifies this
      ensures Inv(s) && Grows(old(s), s)
      ensures o.Ok? ==> import_ in s.plans && o.value == s.plans[import_]
      ensures o.Ok? && transfer !in old(s).transfers ==>
        o.value.admission == AdmissionId(import_, AttemptId(transfer, agent, import_, evidence, active))
      ensures o.Ok? && transfer in old(s).transfers ==>
        import_ in old(s).plans && o.value.admission == old(s).plans[import_].admission
          && o.value.admission.attempt ==
            AttemptId(transfer, agent, import_, evidence, o.value.admission.attempt.decision)
      ensures import_ in s.plans && import_ !in old(s).plans ==>
        s.plans[import_].admission == AdmissionId(import_, AttemptId(transfer, agent, import_, evidence, active))
      ensures calm ==>
        (o.Ok? <==> MayAdmit(old(s), AdmissionId(import_, AttemptId(transfer, agent, import_, evidence, active))))
    {
      GrowsSelf(s);
      if transfer in s.transfers {
        var i := s.transfers[transfer];
        assert PointerHolds(s, transfer, i) && PlanHolds(s, i, s.plans[i]);
        var plan := s.plans[i];
        if i != import_ || plan.admission.attempt.agent != agent || plan.admission.attempt.evidence != evidence {
          return Thrown;
        }
        return Ok(plan);
      }
      o := Begin(AdmissionId(import_, AttemptId(transfer, agent, import_, evidence, active)), calm);
    }

    method StageBundle(i: string, calm: bool) returns (o: Outcome<()>)
      requires Inv(s)
      modifies this
      ensures Inv(s) && Grows(old(s), s) && s == old(s).(staged := s.staged) && (o.Ok? ==> i in s.staged)
      ensures (calm ==> o.Ok?)
    {
      StagedKeeps(s, i);
      o := Store(s.(staged := s.staged + {i}), calm);
    }

    /** admit. A retry returns the first record or throws; what returns is complete. */
    method Admit(transfer: string, import_: string, agent: string, evidence: string, active: Decision, calm: bool)
      returns (o: Outcome<Record>)
      requires Inv(s)
      modifies this
      ensures Inv(s) && Grows(old(s), s)
      ensures o.Ok? ==> import_ in s.records && o.value == s.records[import_]
      ensures o.Ok? ==> import_ in s.plans && s.plans[import_].phase == Completed
      ensures o.Ok? ==>
        (ForAdmission(o.value.admission) in s.candidates <==> o.value.admission.attempt.decision.verdict == Admitted)
      ensures import_ in old(s).records && o.Ok? ==> o.value == old(s).records[import_]
      ensures o.Ok? && transfer !in old(s).transfers ==>
        o.value.admission == AdmissionId(import_, AttemptId(transfer, agent, import_, evidence, active))
      ensures o.Ok? && transfer in old(s).transfers ==>
        import_ in old(s).plans && o.value.admission == old(s).plans[import_].admission
          && o.value.admission.attempt ==
            AttemptId(transfer, agent, import_, evidence, o.value.admission.attempt.decision)
      ensures import_ in s.plans && import_ !in old(s).plans ==>
        s.plans[import_].admission == AdmissionId(import_, AttemptId(transfer, agent, import_, evidence, active))
      ensures calm ==>
        (o.Ok? <==> MayAdmit(old(s), AdmissionId(import_, AttemptId(transfer, agent, import_, evidence, active))))
    {
      hide Inv, Grows;
      ghost var before := s;
      var planned := PlanFor(transfer, import_, agent, evidence, active, calm);
      if !planned.Ok? {
        return if planned.Thrown? then Thrown else Crashed;
      }
      ghost var s0 := s;
      PlannedOrRecorded(s, import_);
      o := Follow(planned.value, calm);
      GrowsTrans(before, s0, s);
      PlanStays(s0, s, import_);
      if import_ in before.records { RecordStays(before, s, import_); }
    }

    /** From a plan to its record, its bundle and, where the record admits, its Candidate. */
    method Follow(plan: Plan, calm: bool) returns (o: Outcome<Record>)
      requires Inv(s) && plan.admission.import_ in s.plans && plan == s.plans[plan.admission.import_]
      modifies this
      ensures Inv(s) && Grows(old(s), s)
      ensures o.Ok? ==> var i := plan.admission.import_;
        i in s.records && o.value == s.records[i] && o.value.admission == plan.admission &&
        i in s.plans && s.plans[i].phase == Completed
      ensures o.Ok? ==>
        (ForAdmission(plan.admission) in s.candidates <==> plan.admission.attempt.decision.verdict == Admitted)
      ensures calm ==> o.Ok?
    {
      hide Inv, Grows;
      var i := plan.admission.import_;
      ghost var before := s;
      var r := RecordFor(plan, calm);
      if !r.Ok? {
        return r;
      }
      ghost var s1 := s;
      var staged := StageBundle(i, calm);
      GrowsTrans(before, s1, s);
      RecordStays(s1, s, i);
      if !staged.Ok? {
        return Told(staged, r.value);
      }
      ghost var s2 := s;
      var finished := Finish(i, calm);
      GrowsTrans(before, s2, s);
      RecordStays(s2, s, i);
      if finished.Ok? {
        CompletedNamesCandidate(s, i);
        PlannedOrRecorded(s, i);
      }
      o := Told(finished, r.value);
    }

    /** The immutable record, published once, and the plan that says so. */
    method RecordFor(plan: Plan, calm: bool) returns (o: Outcome<Record>)
      requires Inv(s) && plan.admission.import_ in s.plans && plan == s.plans[plan.admission.import_]
      modifies this
      ensures Inv(s) && Grows(old(s), s) && plan.admission.import_ in s.plans
      ensures o.Ok? ==> plan.admission.import_ in s.records && o.value == s.records[plan.admission.import_]
      ensures o.Ok? ==> s.plans[plan.admission.import_].phase != Planned && o.value.admission == plan.admission
      ensures calm ==> o.Ok?
    {
      hide Inv, Grows;
      var i := plan.admission.import_;
      GrowsSelf(s);
      PlannedOrRecorded(s, i);
      if plan.phase != Planned {
        return Ok(s.records[i]);
      }
      var record: Record;
      if i in s.records {
        record := s.records[i];
      } else {
        var now: string := *;
        o := PublishRecord(plan, now, calm);
        if !o.Ok? {
          return;
        }
        record := o.value;
      }
      ghost var s0 := s;
      var marked := Advance(i, RecordPublished, None, calm);
      GrowsTrans(old(s), s0, s);
      PlanStays(old(s), s, i);
      PlannedOrRecorded(s, i);
      RecordStays(s0, s, i);
      o := match marked case Ok(_) => Ok(record) case Thrown => Thrown case Crashed => Crashed;
    }

    /** An admitted import gets its Candidate; then the plan is completed. */
    method Finish(i: string, calm: bool) returns (o: Outcome<()>)
      requires Inv(s) && i in s.plans && i in s.records && s.plans[i].phase != Planned
      modifies this
      ensures Inv(s) && Grows(old(s), s) && i in s.plans
      ensures o.Ok? ==> s.plans[i].phase == Completed
      ensures calm ==> o.Ok?
    {
      hide Inv, Grows, CandidateHolds;
      GrowsSelf(s);
      PlannedOrRecorded(s, i);
      var plan := s.plans[i];
      if plan.phase == Completed {
        return Ok(());
      }
      if VerdictOf(plan.admission) == Admitted && plan.phase == RecordPublished {
        MayPrepare(s, i);
        var c := EnsureCandidate(ForAdmission(plan.admission), calm);
        if !c.Ok? {
          return if c.Thrown? then Thrown else Crashed;
        }
        ghost var s0 := s;
        var prepared := Advance(i, CandidatePrepared, Some(c.value), calm);
        GrowsTrans(old(s), s0, s);
        if !prepared.Ok? {
          return if prepared.Thrown? then Thrown else Crashed;
        }
      }
      ghost var s1 := s;
      var done := Advance(i, Completed, None, calm);
      GrowsTrans(old(s), s1, s);
      o := match done case Ok(_) => Ok(()) case Thrown => Thrown case Crashed => Crashed;
    }

    // ---- Restart ----

    /** reconcileTransferPointers: every plan gets its pointer. In calm weather it succeeds exactly
      when no two plans were begun under one transfer identity. */
    method ReconcileTransferPointers(calm: bool) returns (o: Outcome<()>)
      requires Inv(s)
      modifies this
      ensures Inv(s) && Grows(old(s), s) && s == old(s).(transfers := s.transfers)
      ensures o.Ok? ==> PointersComplete(s)
      ensures calm ==> (o.Ok? <==> TransfersClear(old(s)))
    {
      hide Inv, Grows, TransfersClear, Pointed;
      GrowsSelf(s);
      var todo := s.plans.Keys;
      o := Ok(());
      while todo != {}
        invariant Inv(s) && Grows(old(s), s) && s == old(s).(transfers := s.transfers) && todo <= s.plans.Keys
        invariant o.Ok? && PointedExcept(s, todo)
        decreases todo
      {
        var i :| i in todo;
        var x := s.plans[i].admission.attempt.transfer;
        assert PointerHolds(s, x, i);
        ghost var before := s;
        o := PublishTransferPointer(x, i, calm);
        GrowsTrans(old(s), before, s);
        if !o.Ok? {
          SharedPointer(before, i);
          ClearByPlans(before, old(s));
          return;
        }
        PointedMore(before, s, i, todo);
        todo := todo - {i};
      }
      CompleteClear(s);
      ClearByPlans(s, old(s));
    }

    // ---- The approval journal ----

    /** The first decision over a pending admission is published; any other is refused. */
    method BeginApproval(v: Approval, calm: bool) returns (o: Outcome<ApprovalPlan>)
      requires Inv(s) && v.pending.admission.import_ in s.records && s.records[v.pending.admission.import_] == v.pending
      modifies this
      ensures Inv(s) && Grows(old(s), s) && s.candidates == old(s).candidates && s.records == old(s).records
      ensures o.Ok? ==> var a := ApprovalId(v.pending.admission);
        a in s.approvals && SameDecision(s.approvals[a], v) && a in s.approvalPlans && o.value == s.approvalPlans[a]
      ensures var a := ApprovalId(v.pending.admission);
        a in old(s).approvals && !SameDecision(old(s).approvals[a], v) ==> o.Thrown? && s == old(s)
      ensures VerdictOf(v.pending.admission) != ApprovalRequired ==> o.Thrown? && s == old(s)
      ensures s == old(s).(approvals := s.approvals, approvalPlans := s.approvalPlans)
      ensures ApprovalId(v.pending.admission) in old(s).approvalPlans && o.Ok? ==>
        o.value == old(s).approvalPlans[ApprovalId(v.pending.admission)]
      ensures ApprovalId(v.pending.admission) !in old(s).approvalPlans && o.Ok? ==> o.value.phase == DecisionPublished
      ensures o.Ok? && ApprovalId(v.pending.admission) !in old(s).approvals ==>
        s.approvals[ApprovalId(v.pending.admission)] == v
      ensures calm ==> (o.Ok? <==>
        && VerdictOf(v.pending.admission) == ApprovalRequired
        && (ApprovalId(v.pending.admission) in old(s).approvals ==>
          SameDecision(old(s).approvals[ApprovalId(v.pending.admission)], v)))
    {
      hide Inv, Grows;
      GrowsSelf(s);
      if VerdictOf(v.pending.admission) != ApprovalRequired {
        return Thrown;
      }
      var a := ApprovalId(v.pending.admission);
      if a in s.approvals {
        if !SameDecision(s.approvals[a], v) {
          return Thrown;
        }
      } else {
        ApprovalKeeps(s, a, v);
        var p := Store(s.(approvals := s.approvals[a := v]), calm);
        if !p.Ok? {
          return Told(p, InitialPlan(v));
        }
      }
      ghost var decided := s;
      o := EnsureApprovalPlan(a, calm);
      GrowsTrans(old(s), decided, s);
    }

    /** The plan of a decision: the one on disk, or the initial one again. */
    method EnsureApprovalPlan(a: ApprovalId, calm: bool) returns (o: Outcome<ApprovalPlan>)
      requires Inv(s) && a in s.approvals
      modifies this
      ensures Inv(s) && Grows(old(s), s) && s == old(s).(approvalPlans := s.approvalPlans)
      ensures Rebuilds(old(s), s)
      ensures o.Ok? ==> a in s.approvalPlans && o.value == s.approvalPlans[a]
      ensures a in old(s).approvalPlans ==> s == old(s) && o.Ok?
      ensures calm ==> o.Ok?
    {
      hide Inv, Grows;
      GrowsSelf(s);
      if a in s.approvalPlans {
        return Ok(s.approvalPlans[a]);
      }
      var plan := InitialPlan(s.approvals[a]);
      ApprovalPlanKeeps(s, a, plan);
      var p := Store(s.(approvalPlans := s.approvalPlans[a := plan]), calm);
      o := Told(p, plan);
    }

    method AdvanceApproval(a: ApprovalId, phase: ApprovalPhase, candidate: Option<string>, calm: bool)
      returns (o: Outcome<ApprovalPlan>)
      requires Inv(s) && a in s.approvals && a in s.approvalPlans && phase != DecisionPublished
      requires phase == Prepared ==>
        s.approvals[a].choice == Approve && candidate.Some? && Is(s, ForApproval(a), candidate.value)
      requires phase == Done ==> candidate == None
      modifies this
      ensures Inv(s) && Grows(old(s), s) && s == old(s).(approvalPlans := s.approvalPlans) && a in s.approvalPlans
      ensures o.Ok? ==> o.value == s.approvalPlans[a] && ApprovalIndex(o.value.phase) >= ApprovalIndex(phase)
      ensures calm ==> (o.Ok? <==> CanAdvanceApproval(old(s).approvalPlans[a], phase, candidate))
      ensures s.approvalPlans != old(s).approvalPlans ==>
        ApprovalStepsTo(old(s).approvalPlans[a], s.approvalPlans[a]) && s.approvalPlans[a].phase == phase &&
        s.approvalPlans == old(s).approvalPlans[a := s.approvalPlans[a]]
      ensures calm && ApprovalIndex(old(s).approvalPlans[a].phase) < ApprovalIndex(phase) && o.Ok? ==>
        o.value.phase == phase
    {
      hide Inv, Grows, ApprovalPlanHolds, Is;
      ApprovalPlanOf(s, a);
      GrowsSelf(s);
      var current := s.approvalPlans[a];
      if ApprovalIndex(current.phase) > ApprovalIndex(phase) {
        return Ok(current);
      }
      if current.phase == phase {
        return if candidate.Some? && current.candidate != candidate then Thrown else Ok(current);
      }
      var denialCompletes := current.approval.choice == Deny && current.phase == DecisionPublished && phase == Done;
      if ApprovalIndex(phase) != ApprovalIndex(current.phase) + 1 && !denialCompletes {
        return Thrown;
      }
      var next := ApprovalPlan(current.approval, phase, if candidate.Some? then candidate else current.candidate);
      ApprovalStep(s, a, next);
      ApprovalPlanKeeps(s, a, next);
      var q := Store(s.(approvalPlans := s.approvalPlans[a := next]), calm);
      o := Told(q, next);
    }

    /** decide. A denial completes with no Candidate; an approval prepares its one Candidate first. */
    method Decide(v: Approval, calm: bool) returns (o: Outcome<ApprovalPlan>)
      requires Inv(s) && v.pending.admission.import_ in s.records && s.records[v.pending.admission.import_] == v.pending
      modifies this
      ensures Inv(s) && Grows(old(s), s)
      ensures o.Ok? ==> var a := ApprovalId(v.pending.admission);
        a in s.approvals && SameDecision(s.approvals[a], v) && a in s.approvalPlans && s.approvalPlans[a].phase == Done
          && o.value == s.approvalPlans[a]
      ensures var a := ApprovalId(v.pending.admission);
        a in old(s).approvals && !SameDecision(old(s).approvals[a], v) ==> o.Thrown? && s == old(s)
      ensures v.choice == Deny ==> s.candidates == old(s).candidates
      ensures o.Ok? ==> Follows(s, ApprovalId(v.pending.admission), v)
      ensures o.Ok? && ApprovalId(v.pending.admission) !in old(s).approvals ==>
        s.approvals[ApprovalId(v.pending.admission)] == v
      ensures calm ==> (o.Ok? <==> MayDecide(old(s), v))
    {
      hide Inv, Grows;
      var a := ApprovalId(v.pending.admission);
      var begun := BeginApproval(v, calm);
      if begun.Ok? && begun.value.phase == Done { DoneFollows(s, v); }
      if !begun.Ok? || begun.value.phase == Done {
        return begun;
      }
      ghost var decided := s;
      o := FinishDecision(a, begun.value, calm);
      GrowsTrans(old(s), decided, s);
      if o.Ok? { DoneFollows(s, v); }
    }

    /** From the plan of a decision on: an approval not yet prepared needs the bundle that was staged. */
    method FinishDecision(a: ApprovalId, plan: ApprovalPlan, calm: bool) returns (o: Outcome<ApprovalPlan>)
      requires Inv(s) && a in s.approvals && a in s.approvalPlans && plan == s.approvalPlans[a] && plan.phase != Done
      modifies this
      ensures Inv(s) && Grows(old(s), s) && s.approvals == old(s).approvals && a in s.approvalPlans
      ensures o.Ok? ==> s.approvalPlans[a].phase == Done && o.value == s.approvalPlans[a]
      ensures s.approvals[a].choice == Deny ==> s.candidates == old(s).candidates
      ensures calm ==> (o.Ok? <==>
        (s.approvals[a].choice == Approve && plan.phase == DecisionPublished ==> a.admission.import_ in old(s).staged))
    {
      hide Inv, Grows;
      GrowsSelf(s);
      if s.approvals[a].choice == Approve && plan.phase == DecisionPublished {
        if a.admission.import_ !in s.staged {
          return Thrown;
        }
        o := PrepareApproved(a, calm);
        if !o.Ok? {
          return;
        }
      }
      ghost var ready := s;
      ApprovalPlanOf(s, a);
      o := AdvanceApproval(a, Done, None, calm);
      GrowsTrans(old(s), ready, s);
    }

    method PrepareApproved(a: ApprovalId, calm: bool) returns (o: Outcome<ApprovalPlan>)
      requires Inv(s) && a in s.approvals && a in s.approvalPlans && s.approvals[a].choice == Approve
      modifies this
      ensures Inv(s) && Grows(old(s), s) && s.approvals == old(s).approvals && a in s.approvalPlans
      ensures calm && old(s).approvalPlans[a].phase == DecisionPublished ==>
        o.Ok? && s.approvalPlans[a].phase == Prepared
    {
      hide Inv, Grows;
      var c := EnsureCandidate(ForApproval(a), calm);
      if !c.Ok? {
        return if c.Thrown? then Thrown else Crashed;
      }
      ghost var s0 := s;
      o := AdvanceApproval(a, Prepared, Some(c.value), calm);
      GrowsTrans(old(s), s0, s);
    }

    /** Something outside loses an approval plan. */
    method LosePlan(a: ApprovalId)
      requires Inv(s)
      modifies this
      ensures Inv(s) && Grows(old(s), s) && s == old(s).(approvalPlans := old(s).approvalPlans - {a})
    {
      LossKeeps(s, a);
      s := s.(approvalPlans := s.approvalPlans - {a});
    }

    /** reconcile: a decision without a plan gets its initial plan again, the others are left alone. */
    method ReconcileApprovals(calm: bool) returns (o: Outcome<()>)
      requires Inv(s)
      modifies this
      ensures Inv(s) && Grows(old(s), s) && Rebuilds(old(s), s)
      ensures o.Ok? ==> s.approvalPlans.Keys == s.approvals.Keys
      ensures calm ==> o.Ok?
    {
      GrowsSelf(s);
      PlansDecided(s);
      hide Inv, Grows, Rebuilds;
      var todo := s.approvals.Keys;
      o := Ok(());
      while todo != {}
        invariant Inv(s) && Grows(old(s), s) && Rebuilds(old(s), s) && todo <= s.approvals.Keys
        invariant s.approvals.Keys - todo <= s.approvalPlans.Keys
        decreases todo
      {
        var a :| a in todo;
        ghost var before := s;
        var p := EnsureApprovalPlan(a, calm);
        GrowsTrans(old(s), before, s);
        RebuildsTrans(old(s), before, s);
        if !p.Ok? {
          return if p.Thrown? then Thrown else Crashed;
        }
        todo := todo - {a};
      }
      PlansDecided(s);
    }
  }

  /** Nothing but approval plans changed, and each new one is the initial plan of its decision. */
  ghost predicate Rebuilds(s: State, t: State) {
    && t == s.(approvalPlans := t.approvalPlans)
    && (forall b | b in t.approvalPlans && b !in s.approvalPlans ::
      b in t.approvals && t.approvalPlans[b] == InitialPlan(t.approvals[b]))
    && forall b | b in s.approvalPlans :: b in t.approvalPlans && t.approvalPlans[b] == s.approvalPlans[b]
  }

  lemma RebuildsTrans(s: State, t: State, u: State)
    requires Rebuilds(s, t) && Rebuilds(t, u)
    ensures Rebuilds(s, u) && s.approvals == t.approvals == u.approvals
    ensures s.approvalPlans.Keys <= t.approvalPlans.Keys <= u.approvalPlans.Keys
  {
  }

  /** What stands decided is what was asked, up to the time; an approval has its Candidate and a denial has none. */
  predicate Follows(s: State, a: ApprovalId, v: Approval) {
    && a in s.approvals && a in s.approvalPlans
    && s.approvals[a].choice == v.choice && s.approvals[a].operator == v.operator && s.approvals[a].reason == v.reason
    && s.approvals[a].context == v.context && s.approvals[a].pending == v.pending
    && s.approvalPlans[a].approval == s.approvals[a]
    && (v.choice == Deny ==> s.approvalPlans[a].candidate == None && ForApproval(a) !in s.candidates)
    && (v.choice == Approve ==>
        ForApproval(a) in s.candidates && s.approvalPlans[a].candidate == Some(s.candidates[ForApproval(a)]))
  }

  lemma DoneFollows(s: State, v: Approval)
    requires Inv(s) && ApprovalId(v.pending.admission) in s.approvals
    requires SameDecision(s.approvals[ApprovalId(v.pending.admission)], v)
    requires ApprovalId(v.pending.admission) in s.approvalPlans
    requires s.approvalPlans[ApprovalId(v.pending.admission)].phase == Done
    ensures Follows(s, ApprovalId(v.pending.admission), v)
  {
    var a := ApprovalId(v.pending.admission);
    assert ApprovalPlanHolds(s, a, s.approvalPlans[a]);
    assert ForApproval(a) in s.candidates ==> CandidateHolds(s, ForApproval(a));
  }

  predicate SameDecision(a: Approval, b: Approval) { a.(decidedAt := b.decidedAt) == b }

  /** Every plan's transfer points back at it. */
  ghost predicate Pointed(s: State, i: string) {
    i in s.plans && s.plans[i].admission.attempt.transfer in s.transfers &&
    s.transfers[s.plans[i].admission.attempt.transfer] == i
  }

  ghost predicate PointersComplete(s: State) { forall i | i in s.plans :: Pointed(s, i) }

  /** No two imports were begun under one transfer identity. */
  ghost predicate TransfersClear(s: State) {
    forall i, j | i in s.plans && j in s.plans &&
      s.plans[i].admission.attempt.transfer == s.plans[j].admission.attempt.transfer :: i == j
  }

  lemma ClearByPlans(s: State, t: State)
    requires s.plans == t.plans
    ensures TransfersClear(s) == TransfersClear(t)
  {
  }

  lemma CompleteClear(s: State)
    ensures PointersComplete(s) ==> TransfersClear(s)
  {
    if PointersComplete(s) {
      forall i, j | i in s.plans && j in s.plans &&
        s.plans[i].admission.attempt.transfer == s.plans[j].admission.attempt.transfer
        ensures i == j
      {
        assert Pointed(s, i) && Pointed(s, j);
      }
    }
  }

  ghost predicate PointedExcept(s: State, todo: set<string>) { forall i | i in s.plans && i !in todo :: Pointed(s, i) }

  lemma PointedMore(s: State, t: State, i: string, todo: set<string>)
    requires Grows(s, t) && t.plans == s.plans && PointedExcept(s, todo) && i in s.plans
    requires s.plans[i].admission.attempt.transfer in t.transfers
    requires t.transfers[s.plans[i].admission.attempt.transfer] == i
    ensures PointedExcept(t, todo - {i})
  {
    forall j | j in t.plans && j !in todo - {i} ensures Pointed(t, j) {
      if j != i { assert Pointed(s, j); }
    }
  }

  /** A transfer that already points elsewhere is shared by two plans. */
  lemma SharedPointer(s: State, i: string)
    requires Inv(s) && i in s.plans
    ensures var x := s.plans[i].admission.attempt.transfer;
      x in s.transfers && s.transfers[x] != i ==> !TransfersClear(s)
  {
    var x := s.plans[i].admission.attempt.transfer;
    if x in s.transfers { assert PointerHolds(s, x, s.transfers[x]); }
  }

  lemma ApprovalPlanOf(s: State, a: ApprovalId)
    requires Inv(s) && a in s.approvalPlans
    ensures ApprovalPlanHolds(s, a, s.approvalPlans[a]) && a in s.approvals
    ensures s.approvalPlans[a].approval == s.approvals[a]
  {
  }

  lemma ApprovalStep(s: State, a: ApprovalId, next: ApprovalPlan)
    requires Inv(s) && a in s.approvalPlans && ApprovalPlanHolds(s, a, s.approvalPlans[a])
    requires next.approval == s.approvalPlans[a].approval && next.phase != DecisionPublished
    requires next.candidate == s.approvalPlans[a].candidate
      || (next.candidate.Some? && s.approvals[a].choice == Approve && Is(s, ForApproval(a), next.candidate.value))
    requires next.phase == Prepared ==> next.candidate.Some? && s.approvals[a].choice == Approve
    requires next.phase == Done ==> s.approvalPlans[a].phase == Prepared || next.approval.choice == Deny
    ensures ApprovalPlanHolds(s, a, next)
  {
  }

  lemma PlansDecided(s: State)
    requires Inv(s)
    ensures s.approvalPlans.Keys <= s.approvals.Keys
  {
    forall a | a in s.approvalPlans ensures a in s.approvals { ApprovalPlanOf(s, a); }
  }

  /** A begin whose pointer write throws, and no restart before the transfer identity is used for another import: the
    second begin returns, and no restart after it can reconcile the pointers, whatever else happens. */
  lemma LostPointerWedges(s: State, a: AdmissionId, b: AdmissionId)
    requires a.import_ != b.import_ && a.attempt.transfer == b.attempt.transfer && a.attempt.transfer !in s.transfers
    requires a.import_ !in s.plans && b.import_ !in s.plans
    ensures var t := s.(plans := s.plans[a.import_ := Plan(a, Planned, None)]);
      var u := t.(plans := t.plans[b.import_ := Plan(b, Planned, None)],
                  transfers := t.transfers[b.attempt.transfer := b.import_]);
      && MayBegin(s, a, t, Thrown) && MayBegin(t, b, u, Ok(Plan(b, Planned, None)))
      && forall later | Grows(u, later) :: !TransfersClear(later)
  {
    var t := s.(plans := s.plans[a.import_ := Plan(a, Planned, None)]);
    var u := t.(plans := t.plans[b.import_ := Plan(b, Planned, None)],
                transfers := t.transfers[b.attempt.transfer := b.import_]);
    assert a.import_ in u.plans && b.import_ in u.plans;
    forall later | Grows(u, later) ensures !TransfersClear(later) { SharedForever(u, later, a.import_, b.import_); }
  }

  lemma SharedForever(s: State, t: State, i: string, j: string)
    requires Grows(s, t) && i in s.plans && j in s.plans && i != j
    requires s.plans[i].admission.attempt.transfer == s.plans[j].admission.attempt.transfer
    ensures !TransfersClear(t)
  {
    assert i in t.plans && j in t.plans;
  }

  lemma PlanStays(s: State, t: State, i: string)
    requires Grows(s, t) && i in s.plans
    ensures i in t.plans && t.plans[i].admission == s.plans[i].admission
  {
  }

  lemma RecordStays(s: State, t: State, i: string)
    requires Grows(s, t) && i in s.records
    ensures i in t.records && t.records[i] == s.records[i]
  {
  }

  lemma FreshPlan(s: State, p: Plan)
    requires p == Plan(p.admission, Planned, None) && p.admission.attempt.import_ == p.admission.import_
    ensures PlanHolds(s, p.admission.import_, p)
  {
  }

  lemma NoRecordYet(s: State, i: string)
    requires Inv(s) && i !in s.plans
    ensures i !in s.records
  {
    assert i in s.records ==> RecordHolds(s, i, s.records[i]);
  }

  lemma PlannedOrRecorded(s: State, i: string)
    requires Inv(s) && i in s.plans
    ensures s.plans[i].phase != Planned ==> i in s.records
    ensures s.plans[i].admission.import_ == i
    ensures i in s.records ==> s.records[i].admission == s.plans[i].admission
  {
    assert PlanHolds(s, i, s.plans[i]);
    assert i in s.records ==> RecordHolds(s, i, s.records[i]);
  }

  lemma MayPrepare(s: State, i: string)
    requires Inv(s) && i in s.plans && i in s.records && VerdictOf(s.plans[i].admission) == Admitted
    ensures CandidateHolds(s, ForAdmission(s.plans[i].admission))
  {
    assert PlanHolds(s, i, s.plans[i]) && RecordHolds(s, i, s.records[i]);
  }

  lemma StepHolds(s: State, i: string, next: Plan)
    requires Inv(s) && i in s.plans && i in s.records && next.admission == s.plans[i].admission
    requires Index(s.plans[i].phase) < Index(next.phase)
    requires next.candidate == s.plans[i].candidate
      || (next.candidate.Some? && VerdictOf(next.admission) == Admitted &&
        Is(s, ForAdmission(next.admission), next.candidate.value))
    requires next.phase == CandidatePrepared ==> next.candidate.Some?
    requires next.phase == Completed ==> s.plans[i].phase == CandidatePrepared || VerdictOf(next.admission) != Admitted
    ensures PlanHolds(s, i, next) && Continues(s.plans[i], next)
  {
    assert PlanHolds(s, i, s.plans[i]);
  }
}
