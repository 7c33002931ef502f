/** Whole runs of the two federated sagas: requests, restarts and losses in any order, each stopping anywhere. */
module FederatedRuns {
  import opened Faults
  import opened Federated
  import opened FederatedCoordinators

  /** One event in the life of a receiver: a request with any arguments under any policy, a restart, or a loss. */
  method Meanwhile(r: Receiver)
    requires Inv(r.s)
    modifies r
    ensures Inv(r.s) && Grows(old(r.s), r.s)
  {
    hide *;
    var event: nat := *;
    if event == 0 {
      var transfer: string, import_: string, agent: string, evidence: string, active: Decision := *, *, *, *, *;
      var _ := r.Admit(transfer, import_, agent, evidence, active, false);
    } else if event == 1 {
      var v: Approval := *;
      if v.pending.admission.import_ in r.s.records && r.s.records[v.pending.admission.import_] == v.pending {
        var _ := r.Decide(v, false);
      } else {
        GrowsSelf(r.s);
      }
    } else if event == 2 {
      var _ := r.ReconcileTransferPointers(false);
    } else if event == 3 {
      var _ := r.ReconcileApprovals(false);
    } else {
      var a: ApprovalId := *;
      r.LosePlan(a);
    }
  }

  /** However long a receiver lives, nothing immutable is replaced, and an import has one Candidate Run at most. */
  method Life(r: Receiver, events: nat)
    requires Inv(r.s)
    modifies r
    ensures Inv(r.s) && Grows(old(r.s), r.s)
    ensures forall p, q | p in r.s.candidates && q in r.s.candidates && ImportOf(p) == ImportOf(q) :: p == q
  {
    hide *;
    GrowsSelf(r.s);
    for i := 0 to events
      invariant Inv(r.s) && Grows(old(r.s), r.s)
    {
      ghost var before := r.s;
      Meanwhile(r);
      GrowsTrans(old(r.s), before, r.s);
    }
    forall p, q | p in r.s.candidates && q in r.s.candidates && ImportOf(p) == ImportOf(q) ensures p == q {
      OneCandidateRun(r.s, p, q);
    }
  }

  /** A retried import returns the record it returned first or throws, whatever policy is active by then. */
  method RetryAdmission(r: Receiver, transfer: string, import_: string, agent: string, evidence: string,
                        first: Decision, later: Decision, between: nat)
    returns (one: Outcome<Record>, two: Outcome<Record>)
    requires Inv(r.s)
    modifies r
    ensures Inv(r.s) && Grows(old(r.s), r.s)
    ensures one.Ok? && two.Ok? ==> one.value == two.value
    ensures one.Ok? ==> import_ in r.s.records && r.s.records[import_] == one.value
  {
    hide Inv, Grows;
    one := r.Admit(transfer, import_, agent, evidence, first, false);
    ghost var s0 := r.s;
    Life(r, between);
    GrowsTrans(old(r.s), s0, r.s);
    ghost var s1 := r.s;
    RecordsStay(s0, s1);
    two := r.Admit(transfer, import_, agent, evidence, later, false);
    GrowsTrans(old(r.s), s1, r.s);
    RecordsStay(s1, r.s);
  }

  lemma RecordsStay(s: State, t: State)
    requires Grows(s, t)
    ensures forall i | i in s.records :: i in t.records && t.records[i] == s.records[i]
  {
  }

  /** Once an operator has decided, every later decision that is not the same one throws; a denial brings no
    Candidate. */
  method DecideAgain(r: Receiver, v: Approval, w: Approval, between: nat)
    returns (one: Outcome<ApprovalPlan>, two: Outcome<ApprovalPlan>)
    requires Inv(r.s) && v.pending == w.pending
    requires v.pending.admission.import_ in r.s.records && r.s.records[v.pending.admission.import_] == v.pending
    modifies r
    ensures Inv(r.s) && Grows(old(r.s), r.s)
    ensures one.Ok? && !SameDecision(v, w) ==> two.Thrown?
    ensures one.Ok? ==>
      ApprovalId(v.pending.admission) in r.s.approvals &&
      SameDecision(r.s.approvals[ApprovalId(v.pending.admission)], v)
    ensures one.Ok? && v.choice == Deny ==> forall q | q in r.s.candidates :: ImportOf(q) != v.pending.admission.import_
  {
    var a := ApprovalId(v.pending.admission);
    hide Inv, Grows;
    one := r.Decide(v, false);
    ghost var s0 := r.s;
    Life(r, between);
    GrowsTrans(old(r.s), s0, r.s);
    ghost var s1 := r.s;
    RecordsStay(old(r.s), s1);
    ApprovalsStay(s0, s1);
    two := r.Decide(w, false);
    GrowsTrans(old(r.s), s1, r.s);
    ApprovalsStay(s1, r.s);
    if one.Ok? && v.choice == Deny { DenialPreparesNothing(r.s, a); }
  }

  lemma ApprovalsStay(s: State, t: State)
    requires Grows(s, t)
    ensures forall a | a in s.approvals :: a in t.approvals && t.approvals[a] == s.approvals[a]
  {
  }

  /** A finished approval plan is determined by its decision and its Candidate. */
  lemma DonePlan(s: State, a: ApprovalId)
    requires Inv(s) && a in s.approvalPlans && s.approvalPlans[a].phase == Done
    ensures a in s.approvals && (s.approvals[a].choice == Approve ==> ForApproval(a) in s.candidates)
    ensures s.approvalPlans[a] ==
      ApprovalPlan(s.approvals[a], Done, if s.approvals[a].choice == Approve then Some(s.candidates[ForApproval(a)])
      else None)
  {
    assert ApprovalPlanHolds(s, a, s.approvalPlans[a]);
  }

  lemma DonePlansAgree(s: State, t: State, a: ApprovalId)
    requires Inv(s) && Inv(t) && Grows(s, t) && a in s.approvalPlans && a in t.approvalPlans
    requires s.approvalPlans[a].phase == t.approvalPlans[a].phase == Done
    ensures s.approvalPlans[a] == t.approvalPlans[a]
  {
    DonePlan(s, a);
    DonePlan(t, a);
  }

  /** A finished plan that is lost, and whose decision is made again after anything else has happened, is the lost
    one again: the same approval, done, with the same Candidate. */
  method LosePlanAndDecide(r: Receiver, v: Approval, between: nat, calm: bool) returns (o: Outcome<ApprovalPlan>)
    requires Inv(r.s) && ApprovalId(v.pending.admission) in r.s.approvalPlans
    requires r.s.approvalPlans[ApprovalId(v.pending.admission)].phase == Done
    requires v.pending.admission.import_ in r.s.records && r.s.records[v.pending.admission.import_] == v.pending
    modifies r
    ensures Inv(r.s) && Grows(old(r.s), r.s)
    ensures o.Ok? ==>
      ApprovalId(v.pending.admission) in r.s.approvalPlans &&
      o.value == r.s.approvalPlans[ApprovalId(v.pending.admission)]
    ensures o.Ok? ==> o.value == old(r.s).approvalPlans[ApprovalId(v.pending.admission)]
    ensures o.Ok? ==> SameDecision(old(r.s).approvals[ApprovalId(v.pending.admission)], v)
  {
    var a := ApprovalId(v.pending.admission);
    DonePlan(r.s, a);
    hide Inv, Grows;
    r.LosePlan(a);
    ghost var lost := r.s;
    Life(r, between);
    GrowsTrans(old(r.s), lost, r.s);
    ghost var later := r.s;
    RecordsStay(old(r.s), later);
    ApprovalsStay(old(r.s), later);
    o := r.Decide(v, calm);
    GrowsTrans(old(r.s), later, r.s);
    ApprovalsStay(old(r.s), r.s);
    if o.Ok? { DonePlansAgree(old(r.s), r.s, a); }
  }

  /** An import that a policy rejected has no Candidate of either kind. */
  lemma RejectedHasNone(s: State, i: string)
    requires Inv(s) && i in s.plans && VerdictOf(s.plans[i].admission) == Reject
    ensures forall q | q in s.candidates :: ImportOf(q) != i
  {
    assert i in s.records ==> RecordHolds(s, i, s.records[i]);
    forall q | q in s.candidates ensures ImportOf(q) != i {
      assert CandidateHolds(s, q);
      if q.ForApproval? { assert ApprovalHolds(s, q.approval, s.approvals[q.approval]); }
    }
  }

  /** An import that is first asked for under a rejection is rejected for good, once the ask has got as far as its
    plan: its record says so, and whatever is asked, decided or reconciled later, it never has a Candidate. */
  method RejectedForGood(r: Receiver, transfer: string, import_: string, agent: string, evidence: string,
                         policy: string,
                         between: nat)
    returns (o: Outcome<Record>, asked: bool)
    requires Inv(r.s) && import_ !in r.s.plans
    modifies r
    ensures Inv(r.s) && Grows(old(r.s), r.s) && (o.Ok? ==> asked)
    ensures o.Ok? ==> import_ in r.s.records && r.s.records[import_] == o.value
    ensures o.Ok? ==>
      o.value.admission.attempt == AttemptId(transfer, agent, import_, evidence, Decision(Reject, policy))
    ensures asked ==> import_ in r.s.plans && r.s.plans[import_].admission.attempt.decision == Decision(Reject, policy)
    ensures asked ==> forall q | q in r.s.candidates :: ImportOf(q) != import_
  {
    hide Inv, Grows;
    o := r.Admit(transfer, import_, agent, evidence, Decision(Reject, policy), false);
    asked := import_ in r.s.plans;
    ghost var first := r.s;
    Life(r, between);
    GrowsTrans(old(r.s), first, r.s);
    RecordsStay(first, r.s);
    if asked {
      PlanStays(first, r.s, import_);
      RejectedHasNone(r.s, import_);
    }
  }
}
