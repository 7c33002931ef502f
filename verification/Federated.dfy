/** The federated admission and approval sagas: two journals with immutable records, mutable
  plans and pointers, and a Candidate adapter, from federated-admission-journal.ts and
  federated-approval-journal.ts.

  Digests are modelled by the data they are taken over, so equal digests mean equal data.
*/
module Federated {
  import opened Faults

  datatype Verdict = Admitted | Reject | ApprovalRequired

  /** A policy's decision, with the policy generation it came from. */
  datatype Decision = Decision(verdict: Verdict, policy: string)

  datatype AttemptId = AttemptId(transfer: string, agent: string, import_: string, evidence: string, decision: Decision)

  datatype AdmissionId = AdmissionId(import_: string, attempt: AttemptId)

  datatype ApprovalId = ApprovalId(admission: AdmissionId)

  /** A Candidate Run identity is derived from the admission or the approval it belongs to. */
  datatype RunId = ForAdmission(admission: AdmissionId) | ForApproval(approval: ApprovalId)

  datatype Phase = Planned | RecordPublished | CandidatePrepared | Completed

  function Index(p: Phase): nat {
    match p
    case Planned => 0
    case RecordPublished => 1
    case CandidatePrepared => 2
    case Completed => 3
  }

  datatype Plan = Plan(admission: AdmissionId, phase: Phase, candidate: Option<string>)

  function VerdictOf(a: AdmissionId): Verdict { a.attempt.decision.verdict }

  datatype Record = Record(admission: AdmissionId, recordedAt: string)

  datatype Choice = Approve | Deny

  /** The operator's immutable decision over a pending record. */
  datatype Approval = Approval(pending: Record, context: string, operator: string, choice: Choice, reason: string,
    decidedAt: string)

  datatype ApprovalPhase = DecisionPublished | Prepared | Done

  function ApprovalIndex(p: ApprovalPhase): nat {
    match p
    case DecisionPublished => 0
    case Prepared => 1
    case Done => 2
  }

  /** The plan keeps what it copies from the decision, and how far it has come. */
  datatype ApprovalPlan = ApprovalPlan(approval: Approval, phase: ApprovalPhase, candidate: Option<string>)

  /** The plan `begin` writes, and the one `reconcile` rebuilds. */
  function InitialPlan(a: Approval): ApprovalPlan { ApprovalPlan(a, DecisionPublished, None) }

  datatype State = State(
    plans: map<string, Plan>,
    records: map<string, Record>,
    transfers: map<string, string>,
    staged: set<string>,
    approvals: map<ApprovalId, Approval>,
    approvalPlans: map<ApprovalId, ApprovalPlan>,
    candidates: map<RunId, string>)

  // ---- The invariant ----

  ghost predicate PlanHolds(s: State, i: string, p: Plan) {
    && p.admission.import_ == i && p.admission.attempt.import_ == i
    && (Index(p.phase) >= 1 ==> i in s.records)
    && (VerdictOf(p.admission) != Admitted ==> p.phase != CandidatePrepared && p.candidate == None)
    && (p.candidate.Some? ==> Is(s, ForAdmission(p.admission), p.candidate.value))
    && (VerdictOf(p.admission) == Admitted && Index(p.phase) >= 2 ==> p.candidate.Some?)
  }

  /** The Candidate of this Run is this state. */
  ghost predicate Is(s: State, r: RunId, c: string) { r in s.candidates && s.candidates[r] == c }

  ghost predicate RecordHolds(s: State, i: string, r: Record) { i in s.plans && r.admission == s.plans[i].admission }

  ghost predicate PointerHolds(s: State, t: string, i: string) {
    i in s.plans && s.plans[i].admission.attempt.transfer == t
  }

  /** An approval stands over an immutable record that awaits one. */
  ghost predicate ApprovalHolds(s: State, a: ApprovalId, v: Approval) {
    var i := a.admission.import_;
    i in s.records && v.pending == s.records[i] && v.pending.admission == a.admission &&
    VerdictOf(a.admission) == ApprovalRequired
  }

  ghost predicate ApprovalPlanHolds(s: State, a: ApprovalId, p: ApprovalPlan) {
    && a in s.approvals && p.approval == s.approvals[a]
    && (p.approval.choice == Deny ==> p.candidate == None && p.phase != Prepared)
    && (p.approval.choice == Approve && p.phase != DecisionPublished ==> p.candidate.Some?)
    && (p.candidate.Some? ==> Is(s, ForApproval(a), p.candidate.value))
  }

  /** Candidate State exists only under an admit record, or an approval over a pending one. */
  ghost predicate CandidateHolds(s: State, r: RunId) {
    match r
    case ForAdmission(a) => a.import_ in s.records && s.records[a.import_].admission == a && VerdictOf(a) == Admitted
    case ForApproval(p) => p in s.approvals && s.approvals[p].choice == Approve
  }

  ghost predicate PlansHold(s: State) { forall i | i in s.plans :: PlanHolds(s, i, s.plans[i]) }
  ghost predicate RecordsHold(s: State) { forall i | i in s.records :: RecordHolds(s, i, s.records[i]) }
  ghost predicate PointersHold(s: State) { forall t | t in s.transfers :: PointerHolds(s, t, s.transfers[t]) }
  ghost predicate ApprovalsHold(s: State) { forall a | a in s.approvals :: ApprovalHolds(s, a, s.approvals[a]) }
  ghost predicate ApprovalPlansHold(s: State) {
    forall a | a in s.approvalPlans :: ApprovalPlanHolds(s, a, s.approvalPlans[a])
  }
  ghost predicate CandidatesHold(s: State) { forall r | r in s.candidates :: CandidateHolds(s, r) }

  ghost predicate Inv(s: State) {
    PlansHold(s) && RecordsHold(s) && PointersHold(s) && ApprovalsHold(s) && ApprovalPlansHold(s) && CandidatesHold(s)
  }

  /** Records, decisions, pointers and Candidates are never replaced; plans keep their identity
    and never go back a phase. */
  ghost predicate Grows(s: State, t: State) {
    && Extends(s.records, t.records) && Extends(s.approvals, t.approvals)
    && Extends(s.candidates, t.candidates) && Extends(s.transfers, t.transfers)
    && forall i | i in s.plans :: i in t.plans && Continues(s.plans[i], t.plans[i])
  }

  ghost predicate Extends<K, V>(a: map<K, V>, b: map<K, V>) { forall k | k in a :: k in b && b[k] == a[k] }

  predicate Continues(p: Plan, q: Plan) { q.admission == p.admission && Index(p.phase) <= Index(q.phase) }

  lemma GrowsSelf(s: State)
    ensures Grows(s, s)
  {
  }

  lemma GrowsTrans(s: State, t: State, u: State)
    requires Grows(s, t) && Grows(t, u)
    ensures Grows(s, u)
  {
  }

  // ---- Consequences ----

  /** One Run identity an import, and never both kinds. */
  lemma OneCandidateRun(s: State, r: RunId, q: RunId)
    requires Inv(s) && r in s.candidates && q in s.candidates && ImportOf(r) == ImportOf(q)
    ensures r == q
  {
  }

  function ImportOf(r: RunId): string {
    match r
    case ForAdmission(a) => a.import_
    case ForApproval(p) => p.admission.import_
  }

  /** A completed admitted plan names a prepared Candidate; a denial never has one. */
  lemma CompletedNamesCandidate(s: State, i: string)
    requires Inv(s) && i in s.plans && s.plans[i].phase == Completed
    ensures i in s.records
    ensures VerdictOf(s.plans[i].admission) == Admitted ==>
      ForAdmission(s.plans[i].admission) in s.candidates &&
      s.plans[i].candidate == Some(s.candidates[ForAdmission(s.plans[i].admission)])
    ensures VerdictOf(s.plans[i].admission) != Admitted ==> ForAdmission(s.plans[i].admission) !in s.candidates
  {
  }

  lemma DenialPreparesNothing(s: State, a: ApprovalId)
    requires Inv(s) && a in s.approvals && s.approvals[a].choice == Deny
    ensures forall r | r in s.candidates :: ImportOf(r) != a.admission.import_
  {
  }

  // ---- State changes ----

  /** What holds of an entry goes on holding as the state grows. */
  lemma EntriesKept(s: State, t: State)
    requires Inv(s) && Grows(s, t)
    ensures forall i | i in s.plans :: PlanHolds(t, i, s.plans[i])
    ensures forall i | i in s.records :: RecordHolds(t, i, s.records[i])
    ensures forall x | x in s.transfers :: PointerHolds(t, x, s.transfers[x])
    ensures forall a | a in s.approvals :: ApprovalHolds(t, a, s.approvals[a])
    ensures forall a | a in s.approvalPlans :: ApprovalPlanHolds(t, a, s.approvalPlans[a])
    ensures forall r | r in s.candidates :: CandidateHolds(t, r)
  {
    forall i | i in s.plans ensures PlanHolds(t, i, s.plans[i]) { assert PlanHolds(s, i, s.plans[i]); }
    forall i | i in s.records ensures RecordHolds(t, i, s.records[i]) { assert RecordHolds(s, i, s.records[i]); }
    forall x | x in s.transfers ensures PointerHolds(t, x, s.transfers[x]) {
      assert PointerHolds(s, x, s.transfers[x]);
    }
    forall a | a in s.approvals ensures ApprovalHolds(t, a, s.approvals[a]) {
      assert ApprovalHolds(s, a, s.approvals[a]);
    }
    forall a | a in s.approvalPlans ensures ApprovalPlanHolds(t, a, s.approvalPlans[a]) {
      assert ApprovalPlanHolds(s, a, s.approvalPlans[a]);
    }
    forall r | r in s.candidates ensures CandidateHolds(t, r) { assert CandidateHolds(s, r); }
  }

  lemma PlanKeeps(s: State, i: string, p: Plan)
    requires Inv(s) && PlanHolds(s, i, p) && (i in s.plans ==> Continues(s.plans[i], p))
    requires (i !in s.plans ==> i !in s.records)
    ensures var t := s.(plans := s.plans[i := p]);
      Inv(t) && Grows(s, t)
  {
    EntriesKept(s, s.(plans := s.plans[i := p]));
    hide PlanHolds, RecordHolds, PointerHolds, ApprovalHolds, ApprovalPlanHolds, CandidateHolds;
  }

  lemma PointerKeeps(s: State, x: string, i: string)
    requires Inv(s) && PointerHolds(s, x, i) && x !in s.transfers
    ensures var t := s.(transfers := s.transfers[x := i]);
      Inv(t) && Grows(s, t)
  {
    EntriesKept(s, s.(transfers := s.transfers[x := i]));
    hide PlanHolds, RecordHolds, ApprovalHolds, ApprovalPlanHolds, CandidateHolds;
  }

  lemma RecordKeeps(s: State, i: string, r: Record)
    requires Inv(s) && i !in s.records && RecordHolds(s, i, r)
    ensures var t := s.(records := s.records[i := r]);
      Inv(t) && Grows(s, t)
  {
    EntriesKept(s, s.(records := s.records[i := r]));
    hide PlanHolds, PointerHolds, ApprovalHolds, ApprovalPlanHolds, CandidateHolds;
  }

  lemma CandidateKeeps(s: State, r: RunId, c: string)
    requires Inv(s) && r !in s.candidates && CandidateHolds(s, r)
    ensures var t := s.(candidates := s.candidates[r := c]);
      Inv(t) && Grows(s, t)
  {
    EntriesKept(s, s.(candidates := s.candidates[r := c]));
    hide PlanHolds, RecordHolds, PointerHolds, ApprovalHolds, ApprovalPlanHolds;
  }

  lemma ApprovalKeeps(s: State, a: ApprovalId, v: Approval)
    requires Inv(s) && a !in s.approvals && ApprovalHolds(s, a, v)
    ensures var t := s.(approvals := s.approvals[a := v]);
      Inv(t) && Grows(s, t)
  {
    EntriesKept(s, s.(approvals := s.approvals[a := v]));
    hide PlanHolds, RecordHolds, PointerHolds, ApprovalPlanHolds, CandidateHolds;
  }

  lemma ApprovalPlanAcross(s: State, t: State, a: ApprovalId, p: ApprovalPlan)
    requires ApprovalPlanHolds(s, a, p) && Grows(s, t)
    ensures ApprovalPlanHolds(t, a, p)
  {
  }

  lemma PlansApart(s: State, plans: map<ApprovalId, ApprovalPlan>)
    ensures Grows(s, s.(approvalPlans := plans))
  {
  }

  lemma ApprovalPlanKeeps(s: State, a: ApprovalId, p: ApprovalPlan)
    requires Inv(s) && ApprovalPlanHolds(s, a, p)
    ensures var t := s.(approvalPlans := s.approvalPlans[a := p]);
      Inv(t) && Grows(s, t)
  {
    var t := s.(approvalPlans := s.approvalPlans[a := p]);
    PlansApart(s, t.approvalPlans);
    EntriesKept(s, t);
    ApprovalPlanAcross(s, t, a, p);
    hide Grows, PlanHolds, RecordHolds, PointerHolds, ApprovalHolds, ApprovalPlanHolds, CandidateHolds;
  }

  lemma StagedKeeps(s: State, i: string)
    requires Inv(s)
    ensures Inv(s.(staged := s.staged + {i})) && Grows(s, s.(staged := s.staged + {i}))
  {
    EntriesKept(s, s.(staged := s.staged + {i}));
    hide PlanHolds, RecordHolds, PointerHolds, ApprovalHolds, ApprovalPlanHolds, CandidateHolds;
  }

  /** An approval plan lost from disk takes no decision and no Candidate with it. */
  lemma LossKeeps(s: State, a: ApprovalId)
    requires Inv(s)
    ensures Inv(s.(approvalPlans := s.approvalPlans - {a})) && Grows(s, s.(approvalPlans := s.approvalPlans - {a}))
  {
    var t := s.(approvalPlans := s.approvalPlans - {a});
    PlansApart(s, t.approvalPlans);
    EntriesKept(s, t);
    hide Grows, PlanHolds, RecordHolds, PointerHolds, ApprovalHolds, ApprovalPlanHolds, CandidateHolds;
  }
}
