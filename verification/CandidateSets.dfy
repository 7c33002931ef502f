/** One Candidate Set over its whole life, with crashes and restarts, from agent-service.ts.

  The decision is published immutably before the mutable record shows it, and only the
  published winner may ever be handed to Promotion. Promotion itself is the contract that
  the promotion protocol was shown to keep: it moves Canonical to its own Run's target or
  leaves it, and an interrupted one keeps its journal.
*/
module CandidateSets {
  import opened CandidateDecisions
  import opened Faults
  import Pool = CandidateBudget
  import Selection
  import SelectionMeaning

  datatype Phase = Admitted | Evaluating | Evaluated | Selected | NoWinner | Promoting | Promoted
                 | CleaningLosers | Completed | Stale | RecoveryError

  /** A competitor's Run. `Journaled` has a promotion journal that is not finished; its
    transaction calls itself promoted once Canonical has moved. */
  datatype RunState = Pending | Sealed | Journaled(moved: bool) | Finished | Ended

  /** A terminal disposition: promoted, quarantined, discarded or cancelled. */
  predicate HasDisposition(r: RunState) { r == Finished || r == Ended || r == Journaled(true) }

  /** A competitor waits until its Run has been evaluated; it is then eligible, with its seal, or excluded: ineligible,
    failed or cancelled. */
  datatype Status = Waiting | Eligible | Excluded

  datatype Canonical = Source | Target(id: string) | Elsewhere

  /** The published record: the evidence it was computed from and the decision. */
  datatype Authority = Authority(evidence: seq<Selection.Candidate>, decision: Selection.Decision)

  // ---- The token budget ----

  /** Each competitor recorded no more tokens than were reserved for it. */
  ghost predicate WithinReservations(total: nat, evidence: seq<Selection.Candidate>) {
    forall i | 0 <= i < |evidence| && Selection.TotalTokens in evidence[i].values ::
      evidence[i].values[Selection.TotalTokens] <= Pool.Allowance(total, |evidence|, i)
  }

  lemma {:induction false} SumWithin(total: nat, evidence: seq<Selection.Candidate>, k: nat)
    requires WithinReservations(total, evidence) && k <= |evidence|
    ensures SumOf(evidence[..k], Selection.TotalTokens) <= Pool.Reserved(total, |evidence|, k)
    decreases k
  {
    if k > 0 {
      SumWithin(total, evidence, k - 1);
      assert evidence[..k][..k - 1] == evidence[..k - 1];
    }
  }

  /** So the tokens recorded together never exclude anyone. */
  lemma TokensNeverExclude(budget: Budget, evidence: seq<Selection.Candidate>, cancelled: bool)
    requires WithinReservations(budget.maxTotalTokens, evidence)
    ensures SumOf(evidence, Selection.TotalTokens) <= budget.maxTotalTokens
    ensures "aggregate-budget:total-tokens" !in AggregateExclusions(evidence, budget, cancelled)
  {
    if evidence != [] {
      SumWithin(budget.maxTotalTokens, evidence, |evidence|);
      assert evidence[..|evidence|] == evidence;
      Pool.ReservationsFair(budget.maxTotalTokens, |evidence|);
    }
    assert "aggregate-budget:total-tokens"[17] == 't' && "aggregate-budget:changed-bytes"[17] == 'c';
    assert "candidate-set-cancelled-before-selection"[0] == 'c';
  }

  /** In particular for what any interleaving of the workers has recorded. */
  lemma PoolNeverExcludes(budget: Budget, maxConcurrency: nat, trace: seq<Pool.Pool>, i: nat,
                          evidence: seq<Selection.Candidate>, cancelled: bool)
    requires Pool.Run(budget.maxTotalTokens, |evidence|, maxConcurrency, trace) && i < |trace|
    requires forall c | 0 <= c < |evidence| && Selection.TotalTokens in evidence[c].values ::
      c in trace[i].tokens && evidence[c].values[Selection.TotalTokens] == trace[i].tokens[c]
    ensures SumOf(evidence, Selection.TotalTokens) <= budget.maxTotalTokens
    ensures "aggregate-budget:total-tokens" !in AggregateExclusions(evidence, budget, cancelled)
  {
    Pool.RunKeeps(budget.maxTotalTokens, |evidence|, maxConcurrency, trace, i);
    TokensNeverExclude(budget, evidence, cancelled);
  }

  // ---- The set and its invariant ----

  datatype State = State(
    budget: Budget,
    phase: Phase,
    statuses: seq<Status>,
    evidence: seq<Selection.Candidate>,
    cancelled: bool,
    authorities: seq<Authority>,
    decision: Option<Authority>,
    runs: map<string, RunState>,
    canonical: Canonical)

  /** The winner of the published decision, if one is published and names one. */
  function Winner(s: State): Option<string> {
    if s.authorities == [] || s.authorities[0].decision.winner.None? then None
    else Some(s.authorities[0].decision.winner.value)
  }

  /** This Run was handed to Promotion. */
  predicate Handed(r: RunState) { r.Journaled? || r == Finished }

  ghost predicate Safe(s: State) {
    && |s.authorities| <= 1
    && (s.decision.Some? ==> s.authorities == [s.decision.value])
    && (forall id | id in s.runs && Handed(s.runs[id]) :: Winner(s) == Some(id))
    && (s.canonical.Target? ==> s.canonical.id in s.runs && s.runs[s.canonical.id] in {Journaled(true), Finished})
    && (forall id | id in s.runs && s.runs[id] in {Journaled(true), Finished} :: s.canonical == Target(id))
  }

  ghost predicate PhaseHolds(s: State) {
    match s.phase
    case Admitted => s.authorities == [] && s.decision == None
    case Evaluating => s.authorities == [] && s.decision == None
    case Evaluated => s.decision == None && (s.authorities != [] ==> s.authorities[0].evidence == s.evidence)
    case Selected => s.decision.Some? && Winner(s).Some?
    case NoWinner => s.decision.Some? && Winner(s).None?
    case Promoting => s.decision.Some? && Winner(s).Some?
    case Promoted => s.decision.Some? && Winner(s).Some? && s.canonical == Target(Winner(s).value)
    case CleaningLosers => s.decision.Some? && (Winner(s).Some? ==> s.canonical == Target(Winner(s).value))
    case Completed => s.decision.Some? && (Winner(s).Some? ==> s.canonical == Target(Winner(s).value))
        && forall id | id in s.runs :: HasDisposition(s.runs[id])
    case Stale => true
    case RecoveryError => true
  }

  ghost predicate Inv(ids: seq<string>, s: State) {
    && Safe(s) && PhaseHolds(s)
    && (set id | id in ids) == s.runs.Keys
    && |s.evidence| == |ids| == |s.statuses| && (forall i | 0 <= i < |ids| :: s.evidence[i].id == ids[i])
    && (forall i | 0 <= i < |ids| && s.evidence[i].validated :: s.statuses[i] == Eligible)
    && WithinReservations(s.budget.maxTotalTokens, s.evidence)
  }

  /** Nothing published is ever taken back or joined by a second record, a finished Promotion
    stays, and Canonical leaves its source only once. */
  ghost predicate Forward(s: State, t: State) {
    && t.budget == s.budget && s.authorities <= t.authorities
    && (s.decision.Some? ==> t.decision == s.decision)
    && (forall id | id in s.runs && Handed(s.runs[id]) :: id in t.runs && Handed(t.runs[id]))
    && (s.canonical != Source ==> t.canonical == s.canonical)
  }

  lemma ForwardTrans(s: State, t: State, u: State)
    requires Forward(s, t) && Forward(t, u)
    ensures Forward(s, u)
  {
  }

  lemma ForwardSelf(s: State)
    ensures Forward(s, s)
  {
  }

  predicate Closed(p: Phase) { p == Completed || p == Stale || p == RecoveryError }

  /** How a step ends. `Interrupted` is the error a kept journal is reported with. */
  datatype Stop = Fine | StaleSource | Raised | Interrupted | Died

  function StopOf(fate: Fate): Stop {
    match fate
    case Calm => Fine
    case ThrowBefore => Raised
    case ThrowAfter => Raised
    case CrashBefore => Died
    case CrashAfter => Died
  }

  /** Sealed Runs may have ended; nothing else changed. */
  ghost predicate LosersEnd(before: map<string, RunState>, after: map<string, RunState>) {
    after.Keys == before.Keys && forall id | id in before ::
      after[id] == before[id] || (before[id] == Sealed && after[id] == Ended)
  }

  lemma IdKnown(ids: seq<string>, s: State, id: string)
    requires Inv(ids, s) && id in ids
    ensures id in s.runs
  {
    assert id in set k | k in ids;
  }

  lemma EndKeeps(ids: seq<string>, s: State, id: string)
    requires Inv(ids, s) && id in s.runs && s.runs[id] == Sealed
    ensures var t := s.(runs := s.runs[id := Ended]);
      Inv(ids, t) && Forward(s, t)
  {
    assert s.runs[id := Ended].Keys == s.runs.Keys;
  }

  /** A kept journal may be carried on, and Canonical with it, as long as nobody else moved it. */
  lemma CarryKeeps(ids: seq<string>, s: State, w: string, r: RunState)
    requires Inv(ids, s) && Winner(s) == Some(w) && w in s.runs && s.runs[w].Journaled? && s.canonical != Elsewhere
    requires r in {Journaled(true), Finished}
    ensures var t := s.(runs := s.runs[w := r], canonical := Target(w));
      Inv(ids, t) && Forward(s, t)
  {
    assert s.runs[w := r].Keys == s.runs.Keys;
    assert s.canonical.Target? ==> s.canonical.id == w;
  }

  lemma HandKeeps(ids: seq<string>, s: State, w: string, r: RunState, c: Canonical)
    requires Inv(ids, s) && s.phase == Promoting && Winner(s) == Some(w) && w in s.runs && s.runs[w] == Sealed
    requires s.canonical == Source
    requires Handed(r) && c == if r == Journaled(false) then Source else Target(w)
    ensures var t := s.(runs := s.runs[w := r], canonical := c);
      Inv(ids, t) && Forward(s, t) && (NonePending(s.runs) ==> NonePending(t.runs))
  {
    assert s.runs[w := r].Keys == s.runs.Keys;
  }

  lemma OnlyWinnerHanded(ids: seq<string>, s: State, w: string)
    requires Inv(ids, s) && Winner(s) == Some(w)
    ensures forall id | id in s.runs && id != w :: !s.runs[id].Journaled?
  {
  }

  lemma PublishKeeps(ids: seq<string>, s: State, a: Authority)
    requires Inv(ids, s) && s.phase == Evaluated && s.authorities == [] && a.evidence == s.evidence
    ensures var t := s.(authorities := [a]);
      Inv(ids, t) && Forward(s, t)
  {
  }

  /** Only this Run may differ. */
  ghost predicate Only(before: map<string, RunState>, after: map<string, RunState>, id: string) {
    after.Keys == before.Keys && forall k | k in after && k != id :: after[k] == before[k]
  }

  ghost predicate WinnerKept(before: map<string, RunState>, after: map<string, RunState>, winner: Option<string>) {
    winner.Some? && winner.value in before ==> winner.value in after && after[winner.value] == before[winner.value]
  }

  ghost predicate AllEnded(runs: map<string, RunState>, ids: seq<string>, winner: Option<string>) {
    forall i | 0 <= i < |ids| && Some(ids[i]) != winner :: ids[i] in runs && HasDisposition(runs[ids[i]])
  }

  lemma LosersEndSelf(runs: map<string, RunState>)
    ensures LosersEnd(runs, runs)
  {
  }

  lemma LosersEndTrans(a: map<string, RunState>, b: map<string, RunState>, c: map<string, RunState>)
    requires LosersEnd(a, b) && LosersEnd(b, c)
    ensures LosersEnd(a, c)
  {
  }

  lemma OthersKept(a: map<string, RunState>, b: map<string, RunState>, c: map<string, RunState>, id: string,
                   winner: Option<string>)
    requires WinnerKept(a, b, winner) && Only(b, c, id) && Some(id) != winner
    ensures WinnerKept(a, c, winner)
  {
  }

  /** An ended Run stays ended. */
  lemma EndedKept(b: map<string, RunState>, c: map<string, RunState>, ids: seq<string>, winner: Option<string>)
    requires LosersEnd(b, c) && AllEnded(b, ids, winner)
    ensures AllEnded(c, ids, winner)
  {
  }

  lemma EndedPush(runs: map<string, RunState>, ids: seq<string>, i: nat, winner: Option<string>)
    requires i < |ids| && AllEnded(runs, ids[..i], winner)
    requires Some(ids[i]) == winner || (ids[i] in runs && HasDisposition(runs[ids[i]]))
    ensures AllEnded(runs, ids[..i + 1], winner)
  {
  }

  lemma AllEndedKeys(ids: seq<string>, s: State, winner: Option<string>)
    requires Inv(ids, s) && AllEnded(s.runs, ids[..|ids|], winner)
    ensures forall id | id in s.runs && Some(id) != winner :: HasDisposition(s.runs[id])
  {
    assert ids[..|ids|] == ids;
    forall id | id in s.runs ensures id in ids { assert id in set k | k in ids; }
  }

  lemma LosersEndForward(s: State, t: State)
    requires t == s.(runs := t.runs) && LosersEnd(s.runs, t.runs)
    ensures Forward(s, t)
  {
  }

  lemma InvDecided(ids: seq<string>, s: State)
    requires Inv(ids, s) && s.phase in {Selected, Promoting}
    ensures s.decision.Some? && Winner(s).Some? && s.decision.value.decision.winner == Selection.Some(Winner(s).value)
  {
  }

  /** What an evaluation may record. */
  ghost predicate Records(s: State, i: nat, c: Selection.Candidate, status: Status) {
    && i < |s.evidence| && c.id == s.evidence[i].id && status != Waiting
    && (c.validated ==> status == Eligible) && (status == Excluded ==> c.exclusions != [])
    && (Selection.TotalTokens in c.values ==>
        c.values[Selection.TotalTokens] <= Pool.Allowance(s.budget.maxTotalTokens, |s.evidence|, i))
  }

  lemma EvaluatedKeeps(ids: seq<string>, s: State, i: nat, c: Selection.Candidate, status: Status)
    requires Inv(ids, s) && s.phase == Evaluating && i < |ids| && ids[i] in s.runs && Records(s, i, c, status)
    ensures var t := s.(evidence := s.evidence[i := c], statuses := s.statuses[i := status],
                        runs := s.runs[ids[i] := if status == Eligible then Sealed else Ended]);
      Inv(ids, t) && Forward(s, t) && status != Waiting
  {
    assert s.runs[ids[i] := if status == Eligible then Sealed else Ended].Keys == s.runs.Keys;
  }

  /** What a restart makes of one competitor's evidence. */
  ghost predicate FrozenAt(s: State, id: string, status: Status, before: Selection.Candidate,
                           after: Selection.Candidate) {
    if status == Excluded || (status == Eligible && id in s.runs && s.runs[id] == Sealed) then after == before
    else after == before.(exclusions := ["restart-interrupted-evaluation"])
  }

  ghost predicate Frozen(ids: seq<string>, s: State, evidence: seq<Selection.Candidate>) {
    && |evidence| == |ids| == |s.evidence| == |s.statuses|
    && forall i | 0 <= i < |ids| :: FrozenAt(s, ids[i], s.statuses[i], s.evidence[i], evidence[i])
  }

  lemma InvShape(ids: seq<string>, s: State)
    requires Inv(ids, s)
    ensures |s.statuses| == |s.evidence| == |ids|
  {
  }

  lemma AllFrozen(ids: seq<string>, s: State, evidence: seq<Selection.Candidate>)
    requires |evidence| == |ids| == |s.evidence| == |s.statuses|
    requires forall i | 0 <= i < |ids| :: FrozenAt(s, ids[i], s.statuses[i], s.evidence[i], evidence[i])
    ensures Frozen(ids, s, evidence)
  {
  }

  lemma FrozenKeeps(ids: seq<string>, s: State, evidence: seq<Selection.Candidate>, statuses: seq<Status>)
    requires Inv(ids, s) && s.phase in {Admitted, Evaluating} && Frozen(ids, s, evidence) && |statuses| == |ids|
    requires forall k | 0 <= k < |ids| :: statuses[k] == if s.statuses[k] == Eligible then Eligible else Excluded
    ensures var t := s.(evidence := evidence, statuses := statuses, phase := Evaluated);
      Inv(ids, t) && Forward(s, t)
  {
    assert forall k | 0 <= k < |ids| :: FrozenAt(s, ids[k], s.statuses[k], s.evidence[k], evidence[k]);
    hide Safe;
  }

  // ---- When a restart completes the set ----

  /** The decision has no winner, or one that may still be promoted: sealed, from the admitted source, and replaying. */
  ghost predicate Promotable(contract: Selection.Contract, s: State, d: Selection.Decision) {
    d.winner.None? ||
      (s.canonical == Source && d.winner.value in s.runs && s.runs[d.winner.value] == Sealed
       && Replay(contract, s.evidence, s.budget, s.cancelled) == Some(d))
  }

  /** The decision that an evaluated set has or will have is there, and can be carried out. */
  ghost predicate Decidable(contract: Selection.Contract, s: State) {
    if s.authorities != [] then Promotable(contract, s, s.authorities[0].decision)
    else
      var d := Replay(contract, s.evidence, s.budget, s.cancelled);
      d.Some? && Promotable(contract, s, d.value)
  }

  /** A winner already handed over is finished, or its kept journal can be; one not yet handed over may still be
    promoted. */
  ghost predicate Resumable(contract: Selection.Contract, s: State)
    requires s.decision.Some? && Winner(s).Some?
  {
    var w := Winner(s).value;
    w in s.runs && match s.runs[w]
      case Finished => true
      case Journaled(moved) => moved || s.canonical == Source
      case _ =>
        s.decision.value.decision.winner == Selection.Some(w) && Promotable(contract, s, s.decision.value.decision)
  }

  /** What a restart without faults needs to end with the set completed. */
  ghost predicate Completes(ids: seq<string>, contract: Selection.Contract, s: State)
    requires Inv(ids, s)
  {
    match s.phase
    case Admitted => s.canonical == Source && exists e ::
      Frozen(ids, s, e) && Replay(contract, e, s.budget, s.cancelled).Some?
    case Evaluating => s.canonical == Source && exists e ::
      Frozen(ids, s, e) && Replay(contract, e, s.budget, s.cancelled).Some?
    case Evaluated => s.canonical == Source && Decidable(contract, s)
    case Selected => Promotable(contract, s, s.decision.value.decision)
    case Promoting => Resumable(contract, s)
    case Stale => false
    case RecoveryError => false
    case _ => true
  }

  /** Recovery of promotions has been run: a journal is still kept only where Canonical was moved by somebody else. */
  ghost predicate Carried(s: State) { s.canonical != Elsewhere ==> forall id | id in s.runs :: !s.runs[id].Journaled? }

  /** Nothing had to be recovered, or the winner's kept journal was finished. */
  ghost predicate CarriedOn(s: State, t: State) {
    t == s ||
    (Winner(s).Some? && s.canonical != Elsewhere && Winner(s).value in s.runs && s.runs[Winner(s).value].Journaled?
               && t == s.(runs := s.runs[Winner(s).value := Finished], canonical := Target(Winner(s).value)))
  }

  /** No promotion journal is kept. */
  ghost predicate NoneKept(runs: map<string, RunState>) { forall id | id in runs :: !runs[id].Journaled? }

  lemma KeptPush(runs: map<string, RunState>, id: string, r: RunState)
    requires !r.Journaled?
    ensures NoneKept(runs) ==> NoneKept(runs[id := r])
  {
  }

  lemma TakenEndable(runs: map<string, RunState>)
    requires NoneKept(runs) && NonePending(runs)
    ensures Endable(runs, None)
  {
  }

  lemma KeptNothing(a: map<string, RunState>, b: map<string, RunState>)
    requires NoneKept(a) && InterruptedEnd(a, b) && NonePending(b)
    ensures Endable(b, None)
  {
  }

  ghost predicate NonePending(runs: map<string, RunState>) { forall id | id in runs :: runs[id] != Pending }

  /** Whoever is not the winner can be ended. */
  ghost predicate Endable(runs: map<string, RunState>, winner: Option<string>) {
    forall id | id in runs && Some(id) != winner :: runs[id] in {Sealed, Ended, Finished}
  }

  lemma LosersEndable(ids: seq<string>, s: State)
    requires Inv(ids, s) && NonePending(s.runs)
    ensures Endable(s.runs, Winner(s))
  {
  }

  lemma EndableKept(a: map<string, RunState>, b: map<string, RunState>, winner: Option<string>)
    requires LosersEnd(a, b) && Endable(a, winner)
    ensures Endable(b, winner)
  {
  }

  lemma EndableOne(ids: seq<string>, s: State, id: string, winner: Option<string>)
    requires Inv(ids, s) && Endable(s.runs, winner) && id in ids && Some(id) != winner
    ensures id in s.runs && s.runs[id] in {Sealed, Ended, Finished}
  {
    IdKnown(ids, s, id);
  }

  /** A competitor whose evaluation a restart interrupted never wins: the winner's Run is sealed. */
  lemma InterruptedNeverWins(ids: seq<string>, contract: Selection.Contract, s: State,
                             evidence: seq<Selection.Candidate>)
    requires Inv(ids, s) && Frozen(ids, s, evidence)
    ensures var d := Replay(contract, evidence, s.budget, s.cancelled);
      d.Some? && d.value.winner.Some? ==> d.value.winner.value in s.runs && s.runs[d.value.winner.value] == Sealed
  {
    var cs := Judged(evidence, AggregateExclusions(evidence, s.budget, s.cancelled));
    hide Inv, Frozen, FrozenAt, AggregateExclusions, Selection.Select, Judged;
    var d := Selection.Select(contract, cs);
    if d.Some? && d.value.winner.Some? {
      var i := WinnerPlace(contract, cs);
      CleanIsSealed(ids, s, evidence, AggregateExclusions(evidence, s.budget, s.cancelled), i);
    }
  }

  lemma CleanIsSealed(ids: seq<string>, s: State, evidence: seq<Selection.Candidate>, extra: seq<string>, i: nat)
    requires Inv(ids, s) && Frozen(ids, s, evidence) && i < |Judged(evidence, extra)|
    requires Judged(evidence, extra)[i].validated && Judged(evidence, extra)[i].exclusions == []
    ensures Judged(evidence, extra)[i].id in s.runs && s.runs[Judged(evidence, extra)[i].id] == Sealed
  {
    assert FrozenAt(s, ids[i], s.statuses[i], s.evidence[i], evidence[i]);
    assert evidence[i].exclusions == [];
  }

  lemma WinnerPlace(contract: Selection.Contract, cs: seq<Selection.Candidate>) returns (i: nat)
    requires Selection.Select(contract, cs).Some? && Selection.Select(contract, cs).value.winner.Some?
    ensures i < |cs| && cs[i].id == Selection.Select(contract, cs).value.winner.value && cs[i].validated
    ensures cs[i].exclusions == []
  {
    var q, w := Selection.Entries(contract, cs), Selection.Select(contract, cs).value.winner.value;
    Selection.WinnerIsLeast(contract, cs);
    Selection.EntriesAt(contract, cs);
    hide Selection.Less, Selection.EntryOf, Selection.Decide, Selection.Acceptable;
    i :| i < |q| && q[i].id == w && q[i].eligible;
    Selection.EntryId(contract, cs[i]);
    if cs[i].exclusions != [] || !cs[i].validated { NotEligible(contract, cs[i]); }
  }

  lemma NotEligible(contract: Selection.Contract, c: Selection.Candidate)
    requires c.exclusions != [] || !c.validated
    ensures !Selection.EntryOf(contract, c).eligible
  {
    if c.exclusions != [] {
      assert c.exclusions[0] in Selection.Exclusions(contract, c);
    } else {
      assert "required-validation-failed" in Selection.Exclusions(contract, c);
    }
  }

  /** Runs that were under way may have ended; nothing else changed. */
  ghost predicate InterruptedEnd(before: map<string, RunState>, after: map<string, RunState>) {
    after.Keys == before.Keys && forall id | id in before ::
      after[id] == before[id] || (before[id] == Pending && after[id] == Ended)
  }

  class CandidateSet {
    const ids: seq<string>
    const contract: Selection.Contract
    var s: State

    constructor (ids: seq<string>, contract: Selection.Contract, budget: Budget)
      ensures this.ids == ids && this.contract == contract
      ensures Inv(ids, s) && s.budget == budget && s.phase == Admitted && s.canonical == Source && !s.cancelled
      ensures forall i | 0 <= i < |ids| :: s.statuses[i] == Waiting
      ensures forall id | id in s.runs :: s.runs[id] == Pending
    {
      this.ids, this.contract := ids, contract;
      s := State(budget, Admitted,
        seq(|ids|, _ => Waiting),
        seq(|ids|, i requires 0 <= i < |ids| => Selection.Candidate(ids[i], false, [], map[])),
        false, [], None, map id | id in ids :: Pending, Source);
    }

    /** Cancellation may be asked for, and another Run may move Canonical, at any time between steps. */
    method Meanwhile(calm: bool)
      requires Inv(ids, s)
      modifies this
      ensures Inv(ids, s) && Forward(old(s), s) && s.phase == old(s.phase) && s.runs == old(s.runs)
      ensures s.evidence == old(s.evidence)
      ensures s.authorities == old(s.authorities) && s.decision == old(s.decision)
      ensures calm ==> s == old(s)
    {
      var cancel, elsewhere: bool := *, *;
      if !calm && cancel {
        s := s.(cancelled := true);
      }
      if !calm && elsewhere && s.canonical == Source {
        s := s.(canonical := Elsewhere);
      }
    }

    /** A write of the mutable record. */
    method Store(next: State, calm: bool) returns (o: Stop)
      requires Inv(ids, s) && Inv(ids, next) && Forward(s, next)
      modifies this
      ensures s == old(s) || s == next
      ensures o == Fine ==> s == next
      ensures o in {Fine, Raised, Died} && (calm ==> o == Fine)
    {
      var fate := Next(calm);
      if fate.Acts() {
        s := next;
      }
      o := StopOf(fate);
    }

    // ---- Steps ----

    method SetPhase(p: Phase, calm: bool) returns (o: Stop)
      requires Inv(ids, s) && PhaseHolds(s.(phase := p))
      modifies this
      ensures Inv(ids, s) && Forward(old(s), s) && (s == old(s) || s == old(s).(phase := p))
      ensures o == Fine ==> s == old(s).(phase := p)
      ensures o in {Fine, Raised, Died} && (calm ==> o == Fine)
    {
      o := Store(s.(phase := p), calm);
    }

    /** Each competitor is evaluated once, whatever order the workers take; its Run ends, or is sealed for selection. */
    method EvaluateAll(calm: bool) returns (o: Stop)
      requires Inv(ids, s) && s.phase == Evaluating
      modifies this
      ensures Inv(ids, s) && Forward(old(s), s) && s.phase == Evaluating && s.canonical == old(s).canonical
      ensures |s.statuses| == |ids| && (o == Fine ==> forall i | 0 <= i < |ids| :: s.statuses[i] != Waiting)
      ensures o == Fine ==> NonePending(s.runs)
      ensures NoneKept(old(s).runs) ==> NoneKept(s.runs)
      ensures calm ==> s.cancelled == old(s).cancelled && s.budget == old(s).budget
      ensures o in {Fine, Raised, Died} && (calm && |ids| <= s.budget.maxTotalTokens ==> o == Fine)
      ensures (calm ==> o != Died)
    {
      ForwardSelf(s);
      InvShape(ids, s);
      assert TakenTo(ids, s.runs, 0) && Heard(s.statuses, 0);
      hide *;
      o := Fine;
      var i := 0;
      while i < |ids|
        invariant i <= |ids| && Inv(ids, s) && Forward(old(s), s) && s.phase == Evaluating
        invariant s.canonical == old(s).canonical
        invariant s.budget == old(s).budget && |s.statuses| == |ids| && Heard(s.statuses, i)
        invariant TakenTo(ids, s.runs, i) && (NoneKept(old(s).runs) ==> NoneKept(s.runs))
        invariant calm ==> s.cancelled == old(s).cancelled
        invariant o == Fine
      {
        ghost var before := s;
        o := EvaluateNext(i, calm);
        ForwardTrans(old(s), before, s);
        if o != Fine {
          return;
        }
        HeardPush(before.statuses, i, s.statuses[i]);
        TakenPush(ids, before.runs, i, if s.statuses[i] == Eligible then Sealed else Ended);
        i := i + 1;
      }
      AllTaken(ids, s);
      HeardAll(s.statuses);
    }

    /** The competitor at `i` is evaluated and its outcome stored. A reservation of nothing throws. */
    method EvaluateNext(i: nat, calm: bool) returns (o: Stop)
      requires Inv(ids, s) && s.phase == Evaluating && i < |ids|
      modifies this
      ensures Inv(ids, s) && Forward(old(s), s) && s.phase == Evaluating && s.canonical == old(s).canonical
      ensures s.budget == old(s).budget
      ensures |s.statuses| == |old(s).statuses| == |ids| && s.statuses == old(s).statuses[i := s.statuses[i]]
      ensures o == Fine ==> s.statuses[i] != Waiting
      ensures o == Fine ==> s.runs == old(s).runs[ids[i] := if s.statuses[i] == Eligible then Sealed else Ended]
      ensures NoneKept(old(s).runs) ==> NoneKept(s.runs)
      ensures calm ==> s.cancelled == old(s).cancelled
      ensures o in {Fine, Raised, Died} && (calm && |ids| <= s.budget.maxTotalTokens ==> o == Fine)
      ensures (calm ==> o != Died)
    {
      ForwardSelf(s);
      MayCancel(calm);
      ghost var admitted := s;
      InvShape(ids, s);
      hide *;
      if Pool.Allowance(s.budget.maxTotalTokens, |ids|, i) < 1 {
        Pool.ReservationsFair(s.budget.maxTotalTokens, |ids|);
        return Raised;
      }
      var c, status := Evaluate(i);
      IdKnown(ids, s, ids[i]);
      EvaluatedKeeps(ids, s, i, c, status);
      KeptPush(s.runs, ids[i], if status == Eligible then Sealed else Ended);
      var next := s.(evidence := s.evidence[i := c], statuses := s.statuses[i := status],
                     runs := s.runs[ids[i] := if status == Eligible then Sealed else Ended]);
      ForwardTrans(old(s), admitted, next);
      o := Store(next, calm);
    }

    /** Cancellation may be asked for while competitors are evaluated. */
    method MayCancel(calm: bool)
      requires Inv(ids, s)
      modifies this
      ensures Inv(ids, s) && Forward(old(s), s) && (s == old(s) || (!calm && s == old(s).(cancelled := true)))
    {
      var cancel: bool := *;
      if !calm && cancel {
        s := s.(cancelled := true);
      }
    }

    /** One competitor: cancelled before it starts, failed, over its reservation, unsealed, or sealed with its
      measures. */
    method Evaluate(i: nat) returns (c: Selection.Candidate, status: Status)
      requires Inv(ids, s) && i < |ids|
      ensures Records(s, i, c, status)
    {
      var failed, sealed, late, counted, passed: bool := *, *, *, *, *;
      var used: nat := *;
      if s.cancelled {
        return s.evidence[i].(exclusions := ["candidate-set-cancelled"], validated := false), Excluded;
      }
      if failed || used > Pool.Allowance(s.budget.maxTotalTokens, |ids|, i) {
        return s.evidence[i].(exclusions := ["candidate-evaluation-failed"], validated := false), Excluded;
      }
      var exclusions := if late then ["competitor-budget:duration-ms"] else [];
      if !sealed {
        return Selection.Candidate(ids[i], false, exclusions + ["required-validation-failed"], map[]), Excluded;
      }
      var values: map<Selection.Kind, int> := *;
      values := values - {Selection.TotalTokens};
      if counted {
        values := values[Selection.TotalTokens := used];
      }
      return Selection.Candidate(ids[i], passed, exclusions, values), Eligible;
    }

    /** After a restart a competitor that was sealed stays as it is, and so does one that was already excluded; whatever
      was interrupted is excluded. The evidence is then frozen. */
    method Normalize(calm: bool) returns (o: Stop)
      requires Inv(ids, s) && s.phase in {Admitted, Evaluating}
      modifies this
      ensures Inv(ids, s) && Forward(old(s), s) && (s == old(s) || s.phase == Evaluated)
      ensures s == old(s).(phase := s.phase, statuses := s.statuses, evidence := s.evidence)
      ensures o == Fine ==> s.phase == Evaluated
      ensures s.phase == Evaluated ==> Frozen(ids, old(s), s.evidence)
      ensures o in {Fine, Raised, Died} && (calm ==> o == Fine)
    {
      var evidence, statuses := s.evidence, s.statuses;
      InvShape(ids, s);
      ForwardSelf(s);
      hide *;
      for i := 0 to |ids|
        invariant s == old(s) && |evidence| == |statuses| == |ids|
        invariant forall k | i <= k < |ids| :: evidence[k] == s.evidence[k] && statuses[k] == s.statuses[k]
        invariant forall k | 0 <= k < i :: FrozenAt(s, ids[k], s.statuses[k], s.evidence[k], evidence[k])
        invariant forall k | 0 <= k < i :: statuses[k] == if s.statuses[k] == Eligible then Eligible else Excluded
      {
        IdKnown(ids, s, ids[i]);
        var c := NormalizeOne(i);
        evidence := evidence[i := c];
        statuses := statuses[i := if statuses[i] == Eligible then Eligible else Excluded];
      }
      AllFrozen(ids, s, evidence);
      FrozenKeeps(ids, s, evidence, statuses);
      o := Store(s.(evidence := evidence, statuses := statuses, phase := Evaluated), calm);
    }

    /** One competitor: sealed or already excluded, or interrupted. */
    method NormalizeOne(i: nat) returns (c: Selection.Candidate)
      requires i < |ids| == |s.evidence| == |s.statuses| && ids[i] in s.runs
      ensures FrozenAt(s, ids[i], s.statuses[i], s.evidence[i], c)
    {
      c := s.evidence[i];
      if s.statuses[i] == Eligible && s.runs[ids[i]] == Sealed {
        return;
      }
      if s.statuses[i] == Waiting || s.statuses[i] == Eligible {
        c := c.(exclusions := ["restart-interrupted-evaluation"]);
      }
    }

    /** The published decision if there is one, else a new one, published now. */
    method Authorize(calm: bool) returns (o: Stop, authorized: Authority)
      requires Inv(ids, s) && s.phase == Evaluated
      modifies this
      ensures Inv(ids, s) && Forward(old(s), s) && s == old(s).(authorities := s.authorities)
      ensures o == Fine ==> s.authorities == [authorized]
      ensures o == Fine ==> authorized.evidence == s.evidence
      ensures o == Fine && old(s).authorities == [] ==>
        Replay(contract, s.evidence, s.budget, s.cancelled) == Some(authorized.decision)
      ensures o == Fine && old(s).authorities == [] && (s.cancelled || OverBudget(s.evidence, s.budget)) ==>
        authorized.decision.winner.None?
      ensures o == Fine && old(s).authorities == [] && !s.cancelled && !OverBudget(s.evidence, s.budget) ==>
        (authorized.decision.winner.Some? <==> exists c | c in s.evidence :: SelectionMeaning.MayWin(contract, c))
      ensures o == Fine && old(s).authorities == [] && authorized.decision.winner.Some? ==>
        exists w :: Wins(contract, s.evidence, w) && Selection.Some(w.id) == authorized.decision.winner
      ensures o in {Fine, Raised, Died}
      ensures calm ==>
        (o == Fine <==> old(s).authorities != [] || Replay(contract, s.evidence, s.budget, s.cancelled).Some?) &&
        o != Died
    {
      if s.authorities != [] {
        authorized := s.authorities[0];
        return if authorized.evidence == s.evidence then Fine else Raised, authorized;
      }
      var decision := Replay(contract, s.evidence, s.budget, s.cancelled);
      if decision.None? {
        authorized := *;
        return Raised, authorized;
      }
      authorized := Authority(s.evidence, decision.value);
      PublishKeeps(ids, s, authorized);
      ReplayMeaning(contract, s.evidence, s.budget, s.cancelled);
      hide Replay, Inv, Forward;
      o := Store(s.(authorities := [authorized]), calm);
    }

    /** persistRecoveredCandidateSetDecision: the mutable record follows the published decision. */
    method PersistDecision(calm: bool) returns (o: Stop)
      requires Inv(ids, s) && s.phase == Evaluated
      modifies this
      ensures Inv(ids, s) && Forward(old(s), s) && s.runs == old(s).runs && s.canonical == old(s).canonical
      ensures s.phase in {Evaluated, Selected, NoWinner} && (o == Fine ==> s.phase != Evaluated)
      ensures s == old(s).(authorities := s.authorities, decision := s.decision, phase := s.phase)
      ensures o == Fine ==>
        s.decision.Some? && s.authorities == [s.decision.value] && (s.phase == Selected <==> Winner(s).Some?)
      ensures o == Fine ==> if old(s).authorities != [] then s.authorities == old(s).authorities
                            else Replay(contract, s.evidence, s.budget, s.cancelled) == Some(s.decision.value.decision)
      ensures o == Fine && old(s).authorities == [] && (s.cancelled || OverBudget(s.evidence, s.budget)) ==>
        s.decision.value.decision.winner.None?
      ensures o == Fine && old(s).authorities == [] && !s.cancelled && !OverBudget(s.evidence, s.budget) ==>
        (s.decision.value.decision.winner.Some? <==> exists c | c in s.evidence :: SelectionMeaning.MayWin(contract, c))
      ensures o == Fine && old(s).authorities == [] && s.decision.value.decision.winner.Some? ==>
        exists w :: Wins(contract, s.evidence, w) && Selection.Some(w.id) == s.decision.value.decision.winner
      ensures o in {Fine, Raised, Died}
      ensures calm ==>
        (o == Fine <==> old(s).authorities != [] || Replay(contract, s.evidence, s.budget, s.cancelled).Some?) &&
        o != Died
    {
      hide Replay, Forward;
      var authorized: Authority;
      o, authorized := Authorize(calm);
      if o != Fine {
        return;
      }
      var phase := if authorized.decision.winner.Some? then Selected else NoWinner;
      ghost var published := s;
      DecidedKeeps(ids, s, authorized, phase);
      ForwardTrans(old(s), published, s.(decision := Some(authorized), phase := phase));
      o := Store(s.(decision := Some(authorized), phase := phase), calm);
    }

    /** promoteSealedCandidate, as the promotion protocol guarantees it. */
    method PromoteSealed(w: string, calm: bool) returns (o: Stop)
      requires Inv(ids, s) && s.phase == Promoting && Winner(s) == Some(w) && w in s.runs && s.runs[w] == Sealed
      modifies this
      ensures Inv(ids, s) && Forward(old(s), s) && s.phase == Promoting && s.decision == old(s).decision
      ensures o == StaleSource <==> old(s).canonical != Source
      ensures o in {StaleSource, Raised} ==> s == old(s)
      ensures s.authorities == old(s).authorities
      ensures o == Fine ==> s.canonical == Target(w) && w in s.runs && s.runs[w] == Finished
      ensures calm && old(s).canonical == Source ==> o == Fine
      ensures calm ==> o in {Fine, StaleSource}
      ensures NonePending(old(s).runs) ==> NonePending(s.runs)
    {
      if s.canonical != Source {
        return StaleSource;
      }
      HandKeeps(ids, s, w, Finished, Target(w));
      HandKeeps(ids, s, w, Journaled(false), Source);
      HandKeeps(ids, s, w, Journaled(true), Target(w));
      ForwardSelf(s);
      hide Inv, Forward, NonePending;
      var how: int := *;
      if calm || how == 0 {
        s := s.(runs := s.runs[w := Finished], canonical := Target(w));
        return Fine;
      }
      if how == 1 {
        return Raised;
      }
      if how == 2 {
        s := s.(runs := s.runs[w := Journaled(false)]);
      } else if how == 3 {
        s := s.(runs := s.runs[w := Journaled(true)], canonical := Target(w));
      } else if how == 4 {
        s := s.(runs := s.runs[w := Finished], canonical := Target(w));
      }
      o := if how <= 3 then Interrupted else Died;
    }

    /** promoteCandidateSetWinner: only the published winner, and only while selection replays. */
    method PromoteWinner(calm: bool) returns (o: Stop)
      requires Inv(ids, s) && s.phase in {Selected, Promoting}
      modifies this
      ensures Inv(ids, s) && Forward(old(s), s) && s.phase in {Selected, Promoting, Promoted}
      ensures o == Fine ==> s.phase == Promoted
      ensures o == StaleSource ==> s.canonical == old(s).canonical != Source
      ensures calm ==> o != Died && o != Interrupted
      ensures NonePending(old(s).runs) ==> NonePending(s.runs)
      ensures old(s).decision.Some?
      ensures (calm ==> (o == Fine <==> Promotable(contract, old(s), old(s).decision.value.decision)))
    {
      hide Replay, Inv, Forward, NonePending;
      InvDecided(ids, s);
      ForwardSelf(s);
      var decided := s.decision.value;
      if Replay(contract, s.evidence, s.budget, s.cancelled) != Some(decided.decision) {
        return Raised;
      }
      var w := Winner(s).value;
      if w !in s.runs || s.runs[w] != Sealed {
        return Raised;
      }
      if s.phase == Selected {
        o := SetPhase(Promoting, calm);
        if o != Fine {
          return;
        }
      }
      ghost var promoting := s;
      o := PromoteSealed(w, calm);
      ForwardTrans(old(s), promoting, s);
      if o != Fine {
        return;
      }
      ghost var handed := s;
      PromotedHolds(ids, s, w);
      o := SetPhase(Promoted, calm);
      ForwardTrans(old(s), handed, s);
    }

    /** cleanupCandidateSetLosers: sealed losers are ended; anything else must be terminal already. */
    method CleanupLosers(winner: Option<string>, calm: bool) returns (o: Stop)
      requires Inv(ids, s)
      modifies this
      ensures Inv(ids, s) && Forward(old(s), s) && s.phase == old(s).phase && s.canonical == old(s).canonical
      ensures s.authorities == old(s).authorities && s.decision == old(s).decision
      ensures o == Fine ==> forall id | id in s.runs && Some(id) != winner :: HasDisposition(s.runs[id])
      ensures WinnerKept(old(s).runs, s.runs, winner)
      ensures o in {Fine, Raised, Died}
      ensures calm ==> o != Died && (Endable(old(s).runs, winner) ==> o == Fine)
    {
      hide Inv, Forward, LosersEnd, HasDisposition, Endable;
      LosersEndSelf(s.runs);
      var i := 0;
      while i < |ids|
        invariant i <= |ids| && Inv(ids, s) && s == old(s).(runs := s.runs) && LosersEnd(old(s).runs, s.runs)
        invariant AllEnded(s.runs, ids[..i], winner)
        invariant WinnerKept(old(s).runs, s.runs, winner)
      {
        if Some(ids[i]) != winner {
          ghost var before := s.runs;
          if Endable(old(s).runs, winner) {
            EndableKept(old(s).runs, before, winner);
            EndableOne(ids, s, ids[i], winner);
          }
          o := EndLoser(ids[i], calm);
          LosersEndTrans(old(s).runs, before, s.runs);
          OthersKept(old(s).runs, before, s.runs, ids[i], winner);
          EndedKept(before, s.runs, ids[..i], winner);
          if o != Fine {
            LosersEndForward(old(s), s);
            return;
          }
        }
        EndedPush(s.runs, ids, i, winner);
        i := i + 1;
      }
      LosersEndForward(old(s), s);
      AllEndedKeys(ids, s, winner);
      o := Fine;
    }

    method EndLoser(id: string, calm: bool) returns (o: Stop)
      requires Inv(ids, s) && id in ids
      modifies this
      ensures Inv(ids, s) && s == old(s).(runs := s.runs) && LosersEnd(old(s).runs, s.runs)
      ensures Only(old(s).runs, s.runs, id)
      ensures o == Fine ==> id in s.runs && HasDisposition(s.runs[id])
      ensures o in {Fine, Raised, Died}
      ensures calm ==> o != Died && (id in old(s).runs && old(s).runs[id] in {Sealed, Ended, Finished} ==> o == Fine)
    {
      IdKnown(ids, s, id);
      if s.runs[id] == Sealed {
        EndKeeps(ids, s, id);
        hide Inv, Forward;
        o := Store(s.(runs := s.runs[id := Ended]), calm);
      } else {
        o := if s.runs[id] == Ended || s.runs[id] == Finished then Fine else Raised;
      }
    }

    method FailClosed(p: Phase, calm: bool) returns (o: Stop)
      requires Inv(ids, s) && p in {Stale, RecoveryError}
      modifies this
      ensures Inv(ids, s) && Forward(old(s), s) && (s == old(s).(phase := p) || s == old(s))
      ensures o == Fine ==> s.phase == p
      ensures o in {Fine, Raised, Died} && (calm ==> o == Fine)
    {
      o := Store(s.(phase := p), calm);
    }

    /** The failure paths of both the first run and the restart. */
    method CloseFailed(why: Stop, calm: bool) returns (o: Stop)
      requires Inv(ids, s) && why in {StaleSource, Raised}
      modifies this
      ensures Inv(ids, s) && Forward(old(s), s)
      ensures o == Fine ==> s.phase in {Stale, RecoveryError}
      ensures o == Fine && s.phase == Stale ==>
        why == StaleSource && forall id | id in s.runs :: HasDisposition(s.runs[id])
      ensures calm && why == StaleSource && Endable(old(s).runs, None) ==> s.phase == Stale
      ensures s.canonical == old(s).canonical
      ensures o in {Fine, Raised, Died}
      ensures calm ==> o == Fine
    {
      hide Inv, Forward, HasDisposition, Endable, WinnerKept;
      var cleanup := CleanupLosers(None, calm);
      if cleanup == Died {
        return Died;
      }
      ghost var between := s;
      o := FailClosed(if why == StaleSource && cleanup == Fine then Stale else RecoveryError, calm);
      ForwardTrans(old(s), between, s);
    }

    /** From a settled winner, or from none, to the end. */
    method CleanAndComplete(calm: bool) returns (o: Stop)
      requires Inv(ids, s) && s.phase in {NoWinner, Promoted, CleaningLosers}
      modifies this
      ensures Inv(ids, s) && Forward(old(s), s) && s.phase in {NoWinner, Promoted, CleaningLosers, Completed}
      ensures o == Fine ==> s.phase == Completed
      ensures o in {Fine, Raised, Died}
      ensures calm ==> o != Died && (NonePending(old(s).runs) ==> o == Fine)
    {
      SettledWinner(ids, s);
      if NonePending(s.runs) { LosersEndable(ids, s); }
      ForwardSelf(s);
      hide Inv, Forward, NonePending, Endable, HasDisposition, WinnerKept;
      o := Fine;
      if s.phase != CleaningLosers {
        o := SetPhase(CleaningLosers, calm);
        if o != Fine {
          return;
        }
      }
      ghost var cleaning := s;
      var winner := if s.decision.value.decision.winner.None? then None
        else Some(s.decision.value.decision.winner.value);
      o := CleanupLosers(winner, calm);
      ForwardTrans(old(s), cleaning, s);
      if o != Fine {
        return;
      }
      ghost var cleaned := s;
      CompletedHolds(ids, s, winner);
      o := SetPhase(Completed, calm);
      ForwardTrans(old(s), cleaned, s);
    }

    /** executeCandidateSet, the first run. */
    method Execute(calm: bool) returns (o: Stop, ghost evaluated: State)
      requires Inv(ids, s) && s.phase == Admitted
      modifies this
      ensures Inv(ids, s) && Forward(old(s), s)
      ensures o == Fine ==> Closed(s.phase) && (s.phase == Stale ==> s.canonical != Source)
      ensures calm ==> o == Fine
      ensures calm && |ids| <= old(s).budget.maxTotalTokens && old(s).canonical != Source && NoneKept(old(s).runs) ==>
        s.phase == Stale
      ensures calm && |ids| <= old(s).budget.maxTotalTokens ==>
        Inv(ids, evaluated) && NonePending(evaluated.runs) && evaluated.phase == Evaluated &&
        evaluated.canonical == old(s).canonical && evaluated.cancelled == old(s).cancelled &&
        evaluated.budget == old(s).budget && (forall i | 0 <= i < |ids| :: evaluated.statuses[i] != Waiting) &&
        (s.phase == Completed <==> Completes(ids, contract, evaluated))
    {
      evaluated := s;
      AdmittedHolds(ids, s);
      hide Inv, Forward, Completes, NonePending, Decidable, PhaseHolds, NoneKept, Endable;
      o := SetPhase(Evaluating, calm);
      if o != Fine {
        return;
      }
      ghost var s0 := s;
      o := EvaluateAll(calm);
      ForwardTrans(old(s), s0, s);
      if o == Fine {
        ghost var s1 := s;
        evaluated := s.(phase := Evaluated);
        EvaluatedInv(ids, contract, s);
        if NoneKept(s.runs) { TakenEndable(s.runs); }
        o := Decide(calm);
        ForwardTrans(old(s), s1, s);
      }
      if o == StaleSource || o == Raised {
        ghost var s2 := s;
        o := CloseFailed(o, calm);
        ForwardTrans(old(s), s2, s);
      }
    }

    /** After evaluation: check the source, freeze the evidence, decide, promote, clean. */
    method Decide(calm: bool) returns (o: Stop)
      requires Inv(ids, s) && s.phase == Evaluating
      modifies this
      ensures Inv(ids, s) && Forward(old(s), s)
      ensures o == Fine ==> s.phase == Completed
      ensures o == StaleSource ==> s.canonical != Source
      ensures calm ==> o != Died && o != Interrupted
      ensures calm && old(s).canonical != Source ==> o == StaleSource && s == old(s)
      ensures calm && NonePending(old(s).runs) ==>
        (o == Fine <==> old(s).canonical == Source && Decidable(contract, old(s).(phase := Evaluated)))
    {
      ForwardSelf(s);
      EvaluatedInv(ids, contract, s);
      hide Inv, Forward, Decidable, Promotable, NonePending, Completes, Replay;
      Meanwhile(calm);
      ghost var s0 := s;
      if s.canonical != Source {
        return StaleSource;
      }
      o := SetPhase(Evaluated, calm);
      ForwardTrans(old(s), s0, s);
      if o != Fine {
        return;
      }
      ghost var s1 := s;
      o := PersistDecision(calm);
      ForwardTrans(old(s), s1, s);
      if o != Fine {
        UndecidedCompletes(contract, s1);
        return;
      }
      DecidedCompletes(contract, s1, s);
      ghost var s2 := s;
      o := FromDecision(calm);
      ForwardTrans(old(s), s2, s);
    }

    /** From a decision to completion, wherever the set stands after it. */
    method FromDecision(calm: bool) returns (o: Stop)
      requires Inv(ids, s) && s.phase in {Selected, NoWinner, Promoted, CleaningLosers}
      modifies this
      ensures Inv(ids, s) && Forward(old(s), s)
      ensures o == Fine ==> s.phase == Completed
      ensures o == StaleSource ==> s.canonical != Source
      ensures calm ==> o != Died && o != Interrupted
      ensures calm && NonePending(old(s).runs) ==>
        (o == Fine <==>
        old(s).phase != Selected ||
        (old(s).decision.Some? && Promotable(contract, old(s), old(s).decision.value.decision)))
    {
      hide Inv, Forward, Promotable, NonePending;
      Meanwhile(calm);
      ghost var s0 := s;
      o := Fine;
      if s.phase == Selected {
        o := PromoteWinner(calm);
        ForwardTrans(old(s), s0, s);
        if o != Fine {
          return;
        }
      }
      ghost var s1 := s;
      o := CleanAndComplete(calm);
      ForwardTrans(old(s), s1, s);
    }

    /** Promotion recovery runs before candidate sets: a kept journal is finished, or stays. */
    method ReconcilePromotions(calm: bool)
      requires Inv(ids, s)
      modifies this
      ensures Inv(ids, s) && Forward(old(s), s) && s.phase == old(s).phase && s.decision == old(s).decision
      ensures s == old(s).(runs := s.runs, canonical := s.canonical)
      ensures calm ==> CarriedOn(old(s), s) && Carried(s)
    {
      if s.authorities == [] || s.authorities[0].decision.winner.None? {
        return;
      }
      var w := s.authorities[0].decision.winner.value;
      if w !in s.runs || !s.runs[w].Journaled? || (s.canonical == Elsewhere) {
        return;
      }
      var how: int := *;
      CarryKeeps(ids, s, w, Finished);
      CarryKeeps(ids, s, w, Journaled(true));
      OnlyWinnerHanded(ids, s, w);
      ForwardSelf(s);
      hide Inv, Forward;
      if calm || how == 0 {
        s := s.(runs := s.runs[w := Finished], canonical := Target(w));
      } else if how == 1 {
        s := s.(runs := s.runs[w := Journaled(true)], canonical := Target(w));
      }
    }

    /** Startup then ends every Run that was still under way. */
    method EndInterrupted(calm: bool)
      requires Inv(ids, s)
      modifies this
      ensures Inv(ids, s) && Forward(old(s), s) && s == old(s).(runs := s.runs) && InterruptedEnd(old(s).runs, s.runs)
      ensures calm ==> NonePending(s.runs) && (Carried(old(s)) ==> Carried(s))
    {
      ForwardSelf(s);
      EndedSelf(s.runs);
      hide Inv, Forward, InterruptedEnd, Carried, NonePending;
      for i := 0 to |ids|
        invariant Inv(ids, s) && Forward(old(s), s) && s == old(s).(runs := s.runs)
        invariant InterruptedEnd(old(s).runs, s.runs)
        invariant calm ==> TakenTo(ids, s.runs, i)
      {
        IdKnown(ids, s, ids[i]);
        var fails: bool := *;
        if s.runs[ids[i]] == Pending && (calm || !fails) {
          EndedKeeps(ids, old(s), s, ids[i]);
          s := s.(runs := s.runs[ids[i] := Ended]);
        }
      }
      if calm {
        AllTaken(ids, s);
        CarriedKept(old(s), s);
      }
    }

    /** The startup loop's turn for this set. Without faults it completes the set exactly when it can. */
    method Restart(calm: bool) returns (o: Stop)
      requires Inv(ids, s)
      modifies this
      ensures Inv(ids, s) && Forward(old(s), s)
      ensures o == Fine ==> Closed(s.phase) && (s.phase == Stale ==> old(s).phase == Stale || s.canonical != Source)
      ensures calm ==> o == Fine && (s.phase == Completed <==> Completes(ids, contract, old(s)))
      ensures calm && old(s).canonical != Source && NoneKept(old(s).runs) ==>
        old(s).phase in {Admitted, Evaluating, Evaluated} ==> s.phase == Stale
    {
      hide Inv, Forward, Completes, Frozen, Carried, NonePending, InterruptedEnd, CarriedOn, NoneKept, Endable;
      Meanwhile(calm);
      ghost var s0 := s;
      ReconcilePromotions(calm);
      ForwardTrans(old(s), s0, s);
      ghost var s1 := s;
      EndInterrupted(calm);
      ForwardTrans(old(s), s1, s);
      ghost var s2 := s;
      if calm {
        CarriedCompletes(ids, contract, s0, s1);
        EndedCompletes(ids, contract, s1, s2);
      }
      ClosedCompletes(ids, contract, s);
      if Closed(s.phase) {
        return Fine;
      }
      if calm && NoneKept(old(s).runs) {
        NothingCarried(s0, s1);
        KeptNothing(s1.runs, s2.runs);
      }
      o := Resume(calm);
      ForwardTrans(old(s), s2, s);
      ghost var s3 := s;
      if o == StaleSource {
        o := CloseFailed(StaleSource, calm);
        ForwardTrans(old(s), s3, s);
      } else if o == Raised || o == Interrupted {
        o := FailClosed(RecoveryError, calm);
        ForwardTrans(old(s), s3, s);
      }
    }

    method Resume(calm: bool) returns (o: Stop)
      requires Inv(ids, s) && !Closed(s.phase)
      modifies this
      ensures Inv(ids, s) && Forward(old(s), s)
      ensures o == Fine ==> s.phase == Completed
      ensures o == StaleSource ==> s.canonical != Source
      ensures calm && old(s).canonical != Source && old(s).phase in {Admitted, Evaluating, Evaluated} ==>
        o == StaleSource && s.runs == old(s).runs
      ensures calm ==> o != Died && o != Interrupted
      ensures calm && NonePending(old(s).runs) && Carried(old(s)) ==> (o == Fine <==> Completes(ids, contract, old(s)))
    {
      ResumesExactly(ids, contract, s);
      ForwardSelf(s);
      hide Inv, Forward, Completes, Frozen, Carried, NonePending, Decidable, Promotable, Resumable, Replay;
      o := Fine;
      if s.phase == Promoting {
        o := ResumePromoting(calm);
        if o != Fine {
          return;
        }
      } else if s.phase in {Admitted, Evaluating, Evaluated} {
        o := ResumeDecision(calm);
        if o != Fine {
          return;
        }
      }
      ghost var s2 := s;
      o := FromDecision(calm);
      ForwardTrans(old(s), s2, s);
    }

    /** Up to the decision: what was interrupted is excluded, and the source must still be the admitted one. */
    method ResumeDecision(calm: bool) returns (o: Stop)
      requires Inv(ids, s) && s.phase in {Admitted, Evaluating, Evaluated}
      modifies this
      ensures Inv(ids, s) && Forward(old(s), s) && s.runs == old(s).runs && s.canonical == old(s).canonical
      ensures o in {Fine, StaleSource, Raised, Died} && (calm ==> o != Died)
      ensures o == StaleSource ==> s.canonical != Source
      ensures calm && old(s).canonical != Source ==> o == StaleSource
      ensures o == Fine ==> s.phase in {Selected, NoWinner}
      ensures calm ==>
        (o == Fine && (s.phase == Selected ==> s.decision.Some? && Promotable(contract, s, s.decision.value.decision))
         <==> Completes(ids, contract, old(s)))
    {
      ForwardSelf(s);
      hide Forward, Replay, Frozen, Completes, Decidable, Promotable;
      if s.phase != Evaluated {
        o := Normalize(calm);
        if o != Fine {
          return;
        }
      }
      ghost var frozen := s;
      NormalizedCompletes(ids, contract, old(s), frozen);
      if s.canonical != Source {
        return StaleSource;
      }
      o := PersistDecision(calm);
      ForwardTrans(old(s), frozen, s);
      if o == Fine { DecidedCompletes(contract, frozen, s); } else { UndecidedCompletes(contract, frozen); }
    }

    /** An interrupted Promotion: already promoted, still sealed, or refused. Never another winner. */
    method ResumePromoting(calm: bool) returns (o: Stop)
      requires Inv(ids, s) && s.phase == Promoting
      modifies this
      ensures Inv(ids, s) && Forward(old(s), s)
      ensures o == Fine ==> s.phase == Promoted
      ensures o == StaleSource ==> s.canonical != Source
      ensures calm ==> o != Died && o != Interrupted
      ensures NonePending(old(s).runs) ==> NonePending(s.runs)
      ensures old(s).decision.Some? && Winner(old(s)).Some?
      ensures calm && Carried(old(s)) ==> (o == Fine <==> Resumable(contract, old(s)))
    {
      InvDecided(ids, s);
      var w := s.decision.value.decision.winner.value;
      if w in s.runs && s.runs[w] in {Finished, Journaled(true)} {
        PromotedHolds(ids, s, w);
        o := SetPhase(Promoted, calm);
      } else if w in s.runs && s.runs[w] == Sealed {
        o := PromoteWinner(calm);
      } else {
        o := Raised;
      }
    }
  }

  lemma AdmittedHolds(ids: seq<string>, s: State)
    requires Inv(ids, s) && s.phase == Admitted
    ensures PhaseHolds(s.(phase := Evaluating))
  {
  }

  /** What holds once everybody has been evaluated. */
  lemma EvaluatedInv(ids: seq<string>, contract: Selection.Contract, s: State)
    requires Inv(ids, s) && s.phase == Evaluating
    ensures var t := s.(phase := Evaluated);
      && Inv(ids, t) && PhaseHolds(t) && s.authorities == []
      && (Completes(ids, contract, t) <==> s.canonical == Source && Decidable(contract, t))
  {
    hide Replay;
  }

  lemma EndedKeeps(ids: seq<string>, s: State, t: State, id: string)
    requires Inv(ids, t) && Forward(s, t) && t == s.(runs := t.runs) && InterruptedEnd(s.runs, t.runs) && id in t.runs
    requires t.runs[id] == Pending
    ensures var u := t.(runs := t.runs[id := Ended]);
      Inv(ids, u) && Forward(s, u) && InterruptedEnd(s.runs, u.runs)
  {
    assert t.runs[id := Ended].Keys == t.runs.Keys;
  }

  lemma EndedSelf(runs: map<string, RunState>)
    ensures InterruptedEnd(runs, runs)
  {
  }

  /** The Runs of the first competitors are no longer under way. */
  ghost predicate TakenTo(ids: seq<string>, runs: map<string, RunState>, n: nat)
    requires n <= |ids|
  {
    forall k | 0 <= k < n :: ids[k] in runs && runs[ids[k]] != Pending
  }

  /** The first competitors have been evaluated. */
  ghost predicate Heard(statuses: seq<Status>, n: nat)
    requires n <= |statuses|
  {
    forall k | 0 <= k < n :: statuses[k] != Waiting
  }

  lemma HeardPush(statuses: seq<Status>, i: nat, status: Status)
    requires i < |statuses| && Heard(statuses, i) && status != Waiting
    ensures Heard(statuses[i := status], i + 1)
  {
  }

  lemma HeardAll(statuses: seq<Status>)
    requires Heard(statuses, |statuses|)
    ensures forall k | 0 <= k < |statuses| :: statuses[k] != Waiting
  {
  }

  lemma TakenPush(ids: seq<string>, runs: map<string, RunState>, i: nat, r: RunState)
    requires i < |ids| && TakenTo(ids, runs, i) && r != Pending
    ensures TakenTo(ids, runs[ids[i] := r], i + 1)
  {
  }

  lemma AllTaken(ids: seq<string>, s: State)
    requires Inv(ids, s) && TakenTo(ids, s.runs, |ids|)
    ensures NonePending(s.runs)
  {
    forall id | id in s.runs ensures s.runs[id] != Pending { assert id in set k | k in ids; }
  }

  lemma CarriedKept(s: State, t: State)
    requires t == s.(runs := t.runs) && InterruptedEnd(s.runs, t.runs)
    ensures Carried(s) ==> Carried(t)
  {
  }

  /** Startup's first two steps do not change whether the set completes. */
  lemma CarriedCompletes(ids: seq<string>, contract: Selection.Contract, s: State, t: State)
    requires Inv(ids, s) && Inv(ids, t) && CarriedOn(s, t)
    ensures Completes(ids, contract, t) <==> Completes(ids, contract, s)
  {
    hide Replay;
    if t != s {
      assert s.authorities != [] && s.phase != Admitted && s.phase != Evaluating;
      hide Frozen;
    }
  }

  lemma EndedCompletes(ids: seq<string>, contract: Selection.Contract, s: State, t: State)
    requires Inv(ids, s) && Inv(ids, t) && t == s.(runs := t.runs) && InterruptedEnd(s.runs, t.runs)
    ensures Completes(ids, contract, t) <==> Completes(ids, contract, s)
  {
    forall e ensures Frozen(ids, s, e) <==> Frozen(ids, t, e) { FrozenAlike(ids, s, t, e); }
    forall d ensures Promotable(contract, s, d) <==> Promotable(contract, t, d) { PromotableAlike(contract, s, t, d); }
    if s.phase in {Selected, Promoting} { InvDecided(ids, s); }
    if s.phase == Promoting { ResumableAlike(ids, contract, s, t); }
    hide Replay, Frozen, Inv, Promotable, Resumable, InterruptedEnd;
  }

  lemma NothingCarried(s: State, t: State)
    requires CarriedOn(s, t) && NoneKept(s.runs)
    ensures t == s
  {
  }

  lemma PromotableAlike(contract: Selection.Contract, s: State, t: State, d: Selection.Decision)
    requires t == s.(runs := t.runs) && InterruptedEnd(s.runs, t.runs)
    ensures Promotable(contract, s, d) <==> Promotable(contract, t, d)
  {
    hide Replay;
  }

  lemma ResumableAlike(ids: seq<string>, contract: Selection.Contract, s: State, t: State)
    requires Inv(ids, s) && s.phase == Promoting && t == s.(runs := t.runs) && InterruptedEnd(s.runs, t.runs)
    ensures s.decision.Some? && Winner(s).Some? && (Resumable(contract, s) <==> Resumable(contract, t))
  {
    InvDecided(ids, s);
    PromotableAlike(contract, s, t, s.decision.value.decision);
    hide Promotable, Inv;
  }

  lemma FrozenAlike(ids: seq<string>, s: State, t: State, e: seq<Selection.Candidate>)
    requires t == s.(runs := t.runs) && InterruptedEnd(s.runs, t.runs)
    ensures Frozen(ids, s, e) <==> Frozen(ids, t, e)
  {
    if |e| == |ids| == |s.evidence| == |s.statuses| {
      forall i | 0 <= i < |ids|
        ensures FrozenAt(s, ids[i], s.statuses[i], s.evidence[i], e[i]) <==>
          FrozenAt(t, ids[i], t.statuses[i], t.evidence[i], e[i])
      {
      }
    }
  }

  lemma ClosedCompletes(ids: seq<string>, contract: Selection.Contract, s: State)
    requires Inv(ids, s)
    ensures Closed(s.phase) ==> (s.phase == Completed <==> Completes(ids, contract, s))
  {
  }

  lemma ResumesExactly(ids: seq<string>, contract: Selection.Contract, s: State)
    requires Inv(ids, s)
    ensures s.phase == Promoting ==>
      s.decision.Some? && Winner(s).Some? && (Completes(ids, contract, s) <==> Resumable(contract, s))
    ensures s.phase == Selected ==>
      s.decision.Some? && (Completes(ids, contract, s) <==> Promotable(contract, s, s.decision.value.decision))
    ensures s.phase in {NoWinner, Promoted, CleaningLosers} ==> Completes(ids, contract, s)
  {
  }

  /** Freezing the evidence does not change it either. */
  lemma NormalizedCompletes(ids: seq<string>, contract: Selection.Contract, s: State, t: State)
    requires Inv(ids, s) && Inv(ids, t) && t.phase == Evaluated && s.phase in {Admitted, Evaluating, Evaluated}
    requires if s.phase == Evaluated then t == s
      else t == s.(phase := Evaluated, statuses := t.statuses, evidence := t.evidence) && Frozen(ids, s, t.evidence)
    ensures Completes(ids, contract, s) <==> t.canonical == Source && Decidable(contract, t)
  {
    if s.phase != Evaluated {
      InterruptedNeverWins(ids, contract, s, t.evidence);
      forall e | Frozen(ids, s, e) ensures e == t.evidence { FrozenOnce(ids, s, e, t.evidence); }
    }
  }

  lemma FrozenOnce(ids: seq<string>, s: State, a: seq<Selection.Candidate>, b: seq<Selection.Candidate>)
    requires Frozen(ids, s, a) && Frozen(ids, s, b)
    ensures a == b
  {
    forall i | 0 <= i < |a| ensures a[i] == b[i] {
      assert FrozenAt(s, ids[i], s.statuses[i], s.evidence[i], a[i]) &&
        FrozenAt(s, ids[i], s.statuses[i], s.evidence[i], b[i]);
    }
  }

  lemma DecidedCompletes(contract: Selection.Contract, s: State, t: State)
    requires t.decision.Some? && t.authorities == [t.decision.value]
    requires t == s.(authorities := t.authorities, decision := t.decision, phase := t.phase)
    requires if s.authorities != [] then t.authorities == s.authorities
      else Replay(contract, s.evidence, s.budget, s.cancelled) == Some(t.decision.value.decision)
    requires t.phase in {Selected, NoWinner} && (t.phase == Selected <==> Winner(t).Some?)
    ensures Decidable(contract, s) <==> (t.phase == Selected ==> Promotable(contract, t, t.decision.value.decision))
  {
    hide Replay;
  }

  lemma UndecidedCompletes(contract: Selection.Contract, s: State)
    ensures s.authorities == [] && Replay(contract, s.evidence, s.budget, s.cancelled).None? ==> !Decidable(contract, s)
  {
    hide Replay;
  }

  lemma DecidedKeeps(ids: seq<string>, s: State, a: Authority, phase: Phase)
    requires Inv(ids, s) && s.phase == Evaluated && s.authorities == [a]
    requires phase == if a.decision.winner.Some? then Selected else NoWinner
    ensures var t := s.(decision := Some(a), phase := phase);
      Inv(ids, t) && Forward(s, t)
  {
  }

  lemma SettledWinner(ids: seq<string>, s: State)
    requires Inv(ids, s) && s.phase in {NoWinner, Promoted, CleaningLosers}
    ensures s.decision.Some? && s.authorities == [s.decision.value] && PhaseHolds(s.(phase := CleaningLosers))
  {
  }

  lemma CompletedHolds(ids: seq<string>, s: State, winner: Option<string>)
    requires Inv(ids, s) && s.phase == CleaningLosers && winner == Winner(s)
    requires forall id | id in s.runs && Some(id) != winner :: HasDisposition(s.runs[id])
    ensures PhaseHolds(s.(phase := Completed))
  {
  }

  lemma PromotedHolds(ids: seq<string>, s: State, w: string)
    requires Inv(ids, s) && s.phase == Promoting && Winner(s) == Some(w) && w in s.runs
    requires s.runs[w] in {Finished, Journaled(true)}
    ensures PhaseHolds(s.(phase := Promoted))
  {
  }

  // ---- Over a whole life ----

  /** First run and any number of restarts, crashing anywhere: at most one competitor is ever
    handed to Promotion, it is the published winner, and the publication never changes. */
  method Live(set_: CandidateSet, restarts: nat) returns (o: Stop)
    requires Inv(set_.ids, set_.s) && set_.s.phase == Admitted
    modifies set_
    ensures Inv(set_.ids, set_.s) && Forward(old(set_.s), set_.s)
    ensures forall id, k | id in set_.s.runs && k in set_.s.runs && Handed(set_.s.runs[id]) && Handed(set_.s.runs[k]) ::
      id == k
    ensures forall id | id in set_.s.runs && Handed(set_.s.runs[id]) ::
      set_.s.authorities != [] && set_.s.authorities[0].decision.winner == Selection.Some(id)
  {
    ghost var evaluated;
    o, evaluated := set_.Execute(false);
    var n := 0;
    while n < restarts
      invariant Inv(set_.ids, set_.s) && Forward(old(set_.s), set_.s)
    {
      ghost var before := set_.s;
      o := set_.Restart(false);
      ForwardTrans(old(set_.s), before, set_.s);
      n := n + 1;
    }
  }
}
