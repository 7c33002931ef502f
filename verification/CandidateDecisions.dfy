/** The decision of a Candidate Set, from candidate-selection.ts, and what it is in terms of the evidence, the budget
  and the cancellation alone.
*/
module CandidateDecisions {
  import opened Faults
  import opened SelectionMeaning
  import Selection
  import Sorting

  datatype Budget = Budget(maxTotalTokens: nat, maxTotalChangedBytes: nat)

  function SumOf(evidence: seq<Selection.Candidate>, k: Selection.Kind): int {
    if evidence == [] then 0
    else
      var last := evidence[|evidence| - 1];
      SumOf(evidence[..|evidence| - 1], k) + if k in last.values then last.values[k] else 0
  }

  function AggregateExclusions(evidence: seq<Selection.Candidate>, budget: Budget, cancelled: bool): seq<string> {
    (if SumOf(evidence, Selection.TotalTokens) > budget.maxTotalTokens then ["aggregate-budget:total-tokens"] else [])
    + (if SumOf(evidence, Selection.AddedBytes) > budget.maxTotalChangedBytes then ["aggregate-budget:changed-bytes"]
    else [])
    + (if cancelled then ["candidate-set-cancelled-before-selection"] else [])
  }

  /** replayCandidateSelection: a function of what is persisted. */
  function Replay(contract: Selection.Contract, evidence: seq<Selection.Candidate>, budget: Budget,
                  cancelled: bool): Option<Selection.Decision> {
    match Selection.Select(contract, Judged(evidence, AggregateExclusions(evidence, budget, cancelled)))
    case Some(d) => Some(d)
    case None => None
  }

  function Judged(evidence: seq<Selection.Candidate>, extra: seq<string>): seq<Selection.Candidate> {
    seq(|evidence|, i requires 0 <= i < |evidence| => evidence[i].(exclusions := evidence[i].exclusions + extra))
  }

  // ---- Sums over the competitors ----

  /** One competitor adds what it was measured at, if it was. */
  lemma SumOne(c: Selection.Candidate, k: Selection.Kind)
    ensures SumOf([c], k) == if k in c.values then c.values[k] else 0
    ensures SumOf([], k) == 0
  {
    assert [c][..0] == [];
  }

  /** And the sum over two groups is the sum of theirs. */
  lemma {:induction false} SumAdds(a: seq<Selection.Candidate>, b: seq<Selection.Candidate>, k: Selection.Kind)
    ensures SumOf(a + b, k) == SumOf(a, k) + SumOf(b, k)
    decreases |b|
  {
    if b == [] {
      assert a + b == a;
    } else {
      SumAdds(a, b[..|b| - 1], k);
      assert (a + b)[..|a + b| - 1] == a + b[..|b| - 1];
    }
  }

  // ---- The decision ----

  predicate OverBudget(evidence: seq<Selection.Candidate>, budget: Budget) {
    || SumOf(evidence, Selection.TotalTokens) > budget.maxTotalTokens
    || SumOf(evidence, Selection.AddedBytes) > budget.maxTotalChangedBytes
  }

  /** The one that may win and is ahead of everybody else who may. */
  predicate Wins(contract: Selection.Contract, cs: seq<Selection.Candidate>, w: Selection.Candidate) {
    && w in cs && MayWin(contract, w)
    && forall c | c in cs && MayWin(contract, c) && c != w :: Ahead(contract, w, c)
  }

  lemma JudgedAt(evidence: seq<Selection.Candidate>, extra: seq<string>)
    ensures |Judged(evidence, extra)| == |evidence|
    ensures forall i | 0 <= i < |evidence| ::
      Judged(evidence, extra)[i] == evidence[i].(exclusions := evidence[i].exclusions + extra)
    ensures extra == [] ==> Judged(evidence, extra) == evidence
  {
    if extra == [] {
      forall i | 0 <= i < |evidence| ensures Judged(evidence, extra)[i] == evidence[i] {
        assert evidence[i].exclusions + [] == evidence[i].exclusions;
      }
    }
  }

  /** Whatever the rest of the evidence says, a reason against all leaves nobody. */
  lemma ExcludedAll(contract: Selection.Contract, cs: seq<Selection.Candidate>)
    requires Selection.Selectable(contract, cs) && forall c | c in cs :: c.exclusions != []
    ensures Selection.Select(contract, cs).value.winner == Selection.None
    ensures Selection.Select(contract, cs).value.ordered == []
  {
    DecisionMeaning(contract, cs);
    SelectsSelectable(contract, cs);
    hide Selection.Select, Selection.Selectable;
    var d := Selection.Select(contract, cs).value;
    assert Sorting.Elements(d.ordered) == {};
    Sorting.NoElements(d.ordered);
  }

  /** A cancelled set, or one whose competitors together used too many tokens or changed too many bytes, has no
    winner. */
  lemma NobodyWins(contract: Selection.Contract, evidence: seq<Selection.Candidate>, budget: Budget, cancelled: bool)
    requires cancelled || OverBudget(evidence, budget)
    requires Replay(contract, evidence, budget, cancelled).Some?
    ensures Replay(contract, evidence, budget, cancelled).value.winner == Selection.None
    ensures Replay(contract, evidence, budget, cancelled).value.ordered == []
  {
    var extra := AggregateExclusions(evidence, budget, cancelled);
    var cs := Judged(evidence, extra);
    assert extra != [];
    JudgedAt(evidence, extra);
    hide Selection.Select, Judged, AggregateExclusions, SumOf;
    assert Selection.Selectable(contract, cs) by { SelectsSelectable(contract, cs); }
    ExcludedAll(contract, cs);
  }

  lemma SelectsSelectable(contract: Selection.Contract, cs: seq<Selection.Candidate>)
    ensures Selection.Select(contract, cs).Some? <==> Selection.Selectable(contract, cs)
  {
  }

  /** Any other set is decided on its own evidence: it has a winner exactly when somebody is validated, not excluded and
    fully measured, and the winner is ahead of everybody else of whom that is true. */
  lemma SomebodyWins(contract: Selection.Contract, evidence: seq<Selection.Candidate>, budget: Budget)
    requires !OverBudget(evidence, budget)
    ensures Replay(contract, evidence, budget, false) ==
      (match Selection.Select(contract, evidence) case Some(d) => Some(d) case None => None)
    ensures Replay(contract, evidence, budget, false).Some? ==>
      var d := Replay(contract, evidence, budget, false).value;
      && (d.winner.Some? <==> exists c | c in evidence :: MayWin(contract, c))
      && (d.winner.Some? ==> exists w :: Wins(contract, evidence, w) && w.id == d.winner.value)
  {
    JudgedAt(evidence, []);
    assert AggregateExclusions(evidence, budget, false) == [];
    hide Judged, AggregateExclusions, SumOf;
    if Selection.Select(contract, evidence).Some? {
      SelectsSelectable(contract, evidence);
      WinnerMeaning(contract, evidence);
    }
  }

  lemma WinnerMeaning(contract: Selection.Contract, cs: seq<Selection.Candidate>)
    requires Selection.Selectable(contract, cs)
    ensures var d := Selection.Select(contract, cs).value;
      && (d.winner.Some? <==> exists c | c in cs :: MayWin(contract, c))
      && (d.winner.Some? ==> exists w :: Wins(contract, cs, w) && w.id == d.winner.value)
  {
    DecisionMeaning(contract, cs);
    var d := Selection.Select(contract, cs).value;
    assert Selection.DistinctIds(cs);
    hide Selection.Select, Selection.Selectable, MayWin, Ahead, Selection.DistinctIds;
    if c :| c in cs && MayWin(contract, c) { assert c.id in d.ordered; }
    if d.ordered != [] {
      assert d.ordered[0] in d.ordered;
      var w :| Stands(contract, cs, w, d.ordered[0]);
      forall c | c in cs && MayWin(contract, c) && c != w ensures Ahead(contract, w, c) {
        var i :| 0 <= i < |d.ordered| && d.ordered[i] == c.id;
        if i == 0 { OneAnId(cs, c, w); }
        assert Stands(contract, cs, c, d.ordered[i]);
      }
    }
  }

  /** Both together. */
  lemma ReplayMeaning(contract: Selection.Contract, evidence: seq<Selection.Candidate>, budget: Budget, cancelled: bool)
    requires Replay(contract, evidence, budget, cancelled).Some?
    ensures var d := Replay(contract, evidence, budget, cancelled).value;
      && (cancelled || OverBudget(evidence, budget) ==> d.winner.None?)
      && (!cancelled && !OverBudget(evidence, budget) ==>
          (d.winner.Some? <==> exists c | c in evidence :: MayWin(contract, c)))
      && (d.winner.Some? ==> exists w :: Wins(contract, evidence, w) && Selection.Some(w.id) == d.winner)
  {
    hide Replay, Wins, MayWin, OverBudget;
    if cancelled || OverBudget(evidence, budget) {
      NobodyWins(contract, evidence, budget, cancelled);
    } else {
      SomebodyWins(contract, evidence, budget);
      var d := Replay(contract, evidence, budget, false).value;
      if d.winner.Some? {
        var w :| Wins(contract, evidence, w) && w.id == d.winner.value;
        assert Selection.Some(w.id) == d.winner;
      }
    }
  }

  /** A set can be decided exactly if selection accepts its competitors with one reason more for each of: its
    cancellation, too many tokens, too many bytes. */
  lemma DecidesExactly(contract: Selection.Contract, evidence: seq<Selection.Candidate>, budget: Budget,
                       cancelled: bool)
    ensures Replay(contract, evidence, budget, cancelled).Some? <==>
      && Selection.Select(contract, evidence).Some?
      && forall c | c in evidence ::
        |c.exclusions| + (if cancelled then 1 else 0)
        + (if SumOf(evidence, Selection.TotalTokens) > budget.maxTotalTokens then 1 else 0)
        + (if SumOf(evidence, Selection.AddedBytes) > budget.maxTotalChangedBytes then 1 else 0) <= 64
  {
    var extra := AggregateExclusions(evidence, budget, cancelled);
    var cs := Judged(evidence, extra);
    assert |extra| == (if cancelled then 1 else 0)
      + (if SumOf(evidence, Selection.TotalTokens) > budget.maxTotalTokens then 1 else 0)
      + (if SumOf(evidence, Selection.AddedBytes) > budget.maxTotalChangedBytes then 1 else 0);
    JudgedAt(evidence, extra);
    hide AggregateExclusions, SumOf, Judged, Selection.Decide;
    SelectsSelectable(contract, cs);
    SelectsSelectable(contract, evidence);
    JudgedSelectable(contract, evidence, extra, cs);
  }

  lemma JudgedSelectable(contract: Selection.Contract, evidence: seq<Selection.Candidate>, extra: seq<string>,
                         cs: seq<Selection.Candidate>)
    requires |cs| == |evidence|
    requires forall i | 0 <= i < |evidence| :: cs[i] == evidence[i].(exclusions := evidence[i].exclusions + extra)
    ensures Selection.Selectable(contract, cs) <==>
      Selection.Selectable(contract, evidence) && forall c | c in evidence :: |c.exclusions| + |extra| <= 64
  {
    if Selection.Selectable(contract, cs) {
      forall c | c in evidence ensures Selection.Acceptable(contract, c) && |c.exclusions| + |extra| <= 64 {
        var i :| 0 <= i < |evidence| && evidence[i] == c;
        assert Selection.Acceptable(contract, cs[i]);
      }
    } else if Selection.Selectable(contract, evidence) && forall c | c in evidence :: |c.exclusions| + |extra| <= 64 {
      forall c | c in cs ensures Selection.Acceptable(contract, c) {
        var i :| 0 <= i < |cs| && cs[i] == c;
        assert Selection.Acceptable(contract, evidence[i]);
      }
    }
  }

  /** The reasons a set gives, by name: a budget that was exceeded, or the cancellation. */
  lemma ReasonsNamed(evidence: seq<Selection.Candidate>, budget: Budget, cancelled: bool)
    ensures var reasons := AggregateExclusions(evidence, budget, cancelled);
      && ("aggregate-budget:total-tokens" in reasons <==>
          SumOf(evidence, Selection.TotalTokens) > budget.maxTotalTokens)
      && ("aggregate-budget:changed-bytes" in reasons <==>
          SumOf(evidence, Selection.AddedBytes) > budget.maxTotalChangedBytes)
      && ("candidate-set-cancelled-before-selection" in reasons <==> cancelled)
      && |reasons| <= 3
  {
    var a, b := "aggregate-budget:total-tokens", "aggregate-budget:changed-bytes";
    var c := "candidate-set-cancelled-before-selection";
    assert |a| < |b| < |c|;
  }
}
