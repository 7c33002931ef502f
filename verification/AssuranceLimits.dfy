/** What the limit operation asks, said of lineages: which of them speak for it, in whatever order the history is
  listed. */
module AssuranceLimits {
  import opened AssuranceDerivation
  import opened ContractStrengthening
  import opened OutcomeContracts
  import opened Sorting

  /** Every Run has its own identifier. */
  ghost predicate History(runs: seq<Run>) { forall i, j | 0 <= i < j < |runs| :: runs[i].id != runs[j].id }

  /** The Run speaks for its lineage among these: no other of the lineage has an earlier identifier. */
  ghost predicate Leads(less: (string, string) -> bool, s: set<Run>, run: Run) {
    run in s && run.rootRunId != "" && forall other | other in s && other.rootRunId == run.rootRunId ::
      other == run || less(run.id, other.id)
  }

  ghost function Leaders(less: (string, string) -> bool, s: set<Run>): set<Run> {
    set run | run in s && Leads(less, s, run)
  }

  /** The lineages of the two earliest leaders. */
  ghost function EarlyLineages(less: (string, string) -> bool, s: set<Run>): set<string> {
    set run | run in Leaders(less, s) && |Below(ById(less), Leaders(less, s), run)| < 2 :: run.rootRunId
  }

  ghost function OverflowSet(metric: Metric, runs: seq<Run>): set<Run> {
    set run | run in runs && Overflowed(metric, run)
  }

  ghost function SuccessSet(runs: seq<Run>): set<Run> { set run | run in runs && Succeeded(run) }

  /** One promoted Run of each lineage other than the two that speak for the overflow. */
  ghost function Support(less: (string, string) -> bool, metric: Metric, runs: seq<Run>): set<Run> {
    set run | run in Leaders(less, SuccessSet(runs)) && run.rootRunId !in EarlyLineages(less, OverflowSet(metric, runs))
  }

  /** The least limit under which all of these pass. */
  ghost predicate Needed(metric: Metric, s: set<Run>, n: int) {
    && (forall run | run in s :: run.changes.Some? && Observed(metric, run) <= n) && Floor(metric) <= n
    && (n == Floor(metric) || exists run | run in s :: run.changes.Some? && Observed(metric, run) == n)
  }

  /** Two lineages overflowed, three others were promoted, and these need less than the base allows. */
  ghost predicate Called(less: (string, string) -> bool, base: Rules, runs: seq<Run>, metric: Metric, op: Operation) {
    && |Leaders(less, OverflowSet(metric, runs))| >= 2 && |Support(less, metric, runs)| >= 3
    && exists n :: Needed(metric, Support(less, metric, runs), n) && n < Limit(metric, base) && op == Lower(metric, n)
  }

  // ---- What the computation picks ----

  /** A part of the rest of a history, behind its first Run, is a history. */
  lemma HistoryPush(h: Run, t: seq<Run>, rest: seq<Run>)
    requires History([h] + t) && Elements(rest) <= Elements(t) && History(rest)
    ensures History([h] + rest)
  {
    forall run | run in rest ensures run.id != h.id {
      assert run in Elements(rest);
      var i :| 0 <= i < |t| && t[i] == run;
      assert ([h] + t)[i + 1] == run && ([h] + t)[0] == h;
    }
  }

  lemma HistoryRest(h: Run, t: seq<Run>)
    requires History([h] + t)
    ensures History(t)
  {
    forall i, j | 0 <= i < j < |t| ensures t[i].id != t[j].id { assert ([h] + t)[i + 1].id != ([h] + t)[j + 1].id; }
  }

  lemma {:induction false} OverflowsAre(metric: Metric, runs: seq<Run>)
    requires History(runs)
    ensures Elements(Overflows(metric, runs)) == OverflowSet(metric, runs) && History(Overflows(metric, runs))
    decreases |runs|
  {
    if runs != [] {
      var h, t, rest := runs[0], runs[1..], Overflows(metric, runs[1..]);
      assert runs == [h] + t;
      HistoryRest(h, t);
      OverflowsAre(metric, t);
      assert OverflowSet(metric, runs) == OverflowSet(metric, t) + if Overflowed(metric, h) then {h} else {};
      assert OverflowSet(metric, t) <= Elements(t);
      HistoryPush(h, t, rest);
      ElementsPush(h, rest);
      assert [] + rest == rest;
      hide Overflowed, OverflowSet, Elements, History;
    }
  }

  lemma {:induction false} SuccessesAre(runs: seq<Run>)
    requires History(runs)
    ensures Elements(Successes(runs)) == SuccessSet(runs) && History(Successes(runs))
    decreases |runs|
  {
    if runs != [] {
      var h, t, rest := runs[0], runs[1..], Successes(runs[1..]);
      assert runs == [h] + t;
      HistoryRest(h, t);
      SuccessesAre(t);
      assert SuccessSet(runs) == SuccessSet(t) + if Succeeded(h) then {h} else {};
      assert SuccessSet(t) <= Elements(t);
      HistoryPush(h, t, rest);
      ElementsPush(h, rest);
      assert [] + rest == rest;
      hide Succeeded, SuccessSet, Elements, History;
    }
  }

  lemma OneRunAnId(runs: seq<Run>, a: Run, b: Run)
    requires History(runs) && a in runs && b in runs
    ensures a.id == b.id ==> a == b
  {
    var i :| 0 <= i < |runs| && runs[i] == a;
    var j :| 0 <= j < |runs| && runs[j] == b;
    assert i == j || a.id != b.id;
  }

  lemma RunsTotal(less: (string, string) -> bool, runs: seq<Run>)
    requires TotalOrder(less) && History(runs)
    ensures TotalOn(ById(less), Elements(runs)) && Once(runs)
  {
    forall a, b | a in Elements(runs) && b in Elements(runs) ensures a == b || less(a.id, b.id) || less(b.id, a.id) {
      OneRunAnId(runs, a, b);
    }
  }

  /** In a sorted list the first Run of a lineage leads it. */
  lemma {:induction false} FirstRunsLead(less: (string, string) -> bool, order: seq<Run>, seen: set<string>)
    requires TotalOrder(less) && InOrder(ById(less), order)
    ensures Elements(FirstRuns(order, seen)) ==
      set run | run in Leaders(less, Elements(order)) && run.rootRunId !in seen
    ensures InOrder(ById(less), FirstRuns(order, seen))
    decreases |order|
  {
    if order != [] {
      var h, t := order[0], order[1..];
      assert order == [h] + t;
      ElementsPush(h, t);
      hide Elements;
      forall run | run in Elements(t) ensures less(h.id, run.id) && !less(run.id, h.id) {
        HeadBelowRest(less, order, run);
      }
      if h.rootRunId == "" || h.rootRunId in seen {
        FirstRunsLead(less, t, seen);
      } else {
        var more := FirstRuns(t, seen + {h.rootRunId});
        FirstRunsLead(less, t, seen + {h.rootRunId});
        ElementsPush(h, more);
        InOrderPush(less, h, more);
      }
    }
  }

  lemma HeadBelowRest(less: (string, string) -> bool, order: seq<Run>, run: Run)
    requires TotalOrder(less) && InOrder(ById(less), order) && order != [] && run in Elements(order[1..])
    ensures less(order[0].id, run.id) && !less(run.id, order[0].id)
  {
    var i :| 0 <= i < |order[1..]| && order[1..][i] == run;
    assert ById(less)(order[0], order[i + 1]);
    assert !less(order[0].id, order[0].id);
  }

  lemma InOrderPush(less: (string, string) -> bool, h: Run, q: seq<Run>)
    requires InOrder(ById(less), q) && forall run | run in Elements(q) :: less(h.id, run.id)
    ensures InOrder(ById(less), [h] + q)
  {
    assert forall i | 0 <= i < |q| :: q[i] in Elements(q);
  }

  lemma OrderedOnce(less: (string, string) -> bool, q: seq<Run>)
    requires TotalOrder(less) && InOrder(ById(less), q)
    ensures Once(q)
  {
    forall i, j | 0 <= i < j < |q| ensures q[i] != q[j] { assert ById(less)(q[i], q[j]); }
  }

  /** The representatives that uniqueRootRuns picks are the leaders, in order. */
  lemma UniqueAreLeaders(less: (string, string) -> bool, runs: seq<Run>)
    requires TotalOrder(less) && History(runs)
    ensures var unique := FirstRuns(Sort(ById(less), runs), {});
      Elements(unique) == Leaders(less, Elements(runs)) && InOrder(ById(less), unique) &&
      |unique| == |Leaders(less, Elements(runs))|
  {
    RunsTotal(less, runs);
    SortSorts(ById(less), Elements(runs), runs);
    hide Sort, FirstRuns, Once, TotalOn, InOrder, Elements, TotalOrder;
    FirstRunsLead(less, Sort(ById(less), runs), {});
    OrderedOnce(less, FirstRuns(Sort(ById(less), runs), {}));
    OnceSize(FirstRuns(Sort(ById(less), runs), {}));
  }

  lemma LeadersTotal(less: (string, string) -> bool, runs: seq<Run>)
    requires TotalOrder(less) && History(runs)
    ensures TotalOn(ById(less), Leaders(less, Elements(runs)))
  {
    RunsTotal(less, runs);
  }

  lemma CitedAre(less: (string, string) -> bool, metric: Metric, runs: seq<Run>)
    requires TotalOrder(less) && History(runs)
    ensures Roots(CitedOverflows(less, metric, runs)) == EarlyLineages(less, OverflowSet(metric, runs))
    ensures |CitedOverflows(less, metric, runs)| >= 2 <==> |Leaders(less, OverflowSet(metric, runs))| >= 2
  {
    var all := Overflows(metric, runs);
    var unique, s := FirstRuns(Sort(ById(less), all), {}), Leaders(less, OverflowSet(metric, runs));
    OverflowsAre(metric, runs);
    UniqueAreLeaders(less, all);
    LeadersTotal(less, all);
    hide Sort, FirstRuns, Overflows, Leaders, TotalOrder, History, OverflowSet;
    FirstTwo(less, unique, s);
    var cited := AtMost(2, unique);
    assert Roots(cited) == EarlyLineages(less, OverflowSet(metric, runs));
  }

  lemma FirstTwo(less: (string, string) -> bool, q: seq<Run>, s: set<Run>)
    requires TotalOn(ById(less), s) && Elements(q) == s && InOrder(ById(less), q)
    ensures forall run :: run in AtMost(2, q) <==> run in s && |Below(ById(less), s, run)| < 2
  {
    hide TotalOn, InOrder, Below;
    forall run | run in AtMost(2, q) ensures run in s { assert run in q; }
    forall run ensures run in AtMost(2, q) <==> run in s && |Below(ById(less), s, run)| < 2 {
      if run in s {
        var i := PlaceOf(q, run);
        PlaceCounts(ById(less), s, q, i);
        if run in AtMost(2, q) {
          var j :| 0 <= j < |AtMost(2, q)| && AtMost(2, q)[j] == run;
          assert q[j] == run;
          PlaceCounts(ById(less), s, q, j);
        }
        assert i < 2 ==> AtMost(2, q)[i] == run;
      }
    }
  }

  lemma OncePush(h: Run, t: seq<Run>, rest: seq<Run>)
    requires Once([h] + t) && Elements(rest) <= Elements(t) && Once(rest)
    ensures Once([h] + rest)
  {
    forall k | 0 <= k < |rest| ensures rest[k] != h {
      assert rest[k] in Elements(rest);
      var i :| 0 <= i < |t| && t[i] == rest[k];
      assert ([h] + t)[i + 1] == t[i] && ([h] + t)[0] == h;
    }
  }

  lemma OnceRest(h: Run, t: seq<Run>)
    requires Once([h] + t)
    ensures Once(t)
  {
    forall i, j | 0 <= i < j < |t| ensures t[i] != t[j] { assert ([h] + t)[i + 1] != ([h] + t)[j + 1]; }
  }

  ghost function Away(roots: set<string>, s: set<Run>): set<Run> { set run | run in s && run.rootRunId !in roots }

  lemma {:induction false} OutsideAre(roots: set<string>, q: seq<Run>)
    requires Once(q)
    ensures Elements(Outside(roots, q)) == Away(roots, Elements(q)) && Once(Outside(roots, q))
    decreases |q|
  {
    if q != [] {
      var h, t, rest := q[0], q[1..], Outside(roots, q[1..]);
      assert q == [h] + t;
      OnceRest(h, t);
      hide Elements, Once;
      OutsideAre(roots, t);
      ElementsPush(h, t);
      assert Away(roots, Elements(q)) == Away(roots, Elements(t)) + if h.rootRunId !in roots then {h} else {};
      OncePush(h, t, rest);
      ElementsPush(h, rest);
      assert [] + rest == rest;
    }
  }

  lemma SupportersAre(less: (string, string) -> bool, metric: Metric, runs: seq<Run>)
    requires TotalOrder(less) && History(runs)
    ensures Elements(Supporters(less, metric, runs)) == Support(less, metric, runs)
    ensures |Supporters(less, metric, runs)| == |Support(less, metric, runs)|
  {
    var all := Successes(runs);
    var unique := FirstRuns(Sort(ById(less), all), {});
    CitedAre(less, metric, runs);
    SuccessesAre(runs);
    hide Sort, FirstRuns, Successes, Leaders, TotalOrder, History, OverflowSet, SuccessSet, EarlyLineages,
      CitedOverflows, Roots, Elements;
    UniqueAreLeaders(less, all);
    OrderedOnce(less, unique);
    OutsideAre(Roots(CitedOverflows(less, metric, runs)), unique);
    OnceSize(Supporters(less, metric, runs));
  }

  /** A limit is lowered exactly when the lineages call for it. */
  lemma LimitCallMeaning(less: (string, string) -> bool, base: Rules, runs: seq<Run>, metric: Metric, op: Operation)
    requires TotalOrder(less) && History(runs)
    ensures LimitCall(less, base, runs, metric, op) <==> Called(less, base, runs, metric, op)
  {
    var q, s := Supporters(less, metric, runs), Support(less, metric, runs);
    CitedAre(less, metric, runs);
    SupportersAre(less, metric, runs);
    SupportersObserved(less, metric, runs);
    hide Supporters, Support, CitedOverflows, Leaders, TotalOrder, History, OverflowSet, Observed, Limit, Floor, Lower;
    assert forall run :: run in q <==> run in s by { SameMembers(q, s); }
    assert forall n :: Largest(metric, q, n) <==> Needed(metric, s, n);
  }

  lemma SameMembers(q: seq<Run>, s: set<Run>)
    requires Elements(q) == s
    ensures forall run :: run in q <==> run in s
  {
  }

  /** So the order in which the history is listed does not matter. */
  lemma ListingIrrelevant(less: (string, string) -> bool, base: Rules, runs: seq<Run>, others: seq<Run>, metric: Metric,
                          op: Operation)
    requires TotalOrder(less) && History(runs) && History(others) && Elements(runs) == Elements(others)
    ensures LimitCall(less, base, runs, metric, op) <==> LimitCall(less, base, others, metric, op)
  {
    LimitCallMeaning(less, base, runs, metric, op);
    LimitCallMeaning(less, base, others, metric, op);
    assert forall run :: run in runs <==> run in Elements(runs);
    assert forall run :: run in others <==> run in Elements(others);
    assert OverflowSet(metric, runs) == OverflowSet(metric, others) && SuccessSet(runs) == SuccessSet(others);
  }
}
