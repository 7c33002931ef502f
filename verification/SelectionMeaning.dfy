/** A Selection decision in terms of what was measured, without normalised values, entries or sorting. */
module SelectionMeaning {
  import opened Selection
  import opened Sorting
  import Utf8Order

  /** Validated, not excluded, and measured on every criterion. */
  predicate MayWin(contract: Contract, c: Candidate) {
    c.validated && c.exclusions == [] && forall k | k in contract :: k in c.values
  }

  /** Measured alike on the first `n` criteria. */
  predicate AlikeBefore(contract: Contract, c: Candidate, d: Candidate, n: nat)
    requires n <= |contract| && MayWin(contract, c) && MayWin(contract, d)
  {
    forall i | 0 <= i < n :: c.values[contract[i]] == d.values[contract[i]]
  }

  /** Better on criterion `i`, the first that tells the two apart. */
  predicate AheadAt(contract: Contract, c: Candidate, d: Candidate, i: nat)
    requires i < |contract| && MayWin(contract, c) && MayWin(contract, d)
  {
    AlikeBefore(contract, c, d, i) && BetterOn(contract[i], c.values[contract[i]], d.values[contract[i]])
  }

  /** Better on the first criterion that tells them apart; where none does, first by identifier. */
  predicate Ahead(contract: Contract, c: Candidate, d: Candidate)
    requires MayWin(contract, c) && MayWin(contract, d)
  {
    || (exists i: nat | i < |contract| :: AheadAt(contract, c, d, i))
    || (AlikeBefore(contract, c, d, |contract|) && Utf8Order.Less(c.id, d.id))
  }

  lemma EligibleMeaning(contract: Contract, c: Candidate)
    ensures EntryOf(contract, c).eligible <==> MayWin(contract, c)
  {
    var x := Exclusions(contract, c);
    if c.exclusions != [] { assert c.exclusions[0] in x; }
    if k :| k in contract && k !in c.values { assert MissingReason(k) in Missing(contract, c.values); }
    if MayWin(contract, c) { assert x == {}; }
  }

  lemma OneWay(k: Kind, x: int, y: int)
    ensures !BetterOn(k, x, x) && !(BetterOn(k, x, y) && BetterOn(k, y, x))
    ensures x != y ==> BetterOn(k, x, y) || BetterOn(k, y, x)
  {
  }

  lemma {:induction false} LessFromMeaning(contract: Contract, c: Candidate, d: Candidate, n: nat)
    requires n <= |contract| && MayWin(contract, c) && MayWin(contract, d) && AlikeBefore(contract, c, d, n)
    ensures LessFrom(EntryOf(contract, c), EntryOf(contract, d), n) <==> Ahead(contract, c, d)
    decreases |contract| - n
  {
    FullComponents(contract, c.values);
    FullComponents(contract, d.values);
    var a, b := EntryOf(contract, c), EntryOf(contract, d);
    assert a.id == c.id && b.id == d.id && |a.components| == |b.components| == |contract|;
    if n < |contract| {
      var k := contract[n];
      var x, y := c.values[k], d.values[k];
      NormalizedOrder(k, x, y);
      assert NormalizedAt(a, n) == Normalize(k, x) && NormalizedAt(b, n) == Normalize(k, y);
      hide EntryOf, Normalize, BetterOn;
      if x == y {
        LessFromMeaning(contract, c, d, n + 1);
      } else {
        TellsApart(contract, c, d, n);
        assert LessFrom(a, b, n) <==> AheadAt(contract, c, d, n);
      }
    } else {
      hide EntryOf;
      NoneTells(contract, c, d);
    }
  }

  /** Only the first criterion that differs can decide. */
  lemma TellsApart(contract: Contract, c: Candidate, d: Candidate, n: nat)
    requires n < |contract| && MayWin(contract, c) && MayWin(contract, d) && AlikeBefore(contract, c, d, n)
    requires c.values[contract[n]] != d.values[contract[n]]
    ensures Ahead(contract, c, d) <==> AheadAt(contract, c, d, n)
  {
    forall i: nat | i < |contract| && AheadAt(contract, c, d, i) ensures i == n {
      OneWay(contract[i], c.values[contract[i]], d.values[contract[i]]);
    }
  }

  lemma NoneTells(contract: Contract, c: Candidate, d: Candidate)
    requires MayWin(contract, c) && MayWin(contract, d) && AlikeBefore(contract, c, d, |contract|)
    ensures Ahead(contract, c, d) <==> Utf8Order.Less(c.id, d.id)
  {
    forall i: nat | i < |contract| ensures !AheadAt(contract, c, d, i) {
      OneWay(contract[i], c.values[contract[i]], d.values[contract[i]]);
    }
  }

  /** The comparison of entries is the comparison of what was measured. */
  lemma LessMeaning(contract: Contract, c: Candidate, d: Candidate)
    requires MayWin(contract, c) && MayWin(contract, d)
    ensures Less(EntryOf(contract, c), EntryOf(contract, d)) <==> Ahead(contract, c, d)
  {
    LessFromMeaning(contract, c, d, 0);
  }

  // ---- The decision ----

  ghost function WinningEntries(contract: Contract, cs: seq<Candidate>): set<Entry> {
    set c | c in cs && MayWin(contract, c) :: EntryOf(contract, c)
  }

  /** The entries of those that may win, in order. */
  ghost predicate OrderOf(contract: Contract, cs: seq<Candidate>, order: seq<Entry>) {
    Elements(order) == WinningEntries(contract, cs) && InOrder(Order(), order)
  }

  lemma EligibleEntries(contract: Contract, cs: seq<Candidate>)
    requires DistinctIds(cs)
    ensures Elements(Eligible(Entries(contract, cs))) == WinningEntries(contract, cs)
  {
    var q := Entries(contract, cs);
    EntriesScorecard(contract, cs);
    EligibleElements(q);
    hide Entries, EntryOf, Eligible, MayWin, Elements;
    forall c | c in cs ensures EntryOf(contract, c).eligible <==> MayWin(contract, c) { EligibleMeaning(contract, c); }
  }

  lemma SelectedOrder(contract: Contract, cs: seq<Candidate>)
    requires Selectable(contract, cs)
    ensures var d, order := Select(contract, cs).value, Sort(Order(), Eligible(Entries(contract, cs)));
      && OrderOf(contract, cs, order) && d.ordered == Ids(order)
      && d.winner == if order == [] then None else Some(order[0].id)
  {
    EntriesScorecard(contract, cs);
    ScorecardOrders(Entries(contract, cs));
    EligibleEntries(contract, cs);
  }

  /** One that may win, under its identifier. */
  predicate Stands(contract: Contract, cs: seq<Candidate>, c: Candidate, id: string) {
    c in cs && MayWin(contract, c) && c.id == id
  }

  lemma OneAnId(cs: seq<Candidate>, c: Candidate, d: Candidate)
    requires DistinctIds(cs) && c in cs && d in cs && c.id == d.id
    ensures c == d
  {
  }

  lemma StandsAt(contract: Contract, cs: seq<Candidate>, order: seq<Entry>, i: nat) returns (c: Candidate)
    requires OrderOf(contract, cs, order) && i < |order|
    ensures Stands(contract, cs, c, order[i].id) && order[i] == EntryOf(contract, c)
  {
    assert order[i] in Elements(order);
    c :| c in cs && MayWin(contract, c) && EntryOf(contract, c) == order[i];
    EntryId(contract, c);
  }

  lemma PlaceOfEntry(contract: Contract, cs: seq<Candidate>, order: seq<Entry>, c: Candidate) returns (i: nat)
    requires OrderOf(contract, cs, order) && c in cs && MayWin(contract, c)
    ensures i < |order| && order[i] == EntryOf(contract, c) && order[i].id == c.id
  {
    assert EntryOf(contract, c) in WinningEntries(contract, cs);
    i := PlaceOf(order, EntryOf(contract, c));
    EntryId(contract, c);
  }

  /** A decision: those that may win, and no one else, are ordered, each ahead of all behind it, and the first has
    won. */
  lemma DecisionMeaning(contract: Contract, cs: seq<Candidate>)
    requires Selectable(contract, cs)
    ensures var d := Select(contract, cs).value;
      && (forall c | c in cs :: c.id in d.ordered <==> MayWin(contract, c))
      && (forall id | id in d.ordered :: exists c :: Stands(contract, cs, c, id))
      && (forall i, j, c, e | 0 <= i < j < |d.ordered| && Stands(contract, cs, c, d.ordered[i]) &&
            Stands(contract, cs, e, d.ordered[j]) :: Ahead(contract, c, e))
      && d.winner == if d.ordered == [] then None else Some(d.ordered[0])
  {
    var order, d := Sort(Order(), Eligible(Entries(contract, cs))), Select(contract, cs).value;
    SelectedOrder(contract, cs);
    assert DistinctIds(cs);
    assert |order| == |d.ordered| && forall i | 0 <= i < |order| :: order[i].id == d.ordered[i];
    hide *;
    forall c | c in cs ensures c.id in d.ordered <==> MayWin(contract, c) {
      if MayWin(contract, c) {
        var i := PlaceOfEntry(contract, cs, order, c);
      } else if c.id in d.ordered {
        var i :| 0 <= i < |order| && d.ordered[i] == c.id;
        var e := StandsAt(contract, cs, order, i);
        OneStands(contract, cs, c, e);
      }
    }
    forall id | id in d.ordered ensures exists c :: Stands(contract, cs, c, id) {
      var i :| 0 <= i < |order| && d.ordered[i] == id;
      var c := StandsAt(contract, cs, order, i);
    }
    forall i, j, c, e | 0 <= i < j < |d.ordered| && Stands(contract, cs, c, d.ordered[i]) &&
      Stands(contract, cs, e, d.ordered[j])
      ensures Ahead(contract, c, e)
    {
      AheadInOrder(contract, cs, order, i, j, c, e);
    }
  }

  lemma OneStands(contract: Contract, cs: seq<Candidate>, c: Candidate, e: Candidate)
    requires DistinctIds(cs) && c in cs && Stands(contract, cs, e, c.id)
    ensures c == e && MayWin(contract, c)
  {
    OneAnId(cs, c, e);
  }

  lemma AheadInOrder(contract: Contract, cs: seq<Candidate>, order: seq<Entry>, i: nat, j: nat, c: Candidate,
                     e: Candidate)
    requires DistinctIds(cs) && OrderOf(contract, cs, order) && i < j < |order|
    requires Stands(contract, cs, c, order[i].id) && Stands(contract, cs, e, order[j].id)
    ensures MayWin(contract, c) && MayWin(contract, e) && Ahead(contract, c, e)
  {
    var x := StandsAt(contract, cs, order, i);
    var y := StandsAt(contract, cs, order, j);
    OneAnId(cs, c, x);
    OneAnId(cs, e, y);
    assert Order()(order[i], order[j]);
    LessMeaning(contract, c, e);
  }

  /** Of two that may win, measured alike on the earlier criteria, the one with the higher quality assertion, or with
    less of any other measure, ranks first. */
  lemma BetterRanksFirst(contract: Contract, cs: seq<Candidate>, c: Candidate, e: Candidate, n: nat)
    requires Selectable(contract, cs) && c in cs && e in cs && MayWin(contract, c) && MayWin(contract, e)
    requires n < |contract| && AlikeBefore(contract, c, e, n)
    requires var k := contract[n];
      if k.QualityAssertion? then c.values[k] > e.values[k] else c.values[k] < e.values[k]
    ensures var ordered := Select(contract, cs).value.ordered;
      exists i, j | 0 <= i < j < |ordered| :: ordered[i] == c.id && ordered[j] == e.id
  {
    var order := Sort(Order(), Eligible(Entries(contract, cs)));
    SelectedOrder(contract, cs);
    var i := PlaceOfEntry(contract, cs, order, c);
    var j := PlaceOfEntry(contract, cs, order, e);
    assert Ids(order)[i] == c.id && Ids(order)[j] == e.id;
    assert AheadAt(contract, c, e, n);
    assert DistinctIds(cs);
    hide Sort, Eligible, Entries, EntryOf, OrderOf, Selectable, DistinctIds, MayWin;
    if j < i {
      AheadInOrder(contract, cs, order, j, i, e, c);
      OneAhead(contract, c, e, n);
    } else if i == j {
      OneAnId(cs, c, e);
    }
  }

  lemma OneAhead(contract: Contract, c: Candidate, e: Candidate, n: nat)
    requires n < |contract| && MayWin(contract, c) && MayWin(contract, e) && AheadAt(contract, c, e, n)
    ensures !Ahead(contract, e, c)
  {
    OneWay(contract[n], c.values[contract[n]], e.values[contract[n]]);
    TellsApart(contract, e, c, n);
  }

  /** Parts per million, ten thousand files, a hundred megabytes, an hour, ten million tokens. */
  predicate Measurable(k: Kind, v: int) {
    match k
    case QualityAssertion => 0 <= v <= 1_000_000
    case ChangedFiles => 0 <= v <= 10_000
    case AddedBytes => 0 <= v <= 100_000_000
    case LatencyMs => 0 <= v <= 3_600_000
    case TotalTokens => 0 <= v <= 10_000_000
  }

  /** Selection decides exactly between one and eight competitors of different identifiers, under one to five different
    criteria, when nobody has more than 64 exclusions or a measure outside its bounds. */
  lemma SelectsExactly(contract: Contract, cs: seq<Candidate>)
    ensures Select(contract, cs).Some? <==>
      && 1 <= |contract| <= 5 &&
        (forall i, j | 0 <= i < |contract| && 0 <= j < |contract| && contract[i] == contract[j] :: i == j)
      && 1 <= |cs| <= 8 && (forall i, j | 0 <= i < |cs| && 0 <= j < |cs| && cs[i].id == cs[j].id :: i == j)
      && (forall c | c in cs ::
        |c.exclusions| <= 64 && forall k | k in contract && k in c.values :: Measurable(k, c.values[k]))
  {
    assert forall k, v :: InBound(k, v) == Measurable(k, v);
  }

  // ---- The scorecard ----

  /** What the scorecard says of a competitor. */
  ghost predicate Scores(contract: Contract, c: Candidate, ordered: seq<string>, e: Entry) {
    && e.id == c.id && (e.eligible <==> MayWin(contract, c))
    && (e.rank.Some? <==> MayWin(contract, c))
    && (e.rank.Some? ==> 1 <= e.rank.value <= |ordered| && ordered[e.rank.value - 1] == c.id)
    && (forall x :: x in e.exclusions <==> Excludes(contract, c, x))
    && (e.eligible ==> |e.components| == |contract| && forall i | 0 <= i < |contract| ::
          && e.components[i].kind == contract[i] && e.components[i].raw == c.values[contract[i]]
          && e.components[i].normalized + (if contract[i].QualityAssertion? then 0 else c.values[contract[i]]) ==
             if contract[i].QualityAssertion? then c.values[contract[i]] else Maximum(contract[i]))
  }

  ghost predicate Excludes(contract: Contract, c: Candidate, x: string) {
    || x in c.exclusions || (!c.validated && x == "required-validation-failed")
    || exists k | k in contract && k !in c.values :: x == Missed(k)
  }

  function Missed(k: Kind): string {
    if k.ChangedFiles? then "missing-criterion:changed-files"
    else if k.AddedBytes? then "missing-criterion:added-bytes"
    else if k.LatencyMs? then "missing-criterion:latency-ms"
    else if k.TotalTokens? then "missing-criterion:total-tokens"
    else "missing-criterion:quality-assertion"
  }

  lemma MissingNamed(k: Kind)
    ensures MissingReason(k) == Missed(k)
  {
  }

  lemma {:induction false} NoRank(order: seq<Entry>, id: string)
    requires forall i | 0 <= i < |order| :: order[i].id != id
    ensures RankIn(order, id) == None
    decreases |order|
  {
    if order != [] { NoRank(order[..|order| - 1], id); }
  }

  lemma EntryScores(contract: Contract, cs: seq<Candidate>, order: seq<Entry>, c: Candidate)
    requires DistinctIds(cs) && OrderOf(contract, cs, order) && c in cs
    ensures Scores(contract, c, Ids(order), EntryOf(contract, c).(rank := RankIn(order, c.id)))
  {
    forall k ensures MissingReason(k) == Missed(k) { MissingNamed(k); }
    EligibleMeaning(contract, c);
    if MayWin(contract, c) {
      var i := PlaceOfEntry(contract, cs, order, c);
      DistinctOrder(contract, cs, order);
      RankAt(order, i);
      FullComponents(contract, c.values);
    } else {
      forall i | 0 <= i < |order| ensures order[i].id != c.id {
        var x := StandsAt(contract, cs, order, i);
        if x.id == c.id { OneAnId(cs, c, x); }
      }
      NoRank(order, c.id);
    }
  }

  lemma DistinctOrder(contract: Contract, cs: seq<Candidate>, order: seq<Entry>)
    requires DistinctIds(cs) && OrderOf(contract, cs, order)
    ensures forall j, k | 0 <= j < k < |order| :: order[j].id != order[k].id
  {
    forall j, k | 0 <= j < k < |order| ensures order[j].id != order[k].id {
      var x := StandsAt(contract, cs, order, j);
      var y := StandsAt(contract, cs, order, k);
      assert Order()(order[j], order[k]);
      LessMeaning(contract, x, y);
      if x.id == y.id {
        OneAnId(cs, x, y);
        LessTotalFrom(order[j], order[k], 0);
      }
    }
  }

  /** The scorecard has one entry a competitor, by identifier, with its place in the order. */
  lemma ScorecardMeaning(contract: Contract, cs: seq<Candidate>)
    requires Selectable(contract, cs)
    ensures var d := Select(contract, cs).value;
      && (forall i, j | 0 <= i < j < |d.scorecard| :: Utf8Order.Less(d.scorecard[i].id, d.scorecard[j].id))
      && (forall e | e in d.scorecard :: exists c | c in cs :: Scores(contract, c, d.ordered, e))
      && (forall c | c in cs :: exists e | e in d.scorecard :: Scores(contract, c, d.ordered, e))
  {
    var q, d := Entries(contract, cs), Select(contract, cs).value;
    var order, listed := Sort(Order(), Eligible(q)), Sort(ById(), q);
    SelectedOrder(contract, cs);
    EntriesScorecard(contract, cs);
    ScorecardOrders(q);
    assert DistinctIds(cs) && d.scorecard == Ranked(order, listed) && d.ordered == Ids(order);
    hide Sort, Eligible, Entries, EntryOf, OrderOf, Selectable, DistinctIds, MayWin, RankIn, Select, Scores, Scorecard,
      Ids;
    forall i, j | 0 <= i < j < |d.scorecard| ensures Utf8Order.Less(d.scorecard[i].id, d.scorecard[j].id) {
      assert ById()(listed[i], listed[j]);
    }
    forall c | c in cs ensures exists e | e in d.scorecard :: Scores(contract, c, d.ordered, e) {
      EntryScores(contract, cs, order, c);
      EntryId(contract, c);
      assert EntryOf(contract, c) in Elements(q);
      var i := PlaceOf(listed, EntryOf(contract, c));
      assert d.scorecard[i] in d.scorecard;
    }
    forall e | e in d.scorecard ensures exists c | c in cs :: Scores(contract, c, d.ordered, e) {
      var i :| 0 <= i < |d.scorecard| && d.scorecard[i] == e;
      assert listed[i] in Elements(q);
      var c :| c in cs && EntryOf(contract, c) == listed[i];
      EntryScores(contract, cs, order, c);
      EntryId(contract, c);
    }
  }
}
