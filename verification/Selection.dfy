/** Deterministic Selection, from candidate-selection.ts.

  A decision is shown to depend on the set of candidates only: the comparison is a strict
  total order on eligible entries, and a sequence sorted by such an order is determined by
  its elements.
*/
module Selection {
  import Utf8Order
  import opened Sorting

  datatype Option<T> = None | Some(value: T)

  datatype Kind = QualityAssertion | ChangedFiles | AddedBytes | LatencyMs | TotalTokens

  predicate Maximizes(k: Kind) { k == QualityAssertion }

  function Maximum(k: Kind): nat {
    match k
    case QualityAssertion => 1_000_000
    case ChangedFiles => 10_000
    case AddedBytes => 100_000_000
    case LatencyMs => 3_600_000
    case TotalTokens => 10_000_000
  }

  /** A contract lists kinds; each carries its fixed definition. */
  type Contract = seq<Kind>

  predicate ValidContract(c: Contract) { 1 <= |c| <= 5 && forall i, j | 0 <= i < j < |c| :: c[i] != c[j] }

  datatype Candidate = Candidate(id: string, validated: bool, exclusions: seq<string>, values: map<Kind, int>)

  datatype Component = Component(kind: Kind, raw: int, normalized: int)

  datatype Entry = Entry(id: string, eligible: bool, exclusions: set<string>, components: seq<Component>,
    rank: Option<nat>)

  /** The scorecard is listed by identifier; the digest is taken over exactly these fields. */
  datatype Decision = Decision(ordered: seq<string>, winner: Option<string>, scorecard: seq<Entry>)

  // ---- One entry ----

  predicate InBound(k: Kind, v: int) { 0 <= v <= Maximum(k) }

  function Normalize(k: Kind, v: int): int { if Maximizes(k) then v else Maximum(k) - v }

  /** The components of the criteria the candidate has a value for, in contract order. */
  function Components(contract: Contract, values: map<Kind, int>): seq<Component> {
    if contract == [] then []
    else
      var k := contract[|contract| - 1];
      Components(contract[..|contract| - 1], values) +
        if k in values then [Component(k, values[k], Normalize(k, values[k]))] else []
  }

  function Missing(contract: Contract, values: map<Kind, int>): set<string> {
    set k | k in contract && k !in values :: MissingReason(k)
  }

  function MissingReason(k: Kind): string {
    match k
    case QualityAssertion => "missing-criterion:quality-assertion"
    case ChangedFiles => "missing-criterion:changed-files"
    case AddedBytes => "missing-criterion:added-bytes"
    case LatencyMs => "missing-criterion:latency-ms"
    case TotalTokens => "missing-criterion:total-tokens"
  }

  function Exclusions(contract: Contract, c: Candidate): set<string> {
    (set e | e in c.exclusions) + (if c.validated then {} else {"required-validation-failed"}) +
    Missing(contract, c.values)
  }

  function EntryOf(contract: Contract, c: Candidate): Entry {
    var x := Exclusions(contract, c);
    Entry(c.id, x == {}, x, Components(contract, c.values), None)
  }

  /** What a candidate must satisfy for selection not to throw. */
  predicate Acceptable(contract: Contract, c: Candidate) {
    && |c.exclusions| <= 64
    && forall k | k in contract && k in c.values :: InBound(k, c.values[k])
  }

  lemma {:induction false} FullComponents(contract: Contract, values: map<Kind, int>)
    requires forall k | k in contract :: k in values
    ensures |Components(contract, values)| == |contract|
    ensures forall i | 0 <= i < |contract| ::
      Components(contract, values)[i] ==
      Component(contract[i], values[contract[i]], Normalize(contract[i], values[contract[i]]))
  {
    if contract != [] {
      FullComponents(contract[..|contract| - 1], values);
    }
  }

  /** An eligible entry has a component for every criterion. */
  lemma EligibleIsFull(contract: Contract, c: Candidate)
    requires EntryOf(contract, c).eligible
    ensures forall k | k in contract :: k in c.values
    ensures |EntryOf(contract, c).components| == |contract|
  {
    forall k | k in contract ensures k in c.values {
      assert k in c.values || MissingReason(k) in Missing(contract, c.values);
    }
    FullComponents(contract, c.values);
  }

  // ---- The comparison ----

  /** The normalised value, or -1 where the entry has none. */
  function NormalizedAt(e: Entry, i: nat): int { if i < |e.components| then e.components[i].normalized else -1 }

  /** compareEntries(a, b) < 0, from component `i` on. */
  predicate LessFrom(a: Entry, b: Entry, i: nat)
    decreases |a.components| - i
  {
    if i >= |a.components| then Utf8Order.Less(a.id, b.id)
    else if NormalizedAt(a, i) != NormalizedAt(b, i) then NormalizedAt(a, i) > NormalizedAt(b, i)
    else LessFrom(a, b, i + 1)
  }

  predicate Less(a: Entry, b: Entry) { LessFrom(a, b, 0) }

  /** The loop of compareEntries; a negative result puts `a` first. */
  method CompareEntries(a: Entry, b: Entry) returns (before: bool)
    ensures before == Less(a, b)
  {
    var i := 0;
    while i < |a.components|
      invariant i <= |a.components| && Less(a, b) == LessFrom(a, b, i)
    {
      var difference := NormalizedAt(b, i) - NormalizedAt(a, i);
      if difference != 0 {
        return difference < 0;
      }
      i := i + 1;
    }
    return Utf8Order.Less(a.id, b.id);
  }

  lemma {:induction false} LessTotalFrom(a: Entry, b: Entry, i: nat)
    requires |a.components| == |b.components|
    ensures a.id != b.id ==> LessFrom(a, b, i) || LessFrom(b, a, i)
    ensures !(LessFrom(a, b, i) && LessFrom(b, a, i))
    decreases |a.components| - i
  {
    if i >= |a.components| {
      Utf8Order.TotalOrder(a.id, b.id, a.id);
    } else if NormalizedAt(a, i) == NormalizedAt(b, i) {
      LessTotalFrom(a, b, i + 1);
    }
  }

  lemma {:induction false} LessTransitiveFrom(a: Entry, b: Entry, c: Entry, i: nat)
    requires |a.components| == |b.components| == |c.components|
    requires LessFrom(a, b, i) && LessFrom(b, c, i)
    ensures LessFrom(a, c, i)
    decreases |a.components| - i
  {
    if i >= |a.components| {
      Utf8Order.TotalOrder(a.id, b.id, c.id);
    } else if NormalizedAt(a, i) == NormalizedAt(b, i) == NormalizedAt(c, i) {
      LessTransitiveFrom(a, b, c, i + 1);
    }
  }

  /** Entries that may be compared: the same number of components, and one entry an identifier. */
  ghost predicate Comparable(s: set<Entry>) {
    && (forall a, b | a in s && b in s :: |a.components| == |b.components|)
    && (forall a, b | a in s && b in s && a.id == b.id :: a == b)
  }

  function Order(): (Entry, Entry) -> bool { (a, b) => Less(a, b) }

  function ById(): (Entry, Entry) -> bool { (a: Entry, b: Entry) => Utf8Order.Less(a.id, b.id) }

  /** compareEntries is a strict total order on comparable entries. */
  lemma CompareIsTotalOrder(s: set<Entry>)
    requires Comparable(s)
    ensures TotalOn(Order(), s)
  {
    forall a, b | a in s && b in s ensures !Less(a, a) && (a == b || Less(a, b) || Less(b, a)) {
      LessTotalFrom(a, a, 0);
      LessTotalFrom(a, b, 0);
    }
    forall a, b, c | a in s && b in s && c in s && Less(a, b) && Less(b, c) ensures Less(a, c) {
      LessTransitiveFrom(a, b, c, 0);
    }
  }

  lemma IdIsTotalOrder(s: set<Entry>)
    requires OneEach(s)
    ensures TotalOn(ById(), s)
  {
    forall a, b, c | a in s && b in s && c in s
      ensures !ById()(a, a) && (a == b || ById()(a, b) || ById()(b, a)) &&
        (ById()(a, b) && ById()(b, c) ==> ById()(a, c))
    {
      Utf8Order.TotalOrder(a.id, b.id, c.id);
    }
  }

  ghost predicate OneEach(s: set<Entry>) { forall a, b | a in s && b in s && a.id == b.id :: a == b }

  // ---- Selection ----

  predicate DistinctIds(cs: seq<Candidate>) { forall i, j | 0 <= i < j < |cs| :: cs[i].id != cs[j].id }

  /** What selectCandidates accepts; anything else throws. */
  predicate Selectable(contract: Contract, cs: seq<Candidate>) {
    && ValidContract(contract) && 1 <= |cs| <= 8 && DistinctIds(cs)
    && forall c | c in cs :: Acceptable(contract, c)
  }

  function Entries(contract: Contract, cs: seq<Candidate>): seq<Entry> {
    if cs == [] then [] else Entries(contract, cs[..|cs| - 1]) + [EntryOf(contract, cs[|cs| - 1])]
  }

  function Eligible(q: seq<Entry>): seq<Entry> {
    if q == [] then [] else Eligible(q[..|q| - 1]) + if q[|q| - 1].eligible then [q[|q| - 1]] else []
  }

  function Ids(q: seq<Entry>): seq<string> { seq(|q|, i requires 0 <= i < |q| => q[i].id) }

  /** One more than the place in the order, if the entry is in it. */
  function RankIn(order: seq<Entry>, id: string): Option<nat> {
    if order == [] then None
    else if order[|order| - 1].id == id then Some(|order|)
    else RankIn(order[..|order| - 1], id)
  }

  function Ranked(order: seq<Entry>, q: seq<Entry>): seq<Entry> {
    seq(|q|, i requires 0 <= i < |q| => q[i].(rank := RankIn(order, q[i].id)))
  }

  function Decide(scorecard: seq<Entry>): Decision {
    var order := Sort(Order(), Eligible(scorecard));
    Decision(Ids(order), if order == [] then None else Some(order[0].id), Ranked(order, Sort(ById(), scorecard)))
  }

  function Select(contract: Contract, cs: seq<Candidate>): Option<Decision> {
    if Selectable(contract, cs) then Some(Decide(Entries(contract, cs))) else None
  }

  method SelectCandidates(contract: Contract, cs: seq<Candidate>) returns (r: Option<Decision>)
    ensures r == Select(contract, cs)
  {
    hide Acceptable, EntryOf, Decide, DistinctIds;
    if !ValidContract(contract) || !(1 <= |cs| <= 8) {
      return None;
    }
    var ids: set<string>, scorecard: seq<Entry> := {}, [];
    NoneDistinct(cs);
    for i := 0 to |cs|
      invariant ids == set j | 0 <= j < i :: cs[j].id
      invariant DistinctIds(cs[..i]) && forall j | 0 <= j < i :: Acceptable(contract, cs[j])
      invariant scorecard == Entries(contract, cs[..i])
    {
      var candidate := cs[i];
      DistinctPush(cs, i);
      if candidate.id in ids || !Acceptable(contract, candidate) {
        return None;
      }
      ids := ids + {candidate.id};
      assert cs[..i + 1][..i] == cs[..i];
      scorecard := scorecard + [EntryOf(contract, candidate)];
    }
    assert cs[..|cs|] == cs;
    Unranked(contract, cs);
    var decision := RankEntries(scorecard);
    return Some(decision);
  }

  /** The eligible entries are sorted by comparison, each is given its place as its rank, and the scorecard is then
    listed by identifier. Sorting itself is the library's. */
  method RankEntries(scorecard: seq<Entry>) returns (d: Decision)
    requires forall i | 0 <= i < |scorecard| :: scorecard[i].rank == None
    ensures d == Decide(scorecard)
  {
    hide Sort;
    var eligible: seq<Entry> := [];
    for i := 0 to |scorecard|
      invariant eligible == Eligible(scorecard[..i])
    {
      assert scorecard[..i + 1][..i] == scorecard[..i];
      if scorecard[i].eligible { eligible := eligible + [scorecard[i]]; }
    }
    assert scorecard[..|scorecard|] == scorecard;
    var ordered, ranked := Sort(Order(), eligible), scorecard;
    var ids: seq<string> := [];
    assert ranked == Ranked([], scorecard);
    for index := 0 to |ordered|
      invariant ids == Ids(ordered[..index])
      invariant ranked == Ranked(ordered[..index], scorecard)
    {
      var entry := ordered[index];
      assert ordered[..index + 1][..index] == ordered[..index];
      ranked := seq(|ranked|, j requires 0 <= j < |ranked| =>
        if ranked[j].id == entry.id then ranked[j].(rank := Some(index + 1)) else ranked[j]);
      ids := ids + [entry.id];
    }
    assert ordered[..|ordered|] == ordered;
    RanksSort(ordered, scorecard);
    return Decision(ids, if ids == [] then None else Some(ids[0]), Sort(ById(), ranked));
  }

  lemma Unranked(contract: Contract, cs: seq<Candidate>)
    ensures forall i | 0 <= i < |Entries(contract, cs)| :: Entries(contract, cs)[i].rank == None
  {
    EntriesAt(contract, cs);
  }

  function WithRank(order: seq<Entry>, e: Entry): Entry { e.(rank := RankIn(order, e.id)) }

  lemma RankedPush(order: seq<Entry>, e: Entry, q: seq<Entry>)
    ensures Ranked(order, [e] + q) == [WithRank(order, e)] + Ranked(order, q)
  {
  }

  lemma {:induction false} InsertRanks(order: seq<Entry>, e: Entry, q: seq<Entry>)
    ensures Insert(ById(), WithRank(order, e), Ranked(order, q)) == Ranked(order, Insert(ById(), e, q))
    decreases |q|
  {
    hide RankIn, Ranked;
    RankedNone(order);
    RankedPush(order, e, q);
    if q != [] {
      assert q == [q[0]] + q[1..];
      RankedPush(order, q[0], q[1..]);
      if !ById()(e, q[0]) {
        InsertRanks(order, e, q[1..]);
        RankedPush(order, q[0], Insert(ById(), e, q[1..]));
      }
    }
  }

  lemma RankedNone(order: seq<Entry>)
    ensures Ranked(order, []) == []
  {
  }

  /** Ranking and listing by identifier commute. */
  lemma {:induction false} RanksSort(order: seq<Entry>, q: seq<Entry>)
    ensures Sort(ById(), Ranked(order, q)) == Ranked(order, Sort(ById(), q))
    decreases |q|
  {
    hide RankIn;
    if q != [] {
      RanksSort(order, q[1..]);
      assert Ranked(order, q)[1..] == Ranked(order, q[1..]) && Ranked(order, q)[0] == WithRank(order, q[0]);
      InsertRanks(order, q[0], Sort(ById(), q[1..]));
    }
  }

  lemma NoneDistinct(cs: seq<Candidate>)
    ensures DistinctIds(cs[..0])
  {
  }

  lemma DistinctPush(cs: seq<Candidate>, i: nat)
    requires i < |cs|
    ensures DistinctIds(cs[..i + 1]) <==> DistinctIds(cs[..i]) && cs[i].id !in (set j | 0 <= j < i :: cs[j].id)
    ensures DistinctIds(cs) ==> DistinctIds(cs[..i + 1])
  {
    var front, more := cs[..i], cs[..i + 1];
    assert forall j | 0 <= j < i :: front[j] == more[j] == cs[j];
    assert more[i] == cs[i];
  }

  lemma {:induction false} EntriesAt(contract: Contract, cs: seq<Candidate>)
    ensures |Entries(contract, cs)| == |cs|
    ensures forall i | 0 <= i < |cs| :: Entries(contract, cs)[i] == EntryOf(contract, cs[i])
  {
    hide EntryOf;
    if cs != [] {
      var front := cs[..|cs| - 1];
      EntriesAt(contract, front);
      assert Entries(contract, cs) == Entries(contract, front) + [EntryOf(contract, cs[|cs| - 1])];
      assert forall i | 0 <= i < |front| ::
        Entries(contract, cs)[i] == Entries(contract, front)[i] && front[i] == cs[i];
    }
  }

  lemma {:induction false} EligibleElements(q: seq<Entry>)
    requires Once(q)
    ensures Elements(Eligible(q)) == (set e | e in Elements(q) && e.eligible) && Once(Eligible(q))
  {
    if q != [] {
      var front, last := q[..|q| - 1], q[|q| - 1];
      assert q == front + [last];
      ElementsSnoc(front, last);
      assert last !in Elements(front);
      EligibleElements(front);
      ElementsSnoc(Eligible(front), last);
      OnceSnoc(Eligible(front), last);
      assert Eligible(q) == if last.eligible then Eligible(front) + [last]
        else Eligible(front) by { assert Eligible(front) + [] == Eligible(front); }
      hide Elements, Once, Eligible;
    }
  }

  lemma OnceSnoc(q: seq<Entry>, e: Entry)
    ensures Once(q) && e !in Elements(q) ==> Once(q + [e])
  {
    assert forall i | 0 <= i < |q| :: q[i] in Elements(q);
  }

  /** A scorecard as selection builds it: one entry an identifier, full vectors where eligible. */
  ghost predicate Scorecard(q: seq<Entry>) {
    && Once(q) && OneEach(Elements(q))
    && forall a, b | a in Elements(q) && b in Elements(q) && a.eligible && b.eligible ::
      |a.components| == |b.components|
  }

  lemma EntriesScorecard(contract: Contract, cs: seq<Candidate>)
    requires DistinctIds(cs)
    ensures Scorecard(Entries(contract, cs))
    ensures Elements(Entries(contract, cs)) == set c | c in cs :: EntryOf(contract, c)
  {
    var q := Entries(contract, cs);
    EntriesAt(contract, cs);
    hide EntryOf;
    forall i, j | 0 <= i < |q| && 0 <= j < |q| && q[i].id == q[j].id ensures i == j {
      EntryId(contract, cs[i]);
      EntryId(contract, cs[j]);
    }
    forall e | e in Elements(q) && e.eligible ensures |e.components| == |contract| {
      var i :| 0 <= i < |q| && q[i] == e;
      EligibleIsFull(contract, cs[i]);
    }
  }

  lemma EntryId(contract: Contract, c: Candidate)
    ensures EntryOf(contract, c).id == c.id
  {
  }

  lemma ScorecardOrders(q: seq<Entry>)
    requires Scorecard(q)
    ensures var order := Sort(Order(), Eligible(q));
      && TotalOn(Order(), Elements(Eligible(q))) && InOrder(Order(), order) && Elements(order) == Elements(Eligible(q))
    ensures TotalOn(ById(), Elements(q)) && InOrder(ById(), Sort(ById(), q)) && Elements(Sort(ById(), q)) == Elements(q)
  {
    EligibleElements(q);
    assert Comparable(Elements(Eligible(q)));
    CompareIsTotalOrder(Elements(Eligible(q)));
    SortSorts(Order(), Elements(Eligible(q)), Eligible(q));
    IdIsTotalOrder(Elements(q));
    SortSorts(ById(), Elements(q), q);
  }

  /** The decision is a function of the set of entries. */
  lemma DecideBySet(p: seq<Entry>, q: seq<Entry>)
    requires Scorecard(p) && Scorecard(q) && Elements(p) == Elements(q)
    ensures Decide(p) == Decide(q)
  {
    ScorecardOrders(p);
    ScorecardOrders(q);
    EligibleElements(p);
    EligibleElements(q);
    OrderUnique(Order(), Elements(Eligible(p)), Sort(Order(), Eligible(p)), Sort(Order(), Eligible(q)));
    OrderUnique(ById(), Elements(p), Sort(ById(), p), Sort(ById(), q));
  }

  function IdSet(cs: seq<Candidate>): set<string> { set c | c in cs :: c.id }

  lemma {:induction false} DistinctCounted(cs: seq<Candidate>)
    ensures |IdSet(cs)| <= |cs| && (DistinctIds(cs) <==> |IdSet(cs)| == |cs|)
  {
    if cs != [] {
      var front, last := cs[..|cs| - 1], cs[|cs| - 1];
      DistinctCounted(front);
      assert cs == front + [last];
      DistinctSnoc(front, last);
      IdSetSnoc(front, last);
      hide DistinctIds, IdSet;
    }
  }

  lemma IdSetSnoc(cs: seq<Candidate>, c: Candidate)
    ensures IdSet(cs + [c]) == IdSet(cs) + {c.id}
    ensures |IdSet(cs + [c])| == |IdSet(cs)| + if c.id in IdSet(cs) then 0 else 1
  {
    assert forall x | x in cs :: x in cs + [c];
    assert (cs + [c])[|cs|] == c;
    assert IdSet(cs + [c]) == IdSet(cs) + {c.id};
    if c.id in IdSet(cs) { assert IdSet(cs) + {c.id} == IdSet(cs); }
  }

  lemma DistinctSnoc(cs: seq<Candidate>, c: Candidate)
    ensures DistinctIds(cs + [c]) <==> DistinctIds(cs) && c.id !in IdSet(cs)
  {
    var all := cs + [c];
    if DistinctIds(all) {
      forall i | 0 <= i < |cs| ensures cs[i].id != c.id { assert all[i].id != all[|cs|].id; }
      forall i, j | 0 <= i < j < |cs| ensures cs[i].id != cs[j].id { assert all[i].id != all[j].id; }
    }
    assert forall i | 0 <= i < |cs| :: cs[i].id in IdSet(cs);
  }

  lemma SameMembers(cs: seq<Candidate>, ds: seq<Candidate>)
    requires multiset(cs) == multiset(ds)
    ensures |cs| == |ds| && forall c :: c in cs <==> c in ds
  {
    assert forall c :: c in cs <==> c in multiset(cs);
    assert forall c :: c in ds <==> c in multiset(ds);
    assert |cs| == |multiset(cs)| == |multiset(ds)| == |ds|;
  }

  /** Permuting the competitors gives the identical decision, and so the identical digest. */
  lemma OrderIndependent(contract: Contract, cs: seq<Candidate>, ds: seq<Candidate>)
    requires multiset(cs) == multiset(ds)
    ensures Select(contract, cs) == Select(contract, ds)
  {
    SameMembers(cs, ds);
    DistinctCounted(cs);
    DistinctCounted(ds);
    assert IdSet(cs) == IdSet(ds);
    hide Acceptable, EntryOf, DistinctIds, Scorecard, Decide;
    assert Selectable(contract, cs) == Selectable(contract, ds);
    if Selectable(contract, cs) {
      EntriesScorecard(contract, cs);
      EntriesScorecard(contract, ds);
      assert (set c | c in cs :: EntryOf(contract, c)) == set c | c in ds :: EntryOf(contract, c);
      DecideBySet(Entries(contract, cs), Entries(contract, ds));
    }
  }

  // ---- Winner and rank ----

  /** The winner is the least eligible entry, and there is none exactly when nothing is eligible. */
  lemma WinnerIsLeast(contract: Contract, cs: seq<Candidate>)
    requires Selectable(contract, cs)
    ensures var d, s := Select(contract, cs).value, set e | e in Elements(Entries(contract, cs)) && e.eligible;
      && (d.winner.None? <==> s == {})
      && (d.winner.Some? ==> exists w :: w in s && w.id == d.winner.value && forall x | x in s :: x == w || Less(w, x))
  {
    var q := Entries(contract, cs);
    EntriesScorecard(contract, cs);
    ScorecardOrders(q);
    EligibleElements(q);
    var order := Sort(Order(), Eligible(q));
    NoElements(order);
    if order != [] {
      var w := order[0];
      assert w in Elements(order);
      forall x | x in Elements(order) ensures x == w || Less(w, x) { HeadBelow(Order(), order, x); }
    }
  }

  lemma {:induction false} RankAt(order: seq<Entry>, i: nat)
    requires i < |order| && forall j, k | 0 <= j < k < |order| :: order[j].id != order[k].id
    ensures RankIn(order, order[i].id) == Some(i + 1)
  {
    if i < |order| - 1 {
      assert order[..|order| - 1][i] == order[i];
      RankAt(order[..|order| - 1], i);
    }
  }

  /** An eligible entry's rank counts the eligible entries below it. */
  lemma RankCounts(q: seq<Entry>, e: Entry)
    requires Scorecard(q) && e in Elements(q) && e.eligible
    ensures RankIn(Sort(Order(), Eligible(q)), e.id) == Some(|Below(Order(), Elements(Eligible(q)), e)| + 1)
  {
    ScorecardOrders(q);
    EligibleElements(q);
    var s, order := Elements(Eligible(q)), Sort(Order(), Eligible(q));
    assert e in s && s <= Elements(q);
    hide Eligible, Sort, Below, Less, TotalOn, Elements, InOrder, Once;
    var i := PlaceOf(order, e);
    PlaceCounts(Order(), s, order, i);
    OrderedIds(q, order);
    RankAt(order, i);
  }

  lemma OrderedIds(q: seq<Entry>, order: seq<Entry>)
    requires OneEach(Elements(q)) && Elements(order) <= Elements(q) && InOrder(Order(), order)
    ensures forall j, k | 0 <= j < k < |order| :: order[j].id != order[k].id
  {
    forall j, k | 0 <= j < k < |order| ensures order[j].id != order[k].id {
      assert order[j] in Elements(q) && order[k] in Elements(q);
      LessTotalFrom(order[j], order[j], 0);
      assert Order()(order[j], order[k]);
    }
  }

  /** `e` is `f` with some components at least as good and none worse. */
  ghost predicate Improves(e: Entry, f: Entry) {
    && e.id == f.id && e.eligible && f.eligible && |e.components| == |f.components|
    && forall i | 0 <= i < |e.components| :: e.components[i].normalized >= f.components[i].normalized
  }

  lemma {:induction false} ImprovedFrom(x: Entry, e: Entry, f: Entry, i: nat)
    requires Improves(e, f) && |x.components| == |e.components| && LessFrom(x, e, i)
    ensures LessFrom(x, f, i)
    decreases |x.components| - i
  {
    if i < |x.components| && NormalizedAt(x, i) == NormalizedAt(e, i) == NormalizedAt(f, i) {
      ImprovedFrom(x, e, f, i + 1);
    }
  }

  /** Improving one competitor's criteria, everyone else as before, never worsens its rank. */
  lemma ImprovingNeverWorsens(q: seq<Entry>, k: nat, e: Entry)
    requires Scorecard(q) && k < |q| && Improves(e, q[k])
    ensures Scorecard(q[k := e])
    ensures RankIn(Sort(Order(), Eligible(q[k := e])), e.id).Some? && RankIn(Sort(Order(), Eligible(q)), e.id).Some?
    ensures RankIn(Sort(Order(), Eligible(q[k := e])), e.id).value <= RankIn(Sort(Order(), Eligible(q)), e.id).value
  {
    var f, p := q[k], q[k := e];
    var others := Elements(q) - {f};
    ImprovedElements(q, k, e);
    assert Scorecard(p) by {
      assert f in Elements(q);
    }
    assert f in Elements(q) && e in Elements(p);
    RankCounts(q, f);
    RankCounts(p, e);
    EligibleElements(q);
    EligibleElements(p);
    var before, after := Below(Order(), Elements(Eligible(q)), f), Below(Order(), Elements(Eligible(p)), e);
    forall x | x in after ensures x in before {
      if x == e {
        LessTotalFrom(e, e, 0);
      } else {
        ImprovedFrom(x, e, f, 0);
      }
    }
    SubsetSize(after, before);
  }

  lemma ImprovedElements(q: seq<Entry>, k: nat, e: Entry)
    requires Once(q) && OneEach(Elements(q)) && k < |q| && e.id == q[k].id
    ensures Elements(q[k := e]) == Elements(q) - {q[k]} + {e}
    ensures Once(q[k := e]) && OneEach(Elements(q[k := e]))
  {
    var p := q[k := e];
    assert p[k] == e;
    forall i | 0 <= i < |q| && i != k ensures q[i].id != e.id && p[i] == q[i] {
      assert q[i] in Elements(q) && q[k] in Elements(q);
    }
    forall x | x in Elements(q) - {q[k]} + {e} ensures x in Elements(p) {
      if x != e {
        var i :| 0 <= i < |q| && q[i] == x;
        assert p[i] == x;
      }
    }
  }

  /** A higher quality assertion is better; fewer files, bytes, milliseconds and tokens are. */
  predicate BetterOn(k: Kind, x: int, y: int) {
    match k
    case QualityAssertion => x > y
    case ChangedFiles => x < y
    case AddedBytes => x < y
    case LatencyMs => x < y
    case TotalTokens => x < y
  }

  lemma NormalizedOrder(k: Kind, x: int, y: int)
    ensures Normalize(k, x) > Normalize(k, y) <==> BetterOn(k, x, y)
    ensures Normalize(k, x) == Normalize(k, y) <==> x == y
  {
  }

  /** The same competitor with criterion values that are nowhere worse: a quality assertion as high, and no more of
    anything else. */
  ghost predicate BetterValues(contract: Contract, c: Candidate, d: Candidate) {
    && c.id == d.id
    && (forall k | k in contract && k in c.values && k in d.values ::
          if k.QualityAssertion? then c.values[k] >= d.values[k] else c.values[k] <= d.values[k])
  }

  lemma BetterImproves(contract: Contract, c: Candidate, d: Candidate)
    requires BetterValues(contract, c, d) && EntryOf(contract, c).eligible && EntryOf(contract, d).eligible
    ensures Improves(EntryOf(contract, c), EntryOf(contract, d))
  {
    EligibleIsFull(contract, c);
    EligibleIsFull(contract, d);
    FullComponents(contract, c.values);
    FullComponents(contract, d.values);
    forall k | k in contract ensures Normalize(k, c.values[k]) >= Normalize(k, d.values[k]) {
      NormalizedOrder(k, d.values[k], c.values[k]);
    }
  }

  /** Measured better on any criteria, fewer tokens or files or a higher score, a competitor
    keeps its rank or gains. */
  lemma BetterRanksNoWorse(contract: Contract, cs: seq<Candidate>, k: nat, c: Candidate)
    requires Selectable(contract, cs) && k < |cs| && BetterValues(contract, c, cs[k])
    requires EntryOf(contract, c).eligible && EntryOf(contract, cs[k]).eligible
    ensures var was, now :=
      Sort(Order(), Eligible(Entries(contract, cs))), Sort(Order(), Eligible(Entries(contract, cs[k := c])));
      RankIn(was, c.id).Some? && RankIn(now, c.id).Some? && RankIn(now, c.id).value <= RankIn(was, c.id).value
  {
    hide Sort, Eligible, EntryOf;
    var q, e := Entries(contract, cs), EntryOf(contract, c);
    EntriesAt(contract, cs);
    EntriesAt(contract, cs[k := c]);
    assert Entries(contract, cs[k := c]) == q[k := e];
    EntriesScorecard(contract, cs);
    BetterImproves(contract, c, cs[k]);
    EntryId(contract, c);
    ImprovingNeverWorsens(q, k, e);
  }
}
