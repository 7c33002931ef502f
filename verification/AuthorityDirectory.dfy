/** The immutable terminal authority of one Run, from portable-decision-journal.ts.

  A directory of content-addressed records only grows. A record's file name is the digest
  of its decision and context, digests are taken to be injective, so a directory is a set of
  records; `entries` lists it in the order the file system happens to return.
*/
module AuthorityDirectory {
  import Sorting
  import opened Faults
  import RecoveryEvents
  import R = RecoveryNormaliser

  const MAX_RECORDS: nat := 32

  /** A terminal Run Transaction. `base` holds what recovery reads, its `rest` being the
    immutable core; `evidence` is the resource evidence without dispositions and summaries,
    `presentation` whatever else a Discard may rewrite. */
  datatype Decision = Decision(
    base: R.Transaction,
    runEvents: seq<(R.RunStatus, string)>,
    quarantineAvailable: bool,
    quarantinePath: Option<string>,
    discardedAt: Option<string>,
    evidence: string,
    presentation: string)

  /** A published record: the decision, and the digests of its parent and Candidate Set. */
  datatype Authority = Authority(decision: Decision, parent: Option<string>, set_: Option<string>)

  // ---- Legal moves ----

  /** Provider kinds a Discard must answer for; None when the evidence contradicts itself. */
  function DiscardKinds(providers: seq<RecoveryEvents.Provider>, events: RecoveryEvents.Events)
    : Option<map<string, string>>
  {
    if events != [] then
      var front := DiscardKinds(providers, events[..|events| - 1]);
      var p := events[|events| - 1].provider;
      if front.None? || (p.id in front.value && front.value[p.id] != p.kind) then None
      else Some(front.value[p.id := p.kind])
    else if providers != [] then
      var p := providers[|providers| - 1];
      Some(DiscardKinds(providers[..|providers| - 1], []).value[p.id := p.kind])
    else Some(map[])
  }

  predicate DiscardEvidence(q: Decision, events: RecoveryEvents.Events) {
    events == [] ||
    var kinds := DiscardKinds(q.base.providers, q.base.events);
    && kinds.Some? && |events| == |kinds.value|
    && (forall i | 0 <= i < |events| ::
      events[i].exact && events[i].provider.id in kinds.value &&
      kinds.value[events[i].provider.id] == events[i].provider.kind
      && events[i].stage == RecoveryEvents.Discard && events[i].status == RecoveryEvents.Passed)
    && (forall i, j | 0 <= i < j < |events| :: events[i].provider.id != events[j].provider.id)
  }

  /** Fields no terminal move may change, the recovery flag included. */
  predicate SameCore(a: Decision, b: Decision) {
    a.base.rest == b.base.rest && a.base.completedPhase == b.base.completedPhase
    && a.base.recovered == b.base.recovered && a.base.recoveryError == b.base.recoveryError
  }

  /** assertQuarantineDiscardTransition. */
  predicate DiscardsQuarantine(q: Decision, d: Decision) {
    && q.base.status == q.base.disposition == R.Quarantined && q.quarantineAvailable && q.quarantinePath.Some?
    && d.base.status == d.base.disposition == R.Discarded && !d.quarantineAvailable && d.quarantinePath.None? &&
      d.discardedAt.Some?
    && |d.runEvents| == |q.runEvents| + 1 && d.runEvents[..|q.runEvents|] == q.runEvents
    && d.runEvents[|q.runEvents|] == (R.Discarded, d.discardedAt.value)
    && q.base.events <= d.base.events && DiscardEvidence(q, d.base.events[|q.base.events|..])
    && SameCore(q, d) && q.evidence == d.evidence && q.base.providers == d.base.providers
  }

  /** assertPromotedRecoveryTransition: nothing but the flag and the events may differ. */
  predicate RecoversPromotion(p: Decision, r: Decision) {
    R.AcceptsRecovery(p.base, r.base) && p.(base := r.base) == r
  }

  predicate Legal(a: Decision, b: Decision) { DiscardsQuarantine(a, b) || RecoversPromotion(a, b) }

  /** Nothing follows a legal move. */
  lemma LegalEnds(a: Decision, b: Decision, c: Decision)
    requires Legal(a, b)
    ensures !Legal(b, c) && a != b
  {
  }

  /** What `record` demands of a decision before it looks at the directory. */
  predicate Terminal(t: Decision) {
    && t.base.status == t.base.disposition && t.base.recoveryError.None?
    && t.base.disposition in {R.Promoted, R.Quarantined, R.Discarded, R.Cancelled}
  }

  /** What recovery makes of a published, unrecovered Promotion is a legal successor of it. */
  lemma RecoveredIsLegal(p: Decision, journaled: R.Transaction, verification: RecoveryEvents.Events)
    requires R.UnrecoveredAuthority(p.base) && R.Journals(p.base, journaled)
    requires RecoveryEvents.Whole(p.base.providers, verification)
    requires R.Recover(journaled, RecoveryEvents.Some(p.base), verification).Ok?
    ensures var r := R.Recover(journaled, RecoveryEvents.Some(p.base), verification).value;
      Legal(p, p.(base := r)) && Terminal(p.(base := r))
  {
    R.RecoveryIsAccepted(p.base, journaled, verification);
  }

  // ---- Reading ----

  function Decisions(s: set<Authority>): set<Decision> { set a | a in s :: a.decision }

  predicate ContextUnambiguous(s: set<Authority>) {
    && (forall a, b | a in s && b in s :: a.parent == b.parent)
    && (forall a, b | a in s && b in s && a.set_.Some? && b.set_.Some? :: a.set_ == b.set_)
  }

  /** `t` is the latest decision: the only one, or the one the other may legally become. */
  ghost predicate Latest(s: set<Authority>, t: Decision) {
    Decisions(s) == {t} || exists u :: Decisions(s) == {u, t} && Legal(u, t)
  }

  ghost predicate Richest(s: set<Authority>, a: Authority) {
    a in s && (a.set_.Some? || forall b | b in s && b.decision == a.decision :: b.set_.None?)
  }

  /** The reader, as a relation: it selects one decision or refuses. */
  ghost predicate Reads(s: set<Authority>, r: Outcome<Option<Authority>>) {
    if |s| > MAX_RECORDS || !ContextUnambiguous(s) then r.Thrown?
    else if s == {} then r == Ok(None)
    else if exists t :: Latest(s, t) then
      r.Ok? && r.value.Some? && Latest(s, r.value.value.decision) && Richest(s, r.value.value)
    else r.Thrown?
  }

  lemma LatestUnique(s: set<Authority>, t: Decision, u: Decision)
    requires Latest(s, t) && Latest(s, u)
    ensures t == u
  {
    if t != u {
      assert t in Decisions(s) && u in Decisions(s);
      assert Legal(u, t) && Legal(t, u);
      LegalEnds(u, t, u);
    }
  }

  /** The reader's answer depends on the records alone, not on the listing order. */
  lemma ReadsUnique(s: set<Authority>, r: Outcome<Option<Authority>>, q: Outcome<Option<Authority>>)
    requires Reads(s, r) && Reads(s, q)
    ensures r == q
  {
    if r.Ok? && r.value.Some? {
      var a, b := r.value.value, q.value.value;
      LatestUnique(s, a.decision, b.decision);
      assert a.parent == b.parent && a.set_ == b.set_;
    }
  }

  // ---- The invariant of a stable context ----

  /** Every record carries this parent, and this Candidate Set digest or none. */
  ghost predicate InContext(s: set<Authority>, parent: Option<string>, set_: string) {
    forall a | a in s :: a.parent == parent && a.set_ in {None, Some(set_)}
  }

  ghost predicate OneDecision(s: set<Authority>) {
    s == {} || exists t :: Latest(s, t)
  }

  ghost predicate Stable(s: set<Authority>, parent: Option<string>, set_: string) {
    InContext(s, parent, set_) && OneDecision(s) && forall t | t in Decisions(s) :: Terminal(t)
  }

  function Pair(t: Decision, parent: Option<string>, set_: string): set<Authority> {
    {Authority(t, parent, None), Authority(t, parent, Some(set_))}
  }

  /** At most two decisions in at most two contexts: four records, far below the bound. */
  lemma StableBound(s: set<Authority>, parent: Option<string>, set_: string)
    requires Stable(s, parent, set_)
    ensures |Decisions(s)| <= 2 && |s| <= 4 && ContextUnambiguous(s)
  {
    if s != {} {
      var t :| Latest(s, t);
      var u :| u in Decisions(s) && Decisions(s) == {u, t};
      forall a | a in s ensures a in Pair(t, parent, set_) + Pair(u, parent, set_) {
        assert a.decision in Decisions(s);
      }
      assert s <= Pair(t, parent, set_) + Pair(u, parent, set_);
      Sorting.SubsetSize(s, Pair(t, parent, set_) + Pair(u, parent, set_));
      assert |{u, t}| <= 2;
    }
  }

  /** In a stable context the directory is always readable. */
  lemma StableReads(s: set<Authority>, parent: Option<string>, set_: string, r: Outcome<Option<Authority>>)
    requires Stable(s, parent, set_) && Reads(s, r)
    ensures r.Ok? && (r.value.None? <==> s == {})
  {
    StableBound(s, parent, set_);
  }

  // ---- The directory ----

  function Listing(entries: seq<Authority>): set<Authority> { set a | a in entries }

  /** The records of one decision, in listing order. */
  function Group(entries: seq<Authority>, t: Decision): seq<Authority> {
    if entries == [] then []
    else Group(entries[..|entries| - 1], t) + if entries[|entries| - 1].decision == t then [entries[|entries| - 1]]
      else []
  }

  lemma {:induction false} GroupHolds(entries: seq<Authority>, t: Decision, a: Authority)
    ensures a in Group(entries, t) <==> a in entries && a.decision == t
  {
    if entries != [] {
      GroupHolds(entries[..|entries| - 1], t, a);
      assert entries == entries[..|entries| - 1] + [entries[|entries| - 1]];
    }
  }

  /** selectContextRichAuthority on the records of one decision. */
  method SelectContextRichAuthority(records: seq<Authority>) returns (a: Authority)
    requires records != []
    ensures a in records && (a.set_.Some? || forall b | b in records :: b.set_.None?)
  {
    a := records[0];
    for i := 1 to |records|
      invariant a in records && (a.set_.Some? || forall j | 0 <= j < i :: records[j].set_.None?)
    {
      if a.set_.None? && records[i].set_.Some? {
        a := records[i];
      }
    }
  }

  /** The two-decision case: whichever may follow the other. */
  method Follower(a: Decision, b: Decision) returns (r: Option<Decision>)
    ensures r == if Legal(a, b) then Some(b) else if Legal(b, a) then Some(a) else None
  {
    if a.base.disposition == R.Quarantined && b.base.disposition == R.Discarded {
      return if DiscardsQuarantine(a, b) then Some(b) else None;
    }
    if b.base.disposition == R.Quarantined && a.base.disposition == R.Discarded {
      return if DiscardsQuarantine(b, a) then Some(a) else None;
    }
    if a.base.disposition == b.base.disposition == R.Promoted && a.base.recovered != b.base.recovered {
      var unrecovered, recovered := if a.base.recovered then b else a, if a.base.recovered then a else b;
      return if RecoversPromotion(unrecovered, recovered) then Some(recovered) else None;
    }
    return None;
  }

  /** assertAuthorityContextUnambiguous: at most one parent digest and one Candidate Set digest. */
  method ContextCheck(entries: seq<Authority>) returns (ok: bool)
    ensures ok == ContextUnambiguous(Listing(entries))
  {
    var parents: set<Option<string>>, sets: set<string> := {}, {};
    for i := 0 to |entries|
      invariant parents == set j | 0 <= j < i :: entries[j].parent
      invariant sets == set j | 0 <= j < i && entries[j].set_.Some? :: entries[j].set_.value
    {
      parents := parents + {entries[i].parent};
      if entries[i].set_.Some? {
        sets := sets + {entries[i].set_.value};
      }
    }
    AtMostOne(parents);
    AtMostOne(sets);
    ContextSets(entries, parents, sets);
    ok := |parents| <= 1 && |sets| <= 1;
  }

  lemma ContextSets(entries: seq<Authority>, parents: set<Option<string>>, sets: set<string>)
    requires parents == set j | 0 <= j < |entries| :: entries[j].parent
    requires sets == set j | 0 <= j < |entries| && entries[j].set_.Some? :: entries[j].set_.value
    ensures ContextUnambiguous(Listing(entries)) <==>
      (forall x, y | x in parents && y in parents :: x == y) && (forall x, y | x in sets && y in sets :: x == y)
  {
    var s := Listing(entries);
    assert parents == set a | a in s :: a.parent;
    assert sets == set a | a in s && a.set_.Some? :: a.set_.value;
    forall a | a in s ensures a.parent in parents && (a.set_.Some? ==> a.set_.value in sets) {}
  }

  lemma AtMostOne<T>(s: set<T>)
    ensures |s| <= 1 <==> forall x, y | x in s && y in s :: x == y
  {
    if s != {} {
      var x :| x in s;
      assert s == {x} + (s - {x});
      assert |s| == 1 + |s - {x}|;
      assert |s - {x}| == 0 <==> s - {x} == {};
    }
  }

  lemma NothingListed()
    ensures Decisions(Listing([])) == {}
  {
  }

  lemma ListingPush(entries: seq<Authority>, i: nat)
    requires i < |entries|
    ensures Listing(entries[..i + 1]) == Listing(entries[..i]) + {entries[i]}
    ensures Decisions(Listing(entries[..i + 1])) == Decisions(Listing(entries[..i])) + {entries[i].decision}
    ensures forall t ::
      Group(entries[..i + 1], t) == Group(entries[..i], t) + if entries[i].decision == t then [entries[i]] else []
  {
    assert entries[..i + 1] == entries[..i] + [entries[i]];
    assert entries[..i + 1][..i] == entries[..i];
    assert Listing(entries[..i + 1]) == Listing(entries[..i]) + {entries[i]};
  }

  lemma {:induction false} EmptyGroup(entries: seq<Authority>, t: Decision)
    requires t !in Decisions(Listing(entries))
    ensures Group(entries, t) == []
  {
    if entries != [] {
      var n := |entries| - 1;
      assert entries[..n + 1] == entries;
      ListingPush(entries, n);
      EmptyGroup(entries[..n], t);
    }
  }

  predicate DistinctEntries(entries: seq<Authority>) {
    forall i, j | 0 <= i < j < |entries| :: entries[i] != entries[j]
  }

  lemma {:induction false} ListingSize(entries: seq<Authority>)
    requires DistinctEntries(entries)
    ensures |Listing(entries)| == |entries|
  {
    if entries != [] {
      var front, last := entries[..|entries| - 1], entries[|entries| - 1];
      ListingSize(front);
      assert Listing(entries) == Listing(front) + {last};
      assert last !in Listing(front);
    }
  }

  /** Selecting in a decision's group answers the reader's specification. */
  lemma SelectionReads(entries: seq<Authority>, t: Decision, a: Authority)
    requires |Listing(entries)| <= MAX_RECORDS && ContextUnambiguous(Listing(entries)) && Latest(Listing(entries), t)
    requires a in Group(entries, t) && (a.set_.Some? || forall b | b in Group(entries, t) :: b.set_.None?)
    ensures Reads(Listing(entries), Ok(Some(a)))
  {
    GroupHolds(entries, t, a);
    forall b | b in Listing(entries) && b.decision == t ensures b in Group(entries, t) { GroupHolds(entries, t, b); }
    assert a in Listing(entries);
  }

  lemma Undecided(s: set<Authority>, order: seq<Decision>)
    requires Decisions(s) == (set t | t in order) && forall i, j | 0 <= i < j < |order| :: order[i] != order[j]
    requires |order| > 2 || (|order| == 2 && !Legal(order[0], order[1]) && !Legal(order[1], order[0]))
    ensures forall t :: !Latest(s, t)
  {
    assert order[0] in Decisions(s) && order[1] in Decisions(s);
    if |order| > 2 { assert order[2] in Decisions(s); }
    forall t ensures !Latest(s, t) {
      forall u | Decisions(s) == {u, t} ensures !Legal(u, t) {
        assert order[0] in {u, t} && order[1] in {u, t};
      }
    }
  }

  lemma NoDecisions(entries: seq<Authority>)
    ensures Decisions(Listing(entries)) == {} <==> entries == []
  {
    if entries != [] {
      assert entries[0] in Listing(entries);
      assert entries[0].decision in Decisions(Listing(entries));
    }
  }

  class Directory {
    /** The Run's records as the file system lists them; no name occurs twice. */
    var entries: seq<Authority>

    constructor ()
      ensures entries == []
    {
      entries := [];
    }

    /** The decisions in the directory, each once, in the order first met. */
    method GroupByTransaction() returns (order: seq<Decision>, groups: map<Decision, seq<Authority>>)
      ensures groups.Keys == Decisions(Listing(entries)) == set t | t in order
      ensures forall i, j | 0 <= i < j < |order| :: order[i] != order[j]
      ensures forall t | t in groups :: groups[t] == Group(entries, t) && groups[t] != []
    {
      hide Group, Listing, Decisions;
      NothingListed();
      assert entries[..0] == [];
      order, groups := [], map[];
      for i := 0 to |entries|
        invariant groups.Keys == Decisions(Listing(entries[..i])) == set t | t in order
        invariant forall i, j | 0 <= i < j < |order| :: order[i] != order[j]
        invariant forall t | t in groups :: groups[t] == Group(entries[..i], t) && groups[t] != []
      {
        var record := entries[i];
        ListingPush(entries, i);
        if record.decision !in groups {
          order := order + [record.decision];
          EmptyGroup(entries[..i], record.decision);
          groups := groups[record.decision := [record]];
        } else {
          groups := groups[record.decision := groups[record.decision] + [record]];
        }
      }
      assert entries[..|entries|] == entries;
    }

    method ReadUnambiguousTerminalAuthority() returns (r: Outcome<Option<Authority>>)
      requires DistinctEntries(entries)
      ensures Reads(Listing(entries), r)
    {
      ListingSize(entries);
      if |entries| > MAX_RECORDS {
        return Thrown;
      }
      var order, groups := GroupByTransaction();
      var unambiguous := ContextCheck(entries);
      if !unambiguous {
        return Thrown;
      }
      r := Choose(order, groups);
    }

    method Choose(order: seq<Decision>, groups: map<Decision, seq<Authority>>) returns (r: Outcome<Option<Authority>>)
      requires |Listing(entries)| <= MAX_RECORDS && ContextUnambiguous(Listing(entries))
      requires groups.Keys == Decisions(Listing(entries)) == set t | t in order
      requires forall i, j | 0 <= i < j < |order| :: order[i] != order[j]
      requires forall t | t in groups :: groups[t] == Group(entries, t) && groups[t] != []
      ensures Reads(Listing(entries), r)
    {
      hide ContextUnambiguous, Legal, Group;
      ghost var s := Listing(entries);
      NoDecisions(entries);
      if |order| == 0 {
        return Ok(None);
      }
      var latest: Option<Decision> := None;
      if |order| == 1 {
        assert Decisions(s) == {order[0]};
        latest := Some(order[0]);
      } else if |order| == 2 {
        assert Decisions(s) == {order[0], order[1]} == {order[1], order[0]};
        latest := Follower(order[0], order[1]);
      }
      if latest.None? {
        Undecided(s, order);
        return Thrown;
      }
      assert Latest(s, latest.value);
      assert latest.value in order;
      var a := SelectContextRichAuthority(groups[latest.value]);
      SelectionReads(entries, latest.value, a);
      return Ok(Some(a));
    }

    /** Link the record under its digest: an existing name is the same record, so nothing happens. */
    method PublishRecord(a: Authority, calm: bool) returns (o: Outcome<()>)
      requires DistinctEntries(entries)
      modifies this
      ensures DistinctEntries(entries)
      ensures Listing(entries) == old(Listing(entries)) || Listing(entries) == old(Listing(entries)) + {a}
      ensures o.Ok? ==> Listing(entries) == old(Listing(entries)) + {a}
      ensures calm ==> o.Ok?
    {
      var fate := Next(calm);
      if fate.Acts() && a !in entries {
        ghost var before := entries;
        entries := entries + [a];
        assert Listing(entries) == Listing(before) + {a};
      }
      o := Ends(fate, ());
    }

    /** record: read, check the move, publish, and read again to see that it took effect. */
    method Record(t: Decision, parent: Option<string>, set_: Option<string>, calm: bool) returns (o: Outcome<Authority>)
      requires DistinctEntries(entries)
      modifies this
      ensures DistinctEntries(entries)
      ensures Recorded(old(Listing(entries)), Listing(entries), Authority(t, parent, set_))
      ensures o.Ok? ==> o.value == Authority(t, parent, set_) && o.value in Listing(entries)
      ensures o.Ok? ==> Terminal(t) && Latest(Listing(entries), t)
      ensures calm ==> (o.Ok? <==>
        Admits(old(Listing(entries)), Authority(t, parent, set_)) &&
        Fits(old(Listing(entries)) + {Authority(t, parent, set_)}))
      ensures calm && Admits(old(Listing(entries)), Authority(t, parent, set_)) ==>
        Listing(entries) == old(Listing(entries)) + {Authority(t, parent, set_)}
    {
      hide Terminal, Legal, ContextUnambiguous, Listing, Decisions;
      ghost var s, record_ := Listing(entries), Authority(t, parent, set_);
      if !Terminal(t) {
        return Thrown;
      }
      var latest := ReadUnambiguousTerminalAuthority();
      RefusedRecord(s, record_, latest);
      if !latest.Ok? {
        return Thrown;
      }
      ReadDecides(s, latest);
      if latest.value.Some? && latest.value.value.decision != t && !Legal(latest.value.value.decision, t) {
        return Thrown;
      }
      var record := Authority(t, parent, set_);
      var published := PublishRecord(record, calm);
      if !published.Ok? {
        return if published.Thrown? then Thrown else Crashed;
      }
      var again := ReadUnambiguousTerminalAuthority();
      ReadAfterRecord(s, record, again);
      if !again.Ok? || again.value.None? || again.value.value.decision != t {
        return Thrown;
      }
      return Ok(record);
    }
  }

  /** What `record` may do to the directory: nothing, or add a record it had checked. */
  ghost predicate Recorded(before: set<Authority>, after: set<Authority>, a: Authority) {
    after == before || (after == before + {a} && Admits(before, a))
  }

  /** `record` publishes `a` only in front of a readable directory whose latest decision is the
    same or may become it. */
  ghost predicate Admits(s: set<Authority>, a: Authority) {
    && Terminal(a.decision)
    && exists r :: Reads(s, r) && Precedes(r, a.decision)
  }

  /** What was read is nothing, or this decision, or one that may become it. */
  predicate Precedes(r: Outcome<Option<Authority>>, t: Decision) {
    r.Ok? && (r.value.Some? ==> r.value.value.decision == t || Legal(r.value.value.decision, t))
  }

  /** No more records than the reader accepts, in one context. */
  predicate Fits(s: set<Authority>) { |s| <= 32 && ContextUnambiguous(s) }

  lemma ReadDecides(s: set<Authority>, r: Outcome<Option<Authority>>)
    requires Reads(s, r) && r.Ok?
    ensures OneDecision(s)
  {
    hide Legal, ContextUnambiguous;
  }

  /** The check before publishing is exactly what admits a record. */
  lemma RefusedRecord(s: set<Authority>, a: Authority, r: Outcome<Option<Authority>>)
    requires Reads(s, r)
    ensures Admits(s, a) <==> Terminal(a.decision) && Precedes(r, a.decision)
  {
    hide Reads, Legal, Terminal;
    forall q | Reads(s, q) ensures q == r { ReadsUnique(s, q, r); }
  }

  /** Once an admitted record is published, reading finds it unless there is no room or no one context. */
  lemma ReadAfterRecord(s: set<Authority>, a: Authority, r: Outcome<Option<Authority>>)
    requires Admits(s, a) && OneDecision(s) && Reads(s + {a}, r)
    ensures r.Ok? && r.value.Some? && r.value.value.decision == a.decision <==> Fits(s + {a})
  {
    AdmittedDecides(s, a);
    hide Admits, Legal, Terminal, ContextUnambiguous;
    if Fits(s + {a}) { LatestUnique(s + {a}, a.decision, r.value.value.decision); }
  }

  // ---- Whole runs ----

  /** An admitted record leaves one latest decision: the old one, or its legal successor. */
  lemma AdmittedDecides(s: set<Authority>, a: Authority)
    requires Admits(s, a) && OneDecision(s)
    ensures Latest(s + {a}, a.decision)
    ensures forall t | Latest(s, t) :: s == {} || t == a.decision || Legal(t, a.decision)
  {
    hide Terminal, Legal, ContextUnambiguous;
    var r :| Reads(s, r) && Precedes(r, a.decision);
    var after := s + {a};
    assert Decisions(after) == Decisions(s) + {a.decision};
    if s == {} {
      assert Decisions(after) == {a.decision};
    } else {
      var t := r.value.value.decision;
      forall u | Latest(s, u) ensures u == t { LatestUnique(s, t, u); }
      if t == a.decision {
        assert Decisions(after) == Decisions(s) by { assert t in Decisions(s); }
      } else {
        NoThird(s, t, a.decision);
        assert Decisions(after) == {t, a.decision};
      }
    }
  }

  /** A decision that may still move is alone in its directory. */
  lemma NoThird(s: set<Authority>, t: Decision, next: Decision)
    requires Latest(s, t) && Legal(t, next)
    ensures Decisions(s) == {t}
  {
    if Decisions(s) != {t} {
      var u :| Decisions(s) == {u, t} && Legal(u, t);
      LegalEnds(u, t, next);
    }
  }

  /** A step of a run with a stable context: a record call, however it ended. */
  ghost predicate StableStep(before: set<Authority>, after: set<Authority>, parent: Option<string>, set_: string) {
    exists a :: Recorded(before, after, a) && a.parent == parent && a.set_ in {None, Some(set_)}
  }

  lemma StepKeepsStable(before: set<Authority>, after: set<Authority>, parent: Option<string>, set_: string)
    requires Stable(before, parent, set_) && StableStep(before, after, parent, set_)
    ensures Stable(after, parent, set_) && before <= after
    ensures forall t, u | Latest(before, t) && Latest(after, u) :: before == {} || t == u || Legal(t, u)
  {
    var a :| Recorded(before, after, a) && a.parent == parent && a.set_ in {None, Some(set_)};
    if after != before {
      AdmittedDecides(before, a);
      assert Decisions(after) == Decisions(before) + {a.decision};
      forall t, u | Latest(before, t) && Latest(after, u) ensures before == {} || t == u || Legal(t, u) {
        LatestUnique(after, u, a.decision);
      }
    } else {
      forall t, u | Latest(before, t) && Latest(after, u) ensures t == u { LatestUnique(before, t, u); }
    }
  }

  ghost predicate StableRun(trace: seq<set<Authority>>, parent: Option<string>, set_: string) {
    && trace != [] && trace[0] == {}
    && forall i | 0 <= i < |trace| - 1 :: StableStep(trace[i], trace[i + 1], parent, set_)
  }

  /** In every run with a stable context, every reachable directory is stable and grew from the earlier ones. */
  lemma {:induction false} RunStaysStable(trace: seq<set<Authority>>, parent: Option<string>, set_: string, i: nat)
    requires StableRun(trace, parent, set_) && i < |trace|
    ensures Stable(trace[i], parent, set_)
  {
    if i > 0 {
      RunStaysStable(trace, parent, set_, i - 1);
      assert StableStep(trace[i - 1], trace[i - 1 + 1], parent, set_);
      StepKeepsStable(trace[i - 1], trace[i], parent, set_);
    }
  }

  /** Over a whole run the selected decision moves at most once, and only legally. */
  lemma {:induction false} SelectedMovesOnce(trace: seq<set<Authority>>, parent: Option<string>, set_: string, i: nat,
                                             j: nat, t: Decision, u: Decision)
    requires StableRun(trace, parent, set_) && i <= j < |trace| && trace[i] != {}
    requires Latest(trace[i], t) && Latest(trace[j], u)
    ensures t == u || Legal(t, u)
    decreases j - i
  {
    if i == j {
      LatestUnique(trace[i], t, u);
    } else {
      RunStaysStable(trace, parent, set_, i);
      RunStaysStable(trace, parent, set_, i + 1);
      assert StableStep(trace[i], trace[i + 1], parent, set_);
      StepKeepsStable(trace[i], trace[i + 1], parent, set_);
      var v :| Latest(trace[i + 1], v);
      SelectedMovesOnce(trace, parent, set_, i + 1, j, v, u);
      if t != v && v != u { LegalEnds(t, v, u); }
    }
  }

  /** All authorities of a Run agree on the immutable core, the recovered flag apart. */
  lemma CoreAgrees(s: set<Authority>, parent: Option<string>, set_: string, a: Authority, b: Authority)
    requires Stable(s, parent, set_) && a in s && b in s
    ensures a.decision.base.rest == b.decision.base.rest
    ensures a.decision.base.completedPhase == b.decision.base.completedPhase
    ensures a.decision.base.recoveryError == b.decision.base.recoveryError
    ensures a.decision.evidence == b.decision.evidence
    ensures a.decision == b.decision || Legal(a.decision, b.decision) || Legal(b.decision, a.decision)
  {
    var t :| Latest(s, t);
    assert a.decision in Decisions(s) && b.decision in Decisions(s);
  }

  // ---- Without a stable context ----

  /** Once two contexts have been published no later directory can be read. */
  lemma AmbiguousForever(s: set<Authority>, later: set<Authority>, r: Outcome<Option<Authority>>)
    requires !ContextUnambiguous(s) && s <= later && Reads(later, r)
    ensures r.Thrown?
  {
  }

  /** The records already there share the newcomer's parent, and its Candidate Set if both have one. */
  ghost predicate SharesContext(s: set<Authority>, a: Authority) {
    forall b | b in s :: b.parent == a.parent && (b.set_.Some? && a.set_.Some? ==> b.set_ == a.set_)
  }

  lemma ContextGrows(s: set<Authority>, a: Authority)
    requires ContextUnambiguous(s)
    ensures ContextUnambiguous(s + {a}) <==> SharesContext(s, a)
  {
    if ContextUnambiguous(s + {a}) {
      forall b | b in s ensures b.parent == a.parent && (b.set_.Some? && a.set_.Some? ==> b.set_ == a.set_) {
        assert b in s + {a} && a in s + {a};
      }
    }
  }

  /** `record` publishes before it notices: after an admitted record the directory is readable
    exactly when that record's context agrees with the ones before it. */
  lemma ReadableExactly(s: set<Authority>, parent: Option<string>, set_: string, a: Authority,
                        r: Outcome<Option<Authority>>)
    requires Stable(s, parent, set_) && Admits(s, a) && Reads(s + {a}, r)
    ensures r.Ok? <==> SharesContext(s, a)
  {
    StableBound(s, parent, set_);
    AdmittedDecides(s, a);
    ContextGrows(s, a);
    hide Admits, Stable, SharesContext, ContextUnambiguous, Latest, Richest;
    assert |s + {a}| <= |s| + 1;
  }

  /** An input that fails: one decision recorded under two parents. Both calls are admitted, and no later one reads. */
  lemma TwoParents(t: Decision, parent: Option<string>, other: Option<string>, r: Outcome<Option<Authority>>)
    requires Terminal(t) && parent != other
    ensures var a, b := Authority(t, parent, None), Authority(t, other, None);
      Admits({}, a) && Admits({a}, b) && (Reads({a, b}, r) ==> r.Thrown?)
  {
    var a, b := Authority(t, parent, None), Authority(t, other, None);
    assert Reads({}, Ok(None));
    assert Decisions({a}) == {t};
    assert Latest({a}, t) && Richest({a}, a) && Reads({a}, Ok(Some(a)));
    assert a in {a, b} && b in {a, b} && !ContextUnambiguous({a, b});
    AmbiguousForever({a, b}, {a, b}, Thrown);
  }
}
