/** The two moves between terminal decisions, in terms of the events that each must bring: a Quarantine may be discarded
  and a Promotion recovered, each with one passed event from every provider, or not at all.
*/
module AuthorityMoves {
  import opened AuthorityDirectory
  import opened Faults
  import E = RecoveryEvents
  import R = RecoveryNormaliser

  /** The providers of a list. Where an identifier is listed twice the last listing counts. */
  ghost function Listed(p: seq<E.Provider>): set<E.Provider> { set i | 0 <= i < |p| && LastListing(p, i) :: p[i] }

  predicate LastListing(p: seq<E.Provider>, i: nat)
    requires i < |p|
  {
    forall j | i < j < |p| :: p[j].id != p[i].id
  }

  /** The providers that the evidence of a decision names. */
  ghost function Named(p: seq<E.Provider>, events: E.Events): set<E.Provider> {
    Listed(p) + set e | e in events :: e.provider
  }

  /** No identifier is named with two kinds. */
  ghost predicate Consistent(named: set<E.Provider>) {
    forall a, b | a in named && b in named && a.id == b.id :: a.kind == b.kind
  }

  /** One exact passed event of that stage from each of these providers, and nothing else. */
  ghost predicate AnswersOnce(named: set<E.Provider>, stage: E.Stage, events: E.Events) {
    && (forall e | e in events :: e.exact && e.stage == stage && e.status == E.Passed && e.provider in named)
    && (forall p | p in named :: exists e | e in events :: e.provider == p)
    && (forall i, j | 0 <= i < j < |events| :: events[i].provider != events[j].provider)
  }

  // ---- Kinds by identifier ----

  ghost predicate Kinds(m: map<string, string>, named: set<E.Provider>) {
    forall p :: p in named <==> p.id in m && m[p.id] == p.kind
  }

  lemma KindsConsistent(m: map<string, string>, named: set<E.Provider>)
    requires Kinds(m, named)
    ensures Consistent(named) && |m| == |named|
  {
    forall id | id in m ensures E.Provider(id, m[id]) in named {}
    SameSize(m, named);
  }

  lemma {:induction false} SameSize(m: map<string, string>, named: set<E.Provider>)
    requires Kinds(m, named)
    ensures |m| == |named|
    decreases |m|
  {
    if m == map[] {
      assert forall p | p in named :: p.id in m;
    } else {
      var id :| id in m;
      var p := E.Provider(id, m[id]);
      SameSize(m - {id}, named - {p});
      assert m.Keys == (m - {id}).Keys + {id};
      assert |m.Keys| == |m| && |(m - {id}).Keys| == |m - {id}|;
    }
  }

  ghost function Providers(events: E.Events): set<E.Provider> { set e | e in events :: e.provider }

  lemma {:induction false} ProvidersSize(events: E.Events)
    requires forall i, j | 0 <= i < j < |events| :: events[i].provider != events[j].provider
    ensures |Providers(events)| == |events|
    decreases |events|
  {
    if events != [] {
      var front, last := events[..|events| - 1], events[|events| - 1];
      assert events == front + [last];
      ProvidersSize(front);
      assert Providers(events) == Providers(front) + {last.provider};
      assert last.provider !in Providers(front);
    } else {
      assert Providers(events) == {};
    }
  }

  predicate Answer(m: map<string, string>, stage: E.Stage, e: E.Event) {
    e.exact && e.provider.id in m && m[e.provider.id] == e.provider.kind && e.stage == stage && e.status == E.Passed
  }

  /** Counting the events, and looking each of them up, is asking for one from everybody. */
  lemma AnsweredExactly(m: map<string, string>, named: set<E.Provider>, stage: E.Stage, events: E.Events)
    requires Kinds(m, named)
    ensures AnswersOnce(named, stage, events) <==>
      && |events| == |m|
      && (forall i | 0 <= i < |events| :: Answer(m, stage, events[i]))
      && (forall i, j | 0 <= i < j < |events| :: events[i].provider.id != events[j].provider.id)
  {
    KindsConsistent(m, named);
    var all := Providers(events);
    if AnswersOnce(named, stage, events) {
      ProvidersSize(events);
      assert all == named;
      forall i, j | 0 <= i < j < |events| ensures events[i].provider.id != events[j].provider.id {
        assert events[i] in events && events[j] in events;
      }
    }
    if && |events| == |m|
      && (forall i | 0 <= i < |events| :: Answer(m, stage, events[i]))
      && (forall i, j | 0 <= i < j < |events| :: events[i].provider.id != events[j].provider.id)
    {
      ProvidersSize(events);
      Everybody(all, named);
      forall p | p in named ensures exists e | e in events :: e.provider == p { assert p in all; }
    }
  }

  lemma Everybody<T>(a: set<T>, b: set<T>)
    requires a <= b && |a| == |b|
    ensures a == b
  {
    assert b == a + (b - a);
    assert |b| == |a| + |b - a|;
  }

  // ---- Discarding ----

  lemma ListedPush(p: seq<E.Provider>)
    requires p != []
    ensures var last := p[|p| - 1];
      Listed(p) == (set q | q in Listed(p[..|p| - 1]) && q.id != last.id) + {last}
  {
    var front, n := p[..|p| - 1], |p| - 1;
    assert LastListing(p, n);
    forall i: nat | i < n ensures LastListing(p, i) <==> LastListing(front, i) && p[i].id != p[n].id {
      LastListingPush(p, i);
    }
    hide LastListing;
    forall q | q in Listed(p) ensures q == p[n] || (q in Listed(front) && q.id != p[n].id) {
      var i: nat :| i < |p| && LastListing(p, i) && q == p[i];
      assert i < n ==> front[i] == q;
    }
    forall q | q in Listed(front) && q.id != p[n].id ensures q in Listed(p) {
      var i: nat :| i < n && LastListing(front, i) && q == front[i];
      assert p[i] == q;
    }
  }

  lemma LastListingPush(p: seq<E.Provider>, i: nat)
    requires i < |p| - 1
    ensures LastListing(p, i) <==> LastListing(p[..|p| - 1], i) && p[i].id != p[|p| - 1].id
  {
    var front := p[..|p| - 1];
    assert forall j | 0 <= j < |front| :: front[j] == p[j];
  }

  lemma {:induction false} ListedKinds(p: seq<E.Provider>)
    ensures DiscardKinds(p, []).Some? && Kinds(DiscardKinds(p, []).value, Listed(p))
    decreases |p|
  {
    if p == [] {
      assert Listed(p) == {};
    } else {
      ListedKinds(p[..|p| - 1]);
      ListedPush(p);
      hide Listed;
    }
  }

  /** The kinds are read off exactly when the evidence does not contradict itself. */
  lemma {:induction false} DiscardKindsMeaning(p: seq<E.Provider>, events: E.Events)
    ensures DiscardKinds(p, events).Some? <==> Consistent(Named(p, events))
    ensures DiscardKinds(p, events).Some? ==> Kinds(DiscardKinds(p, events).value, Named(p, events))
    decreases |events|
  {
    if events == [] {
      ListedKinds(p);
      assert Named(p, events) == Listed(p);
      KindsConsistent(DiscardKinds(p, []).value, Listed(p));
    } else {
      var front, last := events[..|events| - 1], events[|events| - 1];
      assert events == front + [last];
      DiscardKindsMeaning(p, front);
      assert Named(p, events) == Named(p, front) + {last.provider};
      hide Named;
      if DiscardKinds(p, front).Some? {
        var m := DiscardKinds(p, front).value;
        if last.provider.id in m { assert E.Provider(last.provider.id, m[last.provider.id]) in Named(p, front); }
      }
    }
  }

  /** What must follow the events of a Quarantine: nothing yet, or one answer from everybody its evidence names. */
  ghost predicate Discards(q: Decision, events: E.Events) {
    events == [] ||
    (Consistent(Named(q.base.providers, q.base.events)) &&
     AnswersOnce(Named(q.base.providers, q.base.events), E.Discard, events))
  }

  lemma DiscardEvidenceMeaning(q: Decision, events: E.Events)
    ensures DiscardEvidence(q, events) <==> Discards(q, events)
  {
    DiscardKindsMeaning(q.base.providers, q.base.events);
    var kinds := DiscardKinds(q.base.providers, q.base.events);
    if kinds.Some? { AnsweredExactly(kinds.value, Named(q.base.providers, q.base.events), E.Discard, events); }
    hide Named, DiscardKinds, AnswersOnce, Consistent;
  }

  /** A Quarantine, discarded: its events and these, one run event more, and the place it was kept forgotten. */
  function Discarded(q: Decision, events: E.Events, at: string, presentation: string): Decision {
    Decision(
      q.base.(status := R.Discarded, disposition := R.Discarded, events := q.base.events + events),
      q.runEvents + [(R.Discarded, at)], false, None, Some(at), q.evidence, presentation)
  }

  predicate Kept(q: Decision) {
    q.base.status == R.Quarantined && q.base.disposition == R.Quarantined && q.quarantineAvailable &&
    q.quarantinePath.Some?
  }

  /** Discarding is legal over what is kept in quarantine, with no answers or one from everybody. */
  lemma DiscardIsLegal(q: Decision, events: E.Events, at: string, presentation: string)
    ensures Legal(q, Discarded(q, events, at, presentation)) <==> Kept(q) && Discards(q, events)
    ensures Legal(q, Discarded(q, events, at, presentation)) && q.base.recoveryError.None? ==>
      Terminal(Discarded(q, events, at, presentation))
  {
    var d := Discarded(q, events, at, presentation);
    DiscardEvidenceMeaning(q, events);
    assert d.base.events[|q.base.events|..] == events && d.runEvents[..|q.runEvents|] == q.runEvents;
    hide DiscardEvidence, Discards, R.CoversProviders;
  }

  /** And it is the only move from a Quarantine. */
  lemma OnlyDiscards(q: Decision, d: Decision)
    requires q.base.disposition == R.Quarantined && Legal(q, d)
    ensures d.discardedAt.Some? && q.base.events <= d.base.events
    ensures d == Discarded(q, d.base.events[|q.base.events|..], d.discardedAt.value, d.presentation)
  {
    hide DiscardEvidence, R.CoversProviders;
    assert d.runEvents == d.runEvents[..|q.runEvents|] + [d.runEvents[|q.runEvents|]];
    assert d.base.events == q.base.events + d.base.events[|q.base.events|..];
  }

  /** A failed, missing, doubled or foreign answer is refused. */
  lemma BadAnswersRefused(q: Decision, events: E.Events, at: string, presentation: string)
    requires events != []
    requires
      || (exists e | e in events :: e.status != E.Passed || e.stage != E.Discard || !e.exact)
      || (exists p | p in Named(q.base.providers, q.base.events) :: forall e | e in events :: e.provider != p)
      || (exists e | e in events :: e.provider !in Named(q.base.providers, q.base.events))
      || (exists i, j | 0 <= i < j < |events| :: events[i].provider == events[j].provider)
    ensures !Legal(q, Discarded(q, events, at, presentation))
  {
    hide Named, Discarded, Legal;
    DiscardIsLegal(q, events, at, presentation);
  }

  // ---- Recovering ----

  lemma {:induction false} KindOfMeaning(p: seq<E.Provider>, id: string)
    ensures forall kind :: R.KindOf(p, id) == E.Some(kind) <==> E.Provider(id, kind) in Listed(p)
    ensures R.KindOf(p, id).Some? <==> id in R.Ids(p)
    decreases |p|
  {
    if p != [] {
      var front, last := p[..|p| - 1], p[|p| - 1];
      KindOfMeaning(front, id);
      ListedPush(p);
      assert R.Ids(p) == R.Ids(front) + {last.id} by { assert p == front + [last]; }
      hide Listed, R.Ids;
    }
  }

  ghost function KindMap(p: seq<E.Provider>): map<string, string> {
    map id | id in R.Ids(p) && R.KindOf(p, id).Some? :: R.KindOf(p, id).value
  }

  lemma KindMapKinds(p: seq<E.Provider>)
    ensures Kinds(KindMap(p), Listed(p)) && KindMap(p).Keys == R.Ids(p)
  {
    forall id ensures R.KindOf(p, id).Some? <==> id in R.Ids(p) { KindOfMeaning(p, id); }
    forall q: E.Provider ensures q in Listed(p) <==> R.KindOf(p, q.id) == E.Some(q.kind) { KindOfMeaning(p, q.id); }
    hide R.KindOf, R.Ids, Listed;
  }

  lemma RecoveryEventMeaning(p: seq<E.Provider>, e: E.Event)
    ensures R.RecoveryEvent(p, e) <==> Answer(KindMap(p), E.Reconcile, e)
  {
    KindOfMeaning(p, e.provider.id);
    hide R.KindOf, R.Ids;
  }

  lemma CoversMeaning(p: seq<E.Provider>, events: E.Events)
    ensures R.CoversProviders(p, events) <==> AnswersOnce(Listed(p), E.Reconcile, events)
  {
    KindMapKinds(p);
    var m := KindMap(p);
    AnsweredExactly(m, Listed(p), E.Reconcile, events);
    assert |m| == |m.Keys|;
    forall e: E.Event ensures R.RecoveryEvent(p, e) <==> Answer(m, E.Reconcile, e) { RecoveryEventMeaning(p, e); }
    hide Listed, AnswersOnce, R.KindOf, R.Ids, R.RecoveryEvent, KindMap;
  }

  /** A Promotion, recovered: its events and these, and the mark that it was recovered. */
  function Recovered(p: Decision, events: E.Events): Decision {
    p.(base := p.base.(recovered := true, events := p.base.events + events))
  }

  predicate Complete(p: Decision) {
    && p.base.status == R.Promoted && p.base.disposition == R.Promoted && p.base.completedPhase
    && p.base.recoveryError.None? && !p.base.recovered
  }

  /** Recovering is legal over a completed Promotion, with one answer from every provider. */
  lemma RecoveryIsLegal(p: Decision, events: E.Events)
    ensures Legal(p, Recovered(p, events)) <==>
      Complete(p) && AnswersOnce(Listed(p.base.providers), E.Reconcile, events)
  {
    var r := Recovered(p, events);
    CoversMeaning(p.base.providers, events);
    assert r.base.events[|p.base.events|..] == events;
    hide R.CoversProviders, AnswersOnce, Listed;
  }

  lemma OnlyRecovers(p: Decision, r: Decision)
    requires p.base.disposition != R.Quarantined && Legal(p, r)
    ensures p.base.events <= r.base.events && r == Recovered(p, r.base.events[|p.base.events|..])
  {
    hide DiscardEvidence, R.CoversProviders;
    assert r.base.events == p.base.events + r.base.events[|p.base.events|..];
  }

  /** Every legal move, and no other, is one of the two. */
  lemma LegalMeaning(a: Decision, b: Decision)
    ensures Legal(a, b) <==>
      || (exists events, at, presentation ::
            Kept(a) && Discards(a, events) && b == Discarded(a, events, at, presentation))
      || (exists events :: Complete(a) && AnswersOnce(Listed(a.base.providers), E.Reconcile, events)
            && b == Recovered(a, events))
  {
    hide Legal, Discards, AnswersOnce, Listed, Discarded, Recovered;
    if Legal(a, b) {
      if a.base.disposition == R.Quarantined {
        OnlyDiscards(a, b);
        DiscardIsLegal(a, b.base.events[|a.base.events|..], b.discardedAt.value, b.presentation);
      } else {
        OnlyRecovers(a, b);
        RecoveryIsLegal(a, b.base.events[|a.base.events|..]);
      }
    }
    forall events, at, presentation | b == Discarded(a, events, at, presentation)
      ensures Kept(a) && Discards(a, events) ==> Legal(a, b)
    {
      DiscardIsLegal(a, events, at, presentation);
    }
    forall events | b == Recovered(a, events)
      ensures Complete(a) && AnswersOnce(Listed(a.base.providers), E.Reconcile, events) ==> Legal(a, b)
    {
      RecoveryIsLegal(a, events);
    }
  }

  /** What may be recorded first: any decision that is settled and is one of the four ends of a Run. */
  lemma FirstRecord(a: Authority)
    ensures Admits({}, a) <==>
      && a.decision.base.status == a.decision.base.disposition && a.decision.base.recoveryError.None?
      && !a.decision.base.disposition.RecoveryError? && !a.decision.base.disposition.OtherRunStatus?
  {
    hide Legal, Latest;
    assert Reads({}, Ok(None));
  }
}
