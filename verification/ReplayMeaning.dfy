/** When two recovered Promotions count as one decision, in terms of what their events are made of. */
module ReplayMeaning {
  import opened AuthorityMoves
  import opened RecoveryEvents
  import opened ReplayEquivalence
  import R = RecoveryNormaliser

  /** The core: both are completed and recovered, each provider is listed once, and only the events may differ. */
  predicate OneRun(a: R.Transaction, b: R.Transaction) {
    && a.status == b.status == R.Promoted && a.disposition == b.disposition == R.Promoted
    && a.completedPhase && b.completedPhase && a.recovered && b.recovered
    && a.recoveryError == None && b.recoveryError == None
    && a.providers == b.providers && a.rest == b.rest
    && forall i, j | 0 <= i < j < |a.providers| :: a.providers[i].id != a.providers[j].id
  }

  function Joined(h: seq<Events>): Events { if h == [] then [] else h[0] + Joined(h[1..]) }

  /** Verifications, one after another, each with one passed report of every provider. */
  ghost predicate Verifications(p: seq<Provider>, xs: Events) {
    exists h :: Joined(h) == xs && Each(Listed(p), h)
  }

  ghost predicate Each(named: set<Provider>, h: seq<Events>) {
    forall i | 0 <= i < |h| :: AnswersOnce(named, Reconcile, h[i])
  }

  /** The events agree up to a point, and behind it each has verifications only, one of them at least one. */
  ghost predicate OneHistory(p: seq<Provider>, xs: Events, ys: Events) {
    if p == [] then xs == ys
    else exists front, tail, other :: Branches(p, xs, ys, front, tail, other)
  }

  ghost predicate Branches(p: seq<Provider>, xs: Events, ys: Events, front: Events, tail: Events, other: Events) {
    xs == front + tail && ys == front + other && tail + other != [] && Verifications(p, tail) && Verifications(p, other)
  }

  lemma IdsGrow(p: seq<Provider>)
    requires p != []
    ensures R.Ids(p) == R.Ids(p[..|p| - 1]) + {p[|p| - 1].id}
  {
    var front := p[..|p| - 1];
    assert p == front + [p[|p| - 1]];
    forall id | id in R.Ids(front) ensures id in R.Ids(p) {
      var i :| 0 <= i < |front| && front[i].id == id;
      assert p[i].id == id;
    }
    assert p[|p| - 1].id in R.Ids(p);
  }

  /** Where an identifier is repeated there are fewer identifiers than providers. */
  lemma {:induction false} RepeatedFewer(p: seq<Provider>)
    ensures |R.Ids(p)| <= |p| && (!R.DistinctIds(p) ==> |R.Ids(p)| < |p|)
    decreases |p|
  {
    if p == [] {
      assert R.Ids(p) == {};
    } else {
      var front, last := p[..|p| - 1], p[|p| - 1].id;
      RepeatedFewer(front);
      IdsGrow(p);
      if R.DistinctIds(front) && !R.DistinctIds(p) {
        var i, j :| 0 <= i < j < |p| && p[i].id == p[j].id;
        assert forall k | 0 <= k < |front| :: front[k] == p[k];
        assert j == |front| && front[i].id == last;
        assert R.Ids(p) == R.Ids(front);
      }
      hide R.Ids, R.DistinctIds;
    }
  }

  lemma DistinctSize(p: seq<Provider>)
    ensures |R.Ids(p)| == |p| <==> R.DistinctIds(p)
  {
    RepeatedFewer(p);
    if R.DistinctIds(p) { R.CountIds(p); }
    hide R.Ids, R.DistinctIds;
  }

  lemma CoreMeaning(a: R.Transaction, b: R.Transaction)
    ensures SameCore(a, b) <==> OneRun(a, b)
  {
    DistinctSize(a.providers);
    hide R.Ids;
  }

  lemma BatchMeaning(p: seq<Provider>, xs: Events)
    requires |R.Ids(p)| == |p|
    ensures Batch(p, xs) <==> AnswersOnce(Listed(p), Reconcile, xs)
  {
    CoversMeaning(p, xs);
    hide AnswersOnce, Listed, R.Ids, R.RecoveryEvent;
  }

  lemma {:induction false} BatchesMeaning(p: seq<Provider>, xs: Events)
    requires p != [] && |R.Ids(p)| == |p|
    ensures Batches(p, xs) <==> Verifications(p, xs)
    decreases |xs|
  {
    hide AnswersOnce, Listed, R.Ids, Batch;
    if xs == [] {
      assert Joined([]) == xs;
    } else {
      if Batches(p, xs) {
        BatchesMeaning(p, xs[|p|..]);
        BatchMeaning(p, xs[..|p|]);
        VerifiedPush(p, xs);
      }
      if Verifications(p, xs) {
        var h := FirstVerified(p, xs);
        BatchMeaning(p, h);
        BatchLength(p, h);
        assert xs[..|p|] == h;
        BatchesMeaning(p, xs[|p|..]);
      }
    }
  }

  lemma BatchLength(p: seq<Provider>, xs: Events)
    requires Batch(p, xs)
    ensures |xs| == |p|
  {
  }

  lemma VerifiedPush(p: seq<Provider>, xs: Events)
    requires |p| <= |xs| && AnswersOnce(Listed(p), Reconcile, xs[..|p|]) && Verifications(p, xs[|p|..])
    ensures Verifications(p, xs)
  {
    hide AnswersOnce, Listed;
    var h :| Joined(h) == xs[|p|..] && Each(Listed(p), h);
    var all := [xs[..|p|]] + h;
    assert Each(Listed(p), all);
    hide Each;
    assert all[1..] == h && Joined(all) == xs[..|p|] + xs[|p|..] == xs;
  }

  lemma FirstVerified(p: seq<Provider>, xs: Events) returns (first: Events)
    requires xs != [] && Verifications(p, xs)
    ensures AnswersOnce(Listed(p), Reconcile, first) && |first| <= |xs| && xs[..|first|] == first
    ensures Verifications(p, xs[|first|..])
  {
    hide AnswersOnce, Listed;
    var h :| Joined(h) == xs && Each(Listed(p), h);
    first := h[0];
    assert xs == first + Joined(h[1..]);
    assert xs[|first|..] == Joined(h[1..]);
  }

  /** The search for a split finds one exactly when the two events lists branch into verifications. */
  lemma SplitMeaning(p: seq<Provider>, xs: Events, ys: Events)
    requires p != [] && |R.Ids(p)| == |p|
    ensures (exists at: nat :: Split(p, xs, ys, at)) <==> OneHistory(p, xs, ys)
  {
    forall zs ensures Batches(p, zs) <==> Verifications(p, zs) { BatchesMeaning(p, zs); }
    hide Batches, Verifications, R.Ids;
    if at: nat :| Split(p, xs, ys, at) {
      assert xs == xs[..at] + xs[at..] && ys == xs[..at] + ys[at..];
      assert Branches(p, xs, ys, xs[..at], xs[at..], ys[at..]);
    }
    if front, tail, other :| Branches(p, xs, ys, front, tail, other) {
      var n := |front|;
      assert xs[..n] == front == ys[..n] && xs[n..] == tail && ys[n..] == other;
      assert Split(p, xs, ys, n);
    }
  }

  lemma ReplaysMeaning(a: R.Transaction, b: R.Transaction)
    ensures Replays(a, b) <==> OneRun(a, b) && OneHistory(a.providers, a.events, b.events)
  {
    CoreMeaning(a, b);
    if SameCore(a, b) && a.providers != [] { SplitMeaning(a.providers, a.events, b.events); }
    hide Split, OneRun, Branches;
  }
}
