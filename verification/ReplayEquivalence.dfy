/** When agent-service.ts treats two recovered Promotions as one decision.

  The code searches backwards from the longest common prefix for a split that leaves whole
  reconcile batches on both sides. The relation is defined here without that search.
*/
module ReplayEquivalence {
  import opened RecoveryEvents
  import opened RecoveryNormaliser

  /** One passed reconcile event for each provider. */
  predicate Batch(p: seq<Provider>, xs: Events) {
    && |xs| == |p|
    && (forall i | 0 <= i < |xs| :: RecoveryEvent(p, xs[i]))
    && (forall i, j | 0 <= i < j < |xs| :: xs[i].provider.id != xs[j].provider.id)
  }

  /** Whole batches and nothing else. */
  predicate Batches(p: seq<Provider>, xs: Events)
    decreases |xs|
  {
    xs == [] || (0 < |p| <= |xs| && Batch(p, xs[..|p|]) && Batches(p, xs[|p|..]))
  }

  /** Without providers every list passes. */
  method IsExactPromotionReconciliationSequence(p: seq<Provider>, events: Events) returns (ok: bool)
    ensures ok <==> p == [] || Batches(p, events)
  {
    if |p| == 0 || |events| == 0 {
      return true;
    }
    if |events| % |p| != 0 {
      if Batches(p, events) { BatchesDivide(p, events); }
      return false;
    }
    var offset := 0;
    assert events[0..] == events;
    while offset < |events|
      invariant offset <= |events| && (|events| - offset) % |p| == 0
      invariant Batches(p, events) == Batches(p, events[offset..])
      decreases |events| - offset
    {
      WholeStep(|events| - offset, |p|);
      var batch := events[offset..offset + |p|];
      var whole := IsBatch(p, batch);
      assert events[offset..][..|p|] == batch;
      assert events[offset..][|p|..] == events[offset + |p|..];
      if !whole {
        return false;
      }
      offset := offset + |p|;
    }
    return true;
  }

  method IsBatch(p: seq<Provider>, batch: Events) returns (ok: bool)
    requires |batch| == |p|
    ensures ok == Batch(p, batch)
  {
    var seen: set<string> := {};
    for i := 0 to |batch|
      invariant seen == set k | 0 <= k < i :: batch[k].provider.id
      invariant forall k | 0 <= k < i :: RecoveryEvent(p, batch[k])
      invariant forall k, l | 0 <= k < l < i :: batch[k].provider.id != batch[l].provider.id
    {
      var event := batch[i];
      if !RecoveryEvent(p, event) || event.provider.id in seen {
        return false;
      }
      seen := seen + {event.provider.id};
    }
    return true;
  }

  lemma WholeStep(m: nat, n: nat)
    requires 0 < m && 0 < n && m % n == 0
    ensures n <= m && (m - n) % n == 0
  {
    SmallRemainder(m, n);
    Shift(m - n, n);
  }

  lemma SmallRemainder(m: nat, n: nat)
    ensures m < n ==> m % n == m
  {
  }

  lemma Shift(m: nat, n: nat)
    requires 0 < n
    ensures (m + n) % n == m % n
  {
    var q := (m + n) / n;
    assert m + n == q * n + (m + n) % n;
    assert m == (q - 1) * n + (m + n) % n;
    Remainder(m, q - 1, (m + n) % n, n);
  }

  lemma Remainder(m: nat, q: int, r: nat, n: nat)
    requires r < n && m == q * n + r
    ensures m % n == r
  {
    var d := m / n - q;
    assert d * n == r - m % n;
    Scaled(d, n);
  }

  lemma Scaled(d: int, n: int)
    requires n >= 0
    ensures d >= 1 ==> d * n >= n
    ensures d <= -1 ==> d * n <= -n
  {
  }

  lemma {:induction false} BatchesDivide(p: seq<Provider>, xs: Events)
    requires p != [] && Batches(p, xs)
    ensures |xs| % |p| == 0
    decreases |xs|
  {
    if xs != [] {
      BatchesDivide(p, xs[|p|..]);
      Shift(|xs| - |p|, |p|);
    }
  }

  // ---- The relation ----

  /** Everything the two transactions must share apart from their events. */
  predicate SameCore(a: Transaction, b: Transaction) {
    && Settled(a) && a.recovered && Settled(b) && b.recovered
    && |Ids(a.providers)| == |a.providers|
    && a.(events := []) == b.(events := [])
  }

  predicate Split(p: seq<Provider>, xs: Events, ys: Events, at: nat) {
    && at <= |xs| && at <= |ys|
    && xs[..at] == ys[..at]
    && !(at == |xs| && at == |ys|)
    && Batches(p, xs[at..]) && Batches(p, ys[at..])
  }

  ghost predicate Replays(a: Transaction, b: Transaction) {
    SameCore(a, b)
    && if a.providers == [] then a.events == b.events
       else exists at: nat :: Split(a.providers, a.events, b.events, at)
  }

  /** The backward search succeeds exactly when some split exists. */
  method IsEquivalentRecoveredPromotionReplay(a: Transaction, b: Transaction) returns (same: bool)
    ensures same <==> Replays(a, b)
  {
    if !(Settled(a) && a.recovered && Settled(b) && b.recovered) {
      return false;
    }
    if |b.providers| != |a.providers| || |Ids(a.providers)| != |a.providers| {
      return false;
    }
    if a.(events := []) != b.(events := []) {
      return false;
    }
    if |a.providers| == 0 {
      return a.events == b.events;
    }
    var common := 0;
    while common < |a.events| && common < |b.events| && a.events[common] == b.events[common]
      invariant common <= |a.events| && common <= |b.events|
      invariant a.events[..common] == b.events[..common]
    {
      common := common + 1;
    }
    SplitsWithin(a.providers, a.events, b.events, common);
    var split := common;
    while split >= 0
      invariant -1 <= split <= common
      invariant forall at: nat | split < at :: !Split(a.providers, a.events, b.events, at)
      decreases split + 1
    {
      assert a.events[..split] == a.events[..common][..split] == b.events[..common][..split] == b.events[..split];
      if !(split == |a.events| && split == |b.events|) {
        var left := IsExactPromotionReconciliationSequence(a.providers, a.events[split..]);
        var right := IsExactPromotionReconciliationSequence(a.providers, b.events[split..]);
        if left && right {
          assert Split(a.providers, a.events, b.events, split);
          return true;
        }
      }
      split := split - 1;
    }
    return false;
  }

  /** No split lies beyond the first difference. */
  lemma SplitsWithin(p: seq<Provider>, xs: Events, ys: Events, common: nat)
    requires common <= |xs| && common <= |ys|
    requires common == |xs| || common == |ys| || xs[common] != ys[common]
    ensures forall at: nat | common < at :: !Split(p, xs, ys, at)
  {
    forall at: nat | common < at ensures !Split(p, xs, ys, at) {
      if at <= |xs| && at <= |ys| { SharedAt(xs, ys, at, common); }
    }
  }

  lemma SharedAt(xs: Events, ys: Events, at: nat, k: nat)
    requires k < at <= |xs| && at <= |ys|
    ensures xs[..at] == ys[..at] ==> xs[k] == ys[k]
  {
    assert xs[..at][k] == xs[k] && ys[..at][k] == ys[k];
  }

  // ---- Its laws ----

  lemma Symmetric(a: Transaction, b: Transaction)
    requires Replays(a, b)
    ensures Replays(b, a)
  {
    if a.providers != [] {
      var at: nat :| Split(a.providers, a.events, b.events, at);
      assert b.providers == a.providers;
      assert Split(b.providers, b.events, a.events, at);
    }
  }

  lemma {:induction false} BatchesJoin(p: seq<Provider>, xs: Events, ys: Events)
    requires p != [] && Batches(p, xs) && Batches(p, ys)
    ensures Batches(p, xs + ys)
    decreases |xs|
  {
    if xs == [] {
      assert xs + ys == ys;
    } else {
      BatchesJoin(p, xs[|p|..], ys);
      assert (xs + ys)[..|p|] == xs[..|p|];
      assert (xs + ys)[|p|..] == xs[|p|..] + ys;
    }
  }

  /** Dropping whole batches from the end leaves whole batches. */
  lemma {:induction false} BatchesFront(p: seq<Provider>, xs: Events, k: nat)
    requires p != [] && Batches(p, xs) && k <= |xs| && k % |p| == 0
    ensures Batches(p, xs[..k])
    decreases |xs|
  {
    if k > 0 {
      WholeStep(k, |p|);
      BatchesFront(p, xs[|p|..], k - |p|);
      assert xs[..k][..|p|] == xs[..|p|];
      assert xs[..k][|p|..] == xs[|p|..][..k - |p|];
    }
  }

  lemma Difference(m: nat, k: nat, n: nat)
    requires 0 < n && k <= m && m % n == 0 && k % n == 0
    ensures (m - k) % n == 0
    decreases k
  {
    if k > 0 {
      WholeStep(k, n);
      WholeStep(m, n);
      Difference(m - n, k - n, n);
    }
  }

  /** Between the starts of two whole remainders of one list lie whole batches. */
  lemma MiddleBatches(p: seq<Provider>, ys: Events, s: nat, t: nat)
    requires p != [] && s <= t <= |ys| && Batches(p, ys[s..]) && Batches(p, ys[t..])
    ensures Batches(p, ys[s..t])
  {
    BatchesDivide(p, ys[s..]);
    BatchesDivide(p, ys[t..]);
    hide Batches;
    Difference(|ys| - s, |ys| - t, |p|);
    BatchesFront(p, ys[s..], t - s);
    assert ys[s..][..t - s] == ys[s..t];
  }

  lemma SplitsCompose(p: seq<Provider>, xs: Events, ys: Events, zs: Events, s: nat, t: nat)
    requires p != [] && Split(p, xs, ys, s) && Split(p, ys, zs, t) && s <= t && xs != zs
    ensures Split(p, xs, zs, s)
  {
    hide Batches;
    MiddleBatches(p, ys, s, t);
    assert ys[s..t] == ys[..t][s..] == zs[..t][s..] == zs[s..t];
    BatchesJoin(p, zs[s..t], zs[t..]);
    assert zs[s..] == zs[s..t] + zs[t..];
    assert xs[..s] == ys[..s] == ys[..t][..s] == zs[..t][..s] == zs[..s];
    assert xs == xs[..s] + xs[s..] && zs == zs[..s] + zs[s..];
  }

  lemma SplitSymmetric(p: seq<Provider>, xs: Events, ys: Events, at: nat)
    requires Split(p, xs, ys, at)
    ensures Split(p, ys, xs, at)
  {
  }

  /** Between distinct transactions the relation is transitive. */
  lemma Transitive(a: Transaction, b: Transaction, c: Transaction)
    requires Replays(a, b) && Replays(b, c) && a != c
    ensures Replays(a, c)
  {
    assert b.providers == a.providers && c.providers == a.providers;
    assert a.(events := []) == c.(events := []);
    assert a == a.(events := []).(events := a.events) && c == c.(events := []).(events := c.events);
    if a.providers != [] {
      var p := a.providers;
      var s: nat :| Split(p, a.events, b.events, s);
      var t: nat :| Split(p, b.events, c.events, t);
      if s <= t {
        SplitsCompose(p, a.events, b.events, c.events, s, t);
      } else {
        SplitSymmetric(p, a.events, b.events, s);
        SplitSymmetric(p, b.events, c.events, t);
        SplitsCompose(p, c.events, b.events, a.events, t, s);
        SplitSymmetric(p, c.events, a.events, t);
      }
    }
  }

  /** A transaction replays itself exactly when it ends in a whole batch (or has no providers). */
  lemma ReflexiveExactly(a: Transaction)
    requires SameCore(a, a)
    ensures Replays(a, a) <==>
      a.providers == [] || (|a.events| >= |a.providers| && Batch(a.providers, a.events[|a.events| - |a.providers|..]))
  {
    var p, n := a.providers, |a.events|;
    if p != [] {
      if Replays(a, a) {
        var at: nat :| Split(p, a.events, a.events, at);
        LastBatch(p, a.events[at..]);
        assert a.events[at..][n - at - |p|..] == a.events[n - |p|..];
      } else if n >= |p| && Batch(p, a.events[n - |p|..]) {
        var last := a.events[n - |p|..];
        assert last[..|p|] == last && last[|p|..] == [];
        assert Split(p, a.events, a.events, n - |p|);
      }
    }
  }

  /** A transaction that does not replay itself: recovered, with a provider, and no event of it. Recovery makes none
    like it: what it returns ends in a whole batch (PromotionLifecycle.RecoveredReplays). */
  lemma NotReflexive(provider: Provider, rest: string)
    ensures var t := Transaction(Promoted, Promoted, true, true, None, [provider], [], rest);
      SameCore(t, t) && !Replays(t, t)
  {
    var t := Transaction(Promoted, Promoted, true, true, None, [provider], [], rest);
    assert [provider][0] == provider;
    assert Ids([provider]) == {provider.id};
    ReflexiveExactly(t);
  }

  lemma {:induction false} LastBatch(p: seq<Provider>, xs: Events)
    requires p != [] && Batches(p, xs) && xs != []
    ensures |p| <= |xs| && Batch(p, xs[|xs| - |p|..])
    decreases |xs|
  {
    var rest := xs[|p|..];
    if rest == [] {
      assert xs[..|p|] == xs[|xs| - |p|..];
    } else {
      LastBatch(p, rest);
      assert rest[|rest| - |p|..] == xs[|xs| - |p|..];
    }
  }

  // ---- Recovery stays inside one class ----

  lemma WholeIsBatch(p: seq<Provider>, xs: Events)
    requires DistinctIds(p) && Whole(p, xs)
    ensures Batch(p, xs)
  {
    WholeCovers(p, xs);
  }

  /** Two recoveries of one unrecovered authority, however they went, are replays of each other. */
  lemma RecoveriesReplay(a: Transaction, r: Transaction, s: Transaction)
    requires UnrecoveredAuthority(a) && a.providers != []
    requires AcceptsRecovery(a, r) && OneWholeAttempt(a, r) && AcceptsRecovery(a, s) && OneWholeAttempt(a, s)
    ensures Replays(r, s)
  {
    var p, at := a.providers, |a.events|;
    CountIds(p);
    var x, y := r.events[at..], s.events[at..];
    WholeIsBatch(p, x);
    WholeIsBatch(p, y);
    assert x[..|p|] == x && x[|p|..] == [] && y[..|p|] == y && y[|p|..] == [];
    assert r.events[..at] == a.events == s.events[..at];
    assert Split(p, r.events, s.events, at);
  }
}
