/** Exactly-once delivery of external actions, from external-actions.ts.

  The local store writes one batch in one atomic replace; the HTTP dispatcher asks a receiver
  first and records afterwards, so a crash in between leaves an effect the store has not seen.
*/
module ExternalActions {
  import opened Faults

  datatype Intent = Intent(id: string, kind: string, destination: string, subject: string, payloadHash: string,
    key: string)

  datatype Receipt = Receipt(key: string, runId: string, intentId: string, kind: string, destination: string,
                             subject: string, payloadHash: string, mode: string, at: string)

  type Deliveries = seq<Receipt>

  /** assertReceiptMatchesIntent. */
  predicate Answers(r: Receipt, mode: string, runId: string, i: Intent) {
    r.key == i.key && r.mode == mode && r.runId == runId && r.intentId == i.id && r.kind == i.kind
    && r.destination == i.destination && r.subject == i.subject && r.payloadHash == i.payloadHash
  }

  /** The receipt is for this very action of this Run. */
  predicate SameAction(r: Receipt, mode: string, runId: string, i: Intent) {
    r == Receipt(i.key, runId, i.id, i.kind, i.destination, i.subject, i.payloadHash, mode, r.at)
  }

  lemma AnswersMeaning(r: Receipt, mode: string, runId: string, i: Intent)
    ensures Answers(r, mode, runId, i) <==> SameAction(r, mode, runId, i)
  {
  }

  /** One delivery per idempotency key and one per (Run, intent), as the store's parser demands. */
  predicate Unique(ds: Deliveries) {
    forall i, j | 0 <= i < j < |ds| ::
      ds[i].key != ds[j].key && (ds[i].runId, ds[i].intentId) != (ds[j].runId, ds[j].intentId)
  }

  /** A delivery that claims the intent, by key or by identity. */
  predicate Claims(r: Receipt, runId: string, i: Intent) { r.key == i.key || (r.runId == runId && r.intentId == i.id) }

  function FindReceiptForIntent(ds: Deliveries, runId: string, i: Intent): Option<Receipt> {
    if ds == [] then None else if Claims(ds[0], runId, i) then Some(ds[0]) else FindReceiptForIntent(ds[1..], runId, i)
  }

  lemma {:induction false} FoundClaims(ds: Deliveries, runId: string, i: Intent)
    ensures var f := FindReceiptForIntent(ds, runId, i);
      if f.Some? then f.value in ds && Claims(f.value, runId, i) else forall r | r in ds :: !Claims(r, runId, i)
  {
    if ds != [] {
      FoundClaims(ds[1..], runId, i);
      assert ds == [ds[0]] + ds[1..];
    }
  }

  /** In a store with unique deliveries an intent's own receipt is the only one that claims it. */
  lemma OwnReceiptFound(ds: Deliveries, mode: string, runId: string, i: Intent, r: Receipt)
    requires Unique(ds) && r in ds && Answers(r, mode, runId, i)
    ensures FindReceiptForIntent(ds, runId, i) == Some(r)
  {
    FoundClaims(ds, runId, i);
  }

  lemma UniquePush(ds: Deliveries, r: Receipt)
    requires Unique(ds) && forall d | d in ds :: d.key != r.key && (d.runId, d.intentId) != (r.runId, r.intentId)
    ensures Unique(ds + [r])
  {
    forall i, j | 0 <= i < j < |ds + [r]|
      ensures (ds + [r])[i].key != (ds + [r])[j].key
      ensures ((ds + [r])[i].runId, (ds + [r])[i].intentId) != ((ds + [r])[j].runId, (ds + [r])[j].intentId)
    {
      assert ds[i] in ds;
    }
  }

  /** The receipts answer the intents, in order, and stand in the store. */
  ghost predicate Served(ds: Deliveries, mode: string, runId: string, intents: seq<Intent>, receipts: seq<Receipt>) {
    |receipts| == |intents| && forall k | 0 <= k < |receipts| ::
      receipts[k] in ds && Answers(receipts[k], mode, runId, intents[k])
  }

  ghost predicate Asked(r: Receipt, mode: string, runId: string, intents: seq<Intent>) {
    exists i | i in intents :: Answers(r, mode, runId, i)
  }

  /** What a store may become: it keeps its deliveries, and every new one answers an intent asked for. */
  ghost predicate Grown(before: Deliveries, after: Deliveries, mode: string, runId: string, intents: seq<Intent>) {
    && before <= after && Unique(after)
    && forall k | |before| <= k < |after| :: Asked(after[k], mode, runId, intents)
  }

  /** Served twice from stores one of which grew into the other, an intent has one receipt. */
  lemma ServedOnce(ds: Deliveries, later: Deliveries, mode: string, runId: string, intents: seq<Intent>,
                   r: seq<Receipt>, s: seq<Receipt>)
    requires Unique(later) && ds <= later
    requires Served(ds, mode, runId, intents, r) && Served(later, mode, runId, intents, s)
    ensures r == s
  {
    forall k | 0 <= k < |r| ensures r[k] == s[k] {
      assert r[k] in later && s[k] in later;
    }
  }

  // ---- Which batches are served ----

  /** A delivery claims the intent without answering it. */
  ghost predicate Contradicted(ds: Deliveries, mode: string, runId: string, i: Intent) {
    exists r :: r in ds && Claims(r, runId, i) && !Answers(r, mode, runId, i)
  }

  ghost predicate Claimed(ds: Deliveries, runId: string, i: Intent) { exists r :: r in ds && Claims(r, runId, i) }

  /** Intents of one batch that share a key or an identity are the same intent. */
  ghost predicate Consistent(intents: seq<Intent>) {
    forall j, k | 0 <= j < k < |intents| ::
      intents[j].key == intents[k].key || intents[j].id == intents[k].id ==> intents[j] == intents[k]
  }

  /** What has been served agrees with an intent that the store does not contradict. */
  lemma ServedConsistent(ds: Deliveries, mode: string, runId: string, intents: seq<Intent>, receipts: seq<Receipt>,
                         i: Intent)
    requires Served(ds, mode, runId, intents, receipts) && !Contradicted(ds, mode, runId, i) && Consistent(intents)
    ensures Consistent(intents + [i])
  {
    forall j | 0 <= j < |intents| && (intents[j].key == i.key || intents[j].id == i.id) ensures intents[j] == i {
      assert receipts[j] in ds && Claims(receipts[j], runId, i);
    }
  }

  /** An intent is contradicted by what a consistent batch adds only if it was before. */
  lemma GrownContradicts(before: Deliveries, after: Deliveries, mode: string, runId: string, intents: seq<Intent>,
                         i: Intent)
    requires Grown(before, after, mode, runId, intents) && Consistent(intents + [i])
    ensures Contradicted(before, mode, runId, i) <==> Contradicted(after, mode, runId, i)
  {
    var all := intents + [i];
    forall j | j in intents && (j.key == i.key || j.id == i.id) ensures j == i {
      var n :| 0 <= n < |intents| && intents[n] == j;
      assert all[n] == j && all[|intents|] == i;
    }
    assert forall r | r in after && Claims(r, runId, i) && !Answers(r, mode, runId, i) :: r in before;
    assert forall r | r in before :: r in after;
  }

  function KeysOf(ds: Deliveries): set<string> { set d | d in ds :: d.key }

  /** A store only gains keys that were asked for, and each key keeps its receipt. */
  lemma GrownKeys(before: Deliveries, after: Deliveries, mode: string, runId: string, intents: seq<Intent>)
    requires Grown(before, after, mode, runId, intents)
    ensures KeysOf(before) <= KeysOf(after) <= KeysOf(before) + set i | i in intents :: i.key
    ensures forall b, a | b in before && a in after && a.key == b.key :: a == b
  {
    forall d | d in after ensures d.key in KeysOf(before) + set i | i in intents :: i.key {
      var k :| 0 <= k < |after| && after[k] == d;
      if k < |before| { assert d in before; }
    }
    forall b, a | b in before && a in after && a.key == b.key ensures a == b {
      assert b in after;
    }
  }

  // ---- The local store ----

  class LocalStore {
    const mode: string
    var deliveries: Deliveries

    constructor (mode: string)
      ensures this.mode == mode && deliveries == [] && Unique(deliveries)
    {
      this.mode := mode;
      deliveries := [];
    }

    /** All intents of a batch or none: a contradiction, with the store or within the batch, throws before anything is
      written; in calm weather nothing else does. */
    method Dispatch(runId: string, intents: seq<Intent>, calm: bool) returns (o: Outcome<seq<Receipt>>)
      requires Unique(deliveries)
      modifies this
      ensures Grown(old(deliveries), deliveries, mode, runId, intents)
      ensures o.Ok? ==> Served(deliveries, mode, runId, intents, o.value)
      ensures o.Ok? ==> |o.value| == |intents| && forall k | 0 <= k < |intents| ::
        o.value[k] in deliveries && SameAction(o.value[k], mode, runId, intents[k])
      ensures deliveries == old(deliveries) || exists receipts :: Served(deliveries, mode, runId, intents, receipts)
      ensures !Servable(old(deliveries), mode, runId, intents) ==> o.Thrown? && deliveries == old(deliveries)
      ensures calm ==> (o.Ok? <==> Servable(old(deliveries), mode, runId, intents))
    {
      var database, receipts: seq<Receipt> := deliveries, [];
      for k := 0 to |intents|
        invariant deliveries == old(deliveries) && Grown(deliveries, database, mode, runId, intents[..k])
        invariant Served(database, mode, runId, intents[..k], receipts)
        invariant Servable(deliveries, mode, runId, intents[..k])
      {
        ghost var before := database;
        var one, receipt := ServeOne(database, mode, runId, intents[k]);
        ServableNext(deliveries, before, mode, runId, intents, receipts, k);
        if one.None? {
          return Thrown;
        }
        database := one.value;
        GrownNext(deliveries, before, database, mode, runId, intents, k);
        receipts := receipts + [receipt];
      }
      assert intents[..|intents|] == intents;
      var fate := Next(calm);
      if |intents| > 0 && fate.Acts() {
        deliveries := database;
      }
      if |intents| == 0 {
        return Ok(receipts);
      }
      o := Ends(fate, receipts);
    }
  }

  /** No intent of the batch is contradicted, by the store or by another of them. */
  ghost predicate Servable(ds: Deliveries, mode: string, runId: string, intents: seq<Intent>) {
    Consistent(intents) && forall i | i in intents :: !Contradicted(ds, mode, runId, i)
  }

  /** A batch is served by the local store exactly when whatever delivery has the key of one of its intents, or its
    Run and identifier, is for that very action, and two intents that share a key or an identifier are one. */
  lemma ServableMeaning(ds: Deliveries, mode: string, runId: string, intents: seq<Intent>)
    ensures Servable(ds, mode, runId, intents) <==>
      && (forall i, r | i in intents && r in ds && (r.key == i.key || (r.runId == runId && r.intentId == i.id)) ::
            SameAction(r, mode, runId, i))
      && (forall i, j | i in intents && j in intents && (i.key == j.key || i.id == j.id) :: i == j)
  {
    assert (forall i, j | i in intents && j in intents && (i.key == j.key || i.id == j.id) :: i == j) <==>
           Consistent(intents) by {
      if Consistent(intents) {
        forall i, j | i in intents && j in intents && (i.key == j.key || i.id == j.id) ensures i == j {
          var m, n :| 0 <= m < |intents| && 0 <= n < |intents| && intents[m] == i && intents[n] == j;
          assert m < n || n < m || m == n;
        }
      }
    }
    forall i ensures !Contradicted(ds, mode, runId, i) <==>
      forall r | r in ds && (r.key == i.key || (r.runId == runId && r.intentId == i.id)) ::
        SameAction(r, mode, runId, i)
    {
      ContradictedMeaning(ds, mode, runId, i);
    }
  }

  lemma ContradictedMeaning(ds: Deliveries, mode: string, runId: string, i: Intent)
    ensures !Contradicted(ds, mode, runId, i) <==>
      forall r | r in ds && (r.key == i.key || (r.runId == runId && r.intentId == i.id)) ::
        SameAction(r, mode, runId, i)
  {
    forall r ensures Answers(r, mode, runId, i) <==> SameAction(r, mode, runId, i) {
      AnswersMeaning(r, mode, runId, i);
    }
    hide Answers, SameAction;
    if !Contradicted(ds, mode, runId, i) {
      forall r | r in ds && (r.key == i.key || (r.runId == runId && r.intentId == i.id))
        ensures SameAction(r, mode, runId, i)
      {
        assert Claims(r, runId, i);
      }
    }
  }

  lemma ServableNext(ds: Deliveries, database: Deliveries, mode: string, runId: string, intents: seq<Intent>,
                     receipts: seq<Receipt>, k: nat)
    requires k < |intents| && Servable(ds, mode, runId, intents[..k])
    requires Grown(ds, database, mode, runId, intents[..k]) && Served(database, mode, runId, intents[..k], receipts)
    ensures Servable(ds, mode, runId, intents[..k + 1]) <==> !Contradicted(database, mode, runId, intents[k])
    ensures Servable(ds, mode, runId, intents) ==> Servable(ds, mode, runId, intents[..k + 1])
  {
    var done, i := intents[..k], intents[k];
    assert intents[..k + 1] == done + [i];
    hide Contradicted, Served, Grown;
    if !Contradicted(database, mode, runId, i) { ServedConsistent(database, mode, runId, done, receipts, i); }
    if Consistent(done + [i]) { GrownContradicts(ds, database, mode, runId, done, i); }
  }

  lemma GrownWider(a: Deliveries, b: Deliveries, mode: string, runId: string, some: seq<Intent>, all: seq<Intent>)
    requires Grown(a, b, mode, runId, some) && forall i | i in some :: i in all
    ensures Grown(a, b, mode, runId, all)
  {
  }

  lemma GrownNext(a: Deliveries, b: Deliveries, c: Deliveries, mode: string, runId: string, intents: seq<Intent>,
                  k: nat)
    requires k < |intents| && Grown(a, b, mode, runId, intents[..k]) && Grown(b, c, mode, runId, [intents[k]])
    ensures Grown(a, c, mode, runId, intents[..k + 1])
  {
    var done := intents[..k + 1];
    assert done == intents[..k] + [intents[k]];
    GrownWider(a, b, mode, runId, intents[..k], done);
    GrownMore(a, b, c, mode, runId, done, intents[k]);
  }

  /** One intent against the store in memory: the delivery that claims it, or a new one. */
  method ServeOne(database: Deliveries, mode: string, runId: string, i: Intent)
    returns (next: Option<Deliveries>, receipt: Receipt)
    requires Unique(database)
    ensures next.Some? ==>
      Grown(database, next.value, mode, runId, [i]) && receipt in next.value && Answers(receipt, mode, runId, i)
    ensures next.None? <==> Contradicted(database, mode, runId, i)
  {
    FoundClaims(database, runId, i);
    var existing := FindReceiptForIntent(database, runId, i);
    var at: string := *;
    receipt := Receipt(i.key, runId, i.id, i.kind, i.destination, i.subject, i.payloadHash, mode, at);
    if existing.Some? {
      receipt := existing.value;
      if Answers(receipt, mode, runId, i) {
        return Some(database), receipt;
      }
      return None, receipt;
    }
    UniquePush(database, receipt);
    assert i in [i];
    return Some(database + [receipt]), receipt;
  }

  /** However many other batches, failures and crashes come between, dispatching again returns
    the first receipts in intent order. */
  method DispatchAgain(store: LocalStore, runId: string, intents: seq<Intent>, others: seq<(string, seq<Intent>)>)
    returns (first: Outcome<seq<Receipt>>, second: Outcome<seq<Receipt>>)
    requires Unique(store.deliveries)
    modifies store
    ensures Unique(store.deliveries) && old(store.deliveries) <= store.deliveries
    ensures first.Ok? && second.Ok? ==> first.value == second.value
  {
    first := store.Dispatch(runId, intents, false);
    ghost var between := store.deliveries;
    for k := 0 to |others|
      invariant Unique(store.deliveries) && between <= store.deliveries && old(store.deliveries) <= store.deliveries
    {
      var o := store.Dispatch(others[k].0, others[k].1, false);
    }
    second := store.Dispatch(runId, intents, false);
    if first.Ok? && second.Ok? {
      ServedOnce(between, store.deliveries, store.mode, runId, intents, first.value, second.value);
    }
  }

  // ---- The trusted receiver and the HTTP dispatcher ----

  /** Assumed: the receiver carries an effect out once per idempotency key and replays the
    receipt it gave, whether or not the first answer arrived. */
  class Receiver {
    var receipts: map<string, Receipt>
    /** The keys of the effects carried out, in order. */
    var effects: seq<string>

    ghost predicate Valid()
      reads this
    {
      && (forall i, j | 0 <= i < j < |effects| :: effects[i] != effects[j])
      && (forall k | k in effects :: k in receipts && receipts[k].key == k)
      && forall k | k in receipts :: k in effects
    }

    constructor ()
      ensures Valid() && receipts == map[] && effects == []
    {
      receipts, effects := map[], [];
    }

    method Post(request: Receipt, calm: bool) returns (o: Outcome<Receipt>)
      requires Valid()
      modifies this
      ensures Valid() && old(effects) <= effects
      ensures forall k | k in old(receipts) :: k in receipts && receipts[k] == old(receipts)[k]
      ensures receipts.Keys <= old(receipts.Keys) + {request.key}
      ensures o.Ok? ==> request.key in receipts && o.value == receipts[request.key]
      ensures request.key !in old(receipts) && request.key in receipts ==> receipts[request.key] == request
      ensures calm ==> o.Ok?
    {
      var fate := Next(calm);
      if fate.Acts() && request.key !in receipts {
        receipts := receipts[request.key := request];
        effects := effects + [request.key];
      }
      o := if request.key in receipts then Ends(fate, receipts[request.key]) else if fate.CrashBefore? then Crashed
      else Thrown;
    }
  }

  /** The dispatcher can hand out the intent's recorded receipt, or post it where posting is allowed and take the
    receipt that the receiver gave or will give. */
  ghost predicate Postable(ds: Deliveries, given: map<string, Receipt>, mode: string, allowed: string, runId: string,
                           i: Intent) {
    && !Contradicted(ds, mode, runId, i)
    && (Claimed(ds, runId, i) ||
      (i.destination == allowed && (i.key in given ==> Answers(given[i.key], mode, runId, i))))
  }

  ghost predicate AllPostable(ds: Deliveries, given: map<string, Receipt>, mode: string, allowed: string, runId: string,
                              intents: seq<Intent>) {
    Consistent(intents) && forall i | i in intents :: Postable(ds, given, mode, allowed, runId, i)
  }

  /** What the receiver has given on the way: nothing is taken back, and only keys asked for, where
    posting is allowed, are new. */
  ghost predicate GivenMore(before: map<string, Receipt>, after: map<string, Receipt>, allowed: string,
                            intents: seq<Intent>) {
    && (forall k | k in before :: k in after && after[k] == before[k])
    && forall k | k in after :: k in before || exists i | i in intents :: i.key == k && i.destination == allowed
  }

  /** With the first `k` intents served, the next is postable exactly when it was at the start and agrees with them. */
  lemma PostableNext(ds: Deliveries, given: map<string, Receipt>, now: Deliveries, givenNow: map<string, Receipt>,
                     mode: string, allowed: string, runId: string, intents: seq<Intent>, receipts: seq<Receipt>, k: nat)
    requires k < |intents| && AllPostable(ds, given, mode, allowed, runId, intents[..k])
    requires Grown(ds, now, mode, runId, intents[..k]) && Served(now, mode, runId, intents[..k], receipts)
    requires GivenMore(given, givenNow, allowed, intents[..k])
    ensures AllPostable(ds, given, mode, allowed, runId, intents[..k + 1]) <==>
      Postable(now, givenNow, mode, allowed, runId, intents[k])
    ensures AllPostable(ds, given, mode, allowed, runId, intents) ==>
      AllPostable(ds, given, mode, allowed, runId, intents[..k + 1])
  {
    var done, i := intents[..k], intents[k];
    assert intents[..k + 1] == done + [i] && i in done + [i];
    if Postable(now, givenNow, mode, allowed, runId, i) {
      ServedConsistent(now, mode, runId, done, receipts, i);
      GrownContradicts(ds, now, mode, runId, done, i);
      WasPostable(ds, given, now, givenNow, mode, allowed, runId, done, i);
    }
    if AllPostable(ds, given, mode, allowed, runId, done + [i]) {
      GrownContradicts(ds, now, mode, runId, done, i);
      StillPostable(ds, given, now, givenNow, mode, allowed, runId, done, receipts, i);
    }
  }

  lemma WasPostable(ds: Deliveries, given: map<string, Receipt>, now: Deliveries, givenNow: map<string, Receipt>,
                    mode: string, allowed: string, runId: string, done: seq<Intent>, i: Intent)
    requires AllPostable(ds, given, mode, allowed, runId, done) && Grown(ds, now, mode, runId, done)
    requires GivenMore(given, givenNow, allowed, done) && Postable(now, givenNow, mode, allowed, runId, i)
    requires !Contradicted(ds, mode, runId, i)
    ensures Postable(ds, given, mode, allowed, runId, i)
  {
    if n: nat :| n < |now| && Claims(now[n], runId, i) {
      assert Answers(now[n], mode, runId, i);
      if n < |ds| {
        assert now[n] == ds[n];
      } else {
        var j :| j in done && Answers(now[n], mode, runId, j);
        assert i == j;
      }
    }
  }

  lemma StillPostable(ds: Deliveries, given: map<string, Receipt>, now: Deliveries, givenNow: map<string, Receipt>,
                      mode: string,
                      allowed: string, runId: string, done: seq<Intent>, receipts: seq<Receipt>, i: Intent)
    requires Consistent(done + [i]) && Postable(ds, given, mode, allowed, runId, i)
    requires !Contradicted(now, mode, runId, i)
    requires Grown(ds, now, mode, runId, done) && Served(now, mode, runId, done, receipts)
    requires GivenMore(given, givenNow, allowed, done)
    ensures Postable(now, givenNow, mode, allowed, runId, i)
  {
    if r :| r in ds && Claims(r, runId, i) { assert r in now; }
    if i.key in givenNow && i.key !in given {
      var j :| j in done && j.key == i.key;
      var n :| 0 <= n < |done| && done[n] == j;
      assert (done + [i])[n] == j && (done + [i])[|done|] == i;
      assert receipts[n] in now && Claims(receipts[n], runId, i);
    }
  }

  class HttpDispatcher {
    const mode: string
    const allowedDestination: string
    const receiver: Receiver
    var deliveries: Deliveries

    constructor (mode: string, allowedDestination: string, receiver: Receiver)
      ensures this.mode == mode && this.allowedDestination == allowedDestination && this.receiver == receiver
      ensures deliveries == []
    {
      this.mode, this.allowedDestination, this.receiver, deliveries := mode, allowedDestination, receiver, [];
    }

    /** Every recorded delivery is one the receiver carried out, with the receipt it gave. */
    ghost predicate Valid()
      reads this, receiver
    {
      receiver.Valid() && Unique(deliveries) && forall d | d in deliveries ::
        d.key in receiver.receipts && receiver.receipts[d.key] == d
    }

    /** One intent: the recorded receipt, or the receiver's, recorded before the next. */
    method DispatchOne(runId: string, i: Intent, calm: bool) returns (o: Outcome<Receipt>)
      requires Valid()
      modifies this, receiver
      ensures Valid() && Grown(old(deliveries), deliveries, mode, runId, [i])
      ensures old(receiver.effects) <= receiver.effects
      ensures GivenMore(old(receiver.receipts), receiver.receipts, allowedDestination, [i])
      ensures o.Ok? ==> o.value in deliveries && Answers(o.value, mode, runId, i)
      ensures o.Ok? ==> Postable(old(deliveries), old(receiver.receipts), mode, allowedDestination, runId, i)
      ensures Claimed(old(deliveries), runId, i) ==>
        deliveries == old(deliveries) && receiver.receipts == old(receiver.receipts)
      ensures calm ==>
        (o.Ok? <==> Postable(old(deliveries), old(receiver.receipts), mode, allowedDestination, runId, i))
    {
      var existing := FindReceiptForIntent(deliveries, runId, i);
      FoundClaims(deliveries, runId, i);
      if existing.Some? {
        return if Answers(existing.value, mode, runId, i) then Ok(existing.value) else Thrown;
      }
      if i.destination != allowedDestination {
        return Thrown;
      }
      var at: string := *;
      var request := Receipt(i.key, runId, i.id, i.kind, i.destination, i.subject, i.payloadHash, mode, at);
      var posted := receiver.Post(request, calm);
      if !posted.Ok? {
        return posted;
      }
      o := Record(runId, i, posted.value, calm);
    }

    /** The receiver's answer is checked, then recorded. */
    method Record(runId: string, i: Intent, receipt: Receipt, calm: bool) returns (o: Outcome<Receipt>)
      requires Valid() && receipt.key in receiver.receipts && receiver.receipts[receipt.key] == receipt
      requires forall d | d in deliveries :: !Claims(d, runId, i)
      modifies this
      ensures Valid() && Grown(old(deliveries), deliveries, mode, runId, [i])
      ensures o.Ok? ==> o == Ok(receipt) && receipt in deliveries && Answers(receipt, mode, runId, i)
      ensures calm ==> (o.Ok? <==> Answers(receipt, mode, runId, i))
    {
      if !Answers(receipt, mode, runId, i) {
        return Thrown;
      }
      assert i in [i];
      UniquePush(deliveries, receipt);
      var fate := Next(calm);
      if fate.Acts() {
        deliveries := deliveries + [receipt];
      }
      o := Ends(fate, receipt);
    }

    /** Intent by intent. In calm weather the batch returns exactly when all of it could be posted from the start and no
      two of its intents claim each other. */
    method Dispatch(runId: string, intents: seq<Intent>, calm: bool) returns (o: Outcome<seq<Receipt>>)
      requires Valid()
      modifies this, receiver
      ensures Valid() && Grown(old(deliveries), deliveries, mode, runId, intents)
      ensures old(receiver.effects) <= receiver.effects
      ensures GivenMore(old(receiver.receipts), receiver.receipts, allowedDestination, intents)
      ensures o.Ok? ==> Served(deliveries, mode, runId, intents, o.value)
      ensures o.Ok? ==> |o.value| == |intents| && forall k | 0 <= k < |intents| ::
        o.value[k] in deliveries && SameAction(o.value[k], mode, runId, intents[k])
      ensures o.Ok? ==> AllPostable(old(deliveries), old(receiver.receipts), mode, allowedDestination, runId, intents)
      ensures calm ==>
        (o.Ok? <==> AllPostable(old(deliveries), old(receiver.receipts), mode, allowedDestination, runId, intents))
    {
      var receipts: seq<Receipt> := [];
      for k := 0 to |intents|
        invariant Valid() && Grown(old(deliveries), deliveries, mode, runId, intents[..k])
        invariant old(receiver.effects) <= receiver.effects
        invariant GivenMore(old(receiver.receipts), receiver.receipts, allowedDestination, intents[..k])
        invariant Served(deliveries, mode, runId, intents[..k], receipts)
        invariant AllPostable(old(deliveries), old(receiver.receipts), mode, allowedDestination, runId, intents[..k])
      {
        ghost var before, given := deliveries, receiver.receipts;
        PostableNext(old(deliveries), old(receiver.receipts), before, given, mode, allowedDestination, runId, intents,
          receipts, k);
        var one := DispatchOne(runId, intents[k], calm);
        GrownNext(old(deliveries), before, deliveries, mode, runId, intents, k);
        GivenNext(old(receiver.receipts), given, receiver.receipts, allowedDestination, intents, k);
        if !one.Ok? {
          BatchPart(old(deliveries), deliveries, mode, allowedDestination, runId, intents, old(receiver.receipts),
          receiver.receipts,
            k + 1);
          return if one.Thrown? then Thrown else Crashed;
        }
        ServedNext(before, deliveries, mode, runId, intents, receipts, one.value, k);
        receipts := receipts + [one.value];
      }
      assert intents[..|intents|] == intents;
      return Ok(receipts);
    }

    /** A batch that returned was carried out exactly once, whatever came before it: each intent's
      key occurs once among the receiver's effects, with the receipt returned. */
    lemma ServedExactlyOnce(runId: string, intents: seq<Intent>, receipts: seq<Receipt>, k: nat)
      requires Valid() && Served(deliveries, mode, runId, intents, receipts) && k < |intents|
      ensures intents[k].key in receiver.receipts && receiver.receipts[intents[k].key] == receipts[k]
      ensures exists i :: OnlyAt(receiver.effects, intents[k].key, i)
    {
      var d := receipts[k];
      assert d in deliveries && d.key in receiver.effects;
      var i :| 0 <= i < |receiver.effects| && receiver.effects[i] == d.key;
      assert OnlyAt(receiver.effects, d.key, i);
    }
  }

  lemma GivenNext(a: map<string, Receipt>, b: map<string, Receipt>, c: map<string, Receipt>, allowed: string,
                  intents: seq<Intent>, k: nat)
    requires k < |intents| && GivenMore(a, b, allowed, intents[..k]) && GivenMore(b, c, allowed, [intents[k]])
    ensures GivenMore(a, c, allowed, intents[..k + 1])
  {
    assert intents[..k + 1] == intents[..k] + [intents[k]];
  }

  lemma ServedNext(before: Deliveries, after: Deliveries, mode: string, runId: string, intents: seq<Intent>,
                   receipts: seq<Receipt>, receipt: Receipt, k: nat)
    requires k < |intents| && Served(before, mode, runId, intents[..k], receipts) && before <= after
    requires receipt in after && Answers(receipt, mode, runId, intents[k])
    ensures Served(after, mode, runId, intents[..k + 1], receipts + [receipt])
  {
    assert forall r | r in before :: r in after;
  }

  /** What part of a batch did, the batch may have done. */
  lemma BatchPart(a: Deliveries, b: Deliveries, mode: string, allowed: string, runId: string, intents: seq<Intent>,
                  given: map<string, Receipt>, givenNow: map<string, Receipt>, k: nat)
    requires k <= |intents| && Grown(a, b, mode, runId, intents[..k])
    requires GivenMore(given, givenNow, allowed, intents[..k])
    ensures Grown(a, b, mode, runId, intents) && GivenMore(given, givenNow, allowed, intents)
  {
    GrownWider(a, b, mode, runId, intents[..k], intents);
  }

  predicate OnlyAt(effects: seq<string>, key: string, i: nat) {
    i < |effects| && effects[i] == key && forall j | 0 <= j < |effects| && j != i :: effects[j] != key
  }

  lemma GrownMore(a: Deliveries, b: Deliveries, c: Deliveries, mode: string, runId: string, intents: seq<Intent>,
                  i: Intent)
    requires Grown(a, b, mode, runId, intents) && Grown(b, c, mode, runId, [i]) && i in intents
    ensures Grown(a, c, mode, runId, intents)
  {
    forall k | |a| <= k < |c| ensures Asked(c[k], mode, runId, intents) {
      assert k < |b| ==> c[k] == b[k];
    }
  }
}
