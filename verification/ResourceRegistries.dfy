/** The constructor of ResourceRegistry in resource-registry.ts: which providers a Run may use at all, and in which
  order they are planned, promoted and reported.

  `le` is the collation: `le(a, b)` says that a is not behind b. It need not tell every two keys apart; the sort is
  stable.
*/
module ResourceRegistries {
  import opened Faults
  import opened PromotionEvidence
  import opened PromotionJournals
  import opened RecoveryTrail
  import opened Sorting
  import E = RecoveryEvents

  datatype Visibility = CanonicalManifest | PostPromotionReconciled | BestEffort
  datatype Reconciliation = Forward | ObserveOnly | NoReconciliation
  datatype Access = NoAccess | ReadOnly | ReadWrite

  /** What a provider claims of itself. */
  datatype Claims = Claims(visibility: Visibility, runKeyed: bool, reconciliation: Reconciliation, retained: bool,
                           discardsAgain: bool, forks: bool, access: Access)

  datatype Manifest = Manifest(providerId: string, kind: string, claims: Claims)

  /** `wellFormed` stands for the remaining schema checks of the manifest and of the initial version. */
  datatype Registration = Registration(manifest: Manifest, wellFormed: bool, required: Option<bool>)

  // ---- One registration ----

  predicate Alphanumeric(c: char) { 'a' <= c <= 'z' || '0' <= c <= '9' }

  predicate Separator(c: char) { c == '.' || c == '-' }

  /** Groups of lower-case letters and digits with single separators in between, beginning with a letter. */
  predicate SafeIdentifier(s: string) {
    && 0 < |s| <= 64 && 'a' <= s[0] <= 'z'
    && (forall i | 0 <= i < |s| :: Alphanumeric(s[i]) || (Separator(s[i]) && i + 1 < |s| && Alphanumeric(s[i + 1])))
  }

  /** assessRequiredResourceEligibility finds no reason against it. */
  predicate Eligible(c: Claims) {
    c.visibility == CanonicalManifest && c.runKeyed && c.reconciliation == Forward && c.retained && c.discardsAgain &&
    c.forks
  }

  predicate Admissible(r: Registration, supported: set<Access>) {
    && r.wellFormed && SafeIdentifier(r.manifest.providerId) && SafeIdentifier(r.manifest.kind)
    && r.manifest.claims.access in supported && r.required != Some(false) && Eligible(r.manifest.claims)
  }

  function Manifests(registrations: seq<Registration>): seq<Manifest> {
    seq(|registrations|, i requires 0 <= i < |registrations| => registrations[i].manifest)
  }

  // ---- Several ----

  function EnvironmentChar(c: char): char {
    if Separator(c) then '_' else if 'a' <= c <= 'z' then (c as int - 32) as char else c
  }

  function EnvironmentName(id: string): string {
    "AIRLOCK_RESOURCE_" + seq(|id|, i requires 0 <= i < |id| => EnvironmentChar(id[i])) + "_PATH"
  }

  predicate Alike(c: char, d: char) { c == d || (Separator(c) && Separator(d)) }

  /** Two providers collide in the Runtime's environment exactly when they differ in nothing but their separators. */
  lemma EnvironmentsCollide(a: string, b: string)
    requires SafeIdentifier(a) && SafeIdentifier(b)
    ensures EnvironmentName(a) == EnvironmentName(b) <==> |a| == |b| && forall i | 0 <= i < |a| :: Alike(a[i], b[i])
  {
    var x, y := EnvironmentName(a), EnvironmentName(b);
    assert |x| == |a| + 22 && |y| == |b| + 22;
    assert forall i | 0 <= i < |a| :: x[i + 17] == EnvironmentChar(a[i]);
    assert forall i | 0 <= i < |b| :: y[i + 17] == EnvironmentChar(b[i]);
    if |a| == |b| {
      forall i | 0 <= i < |a| ensures EnvironmentChar(a[i]) == EnvironmentChar(b[i]) <==> Alike(a[i], b[i]) {
        CharsCollide(a[i], b[i]);
      }
      hide EnvironmentChar, Alike, SafeIdentifier;
      if forall i | 0 <= i < |a| :: Alike(a[i], b[i]) {
        assert x == y;
      } else {
        var i :| 0 <= i < |a| && !Alike(a[i], b[i]);
        assert x[i + 17] != y[i + 17];
      }
    }
  }

  lemma CharsCollide(c: char, d: char)
    requires (Alphanumeric(c) || Separator(c)) && (Alphanumeric(d) || Separator(d))
    ensures EnvironmentChar(c) == EnvironmentChar(d) <==> Alike(c, d)
  {
  }

  predicate Apart(a: Manifest, b: Manifest) {
    a.providerId != b.providerId && a.kind != b.kind && EnvironmentName(a.providerId) != EnvironmentName(b.providerId)
  }

  predicate AllApart(q: seq<Manifest>) { forall i, j | 0 <= i < j < |q| :: Apart(q[i], q[j]) }

  function OrderKey(m: Manifest): string { m.kind + "\0" + m.providerId }

  function ByKey(le: (string, string) -> bool): (Manifest, Manifest) -> bool {
    (a: Manifest, b: Manifest) => le(OrderKey(a), OrderKey(b))
  }

  /** What a registry holds. */
  predicate Registry(q: seq<Manifest>, le: (string, string) -> bool) {
    AllApart(q) && InOrder(ByKey(le), q) && forall i | 0 <= i < |q| :: Eligible(q[i].claims)
  }

  ghost predicate WeakOrder<T(!new)>(le: (T, T) -> bool) {
    (forall a, b :: le(a, b) || le(b, a)) && (forall a, b, c | le(a, b) && le(b, c) :: le(a, c))
  }

  /** The constructor. It admits exactly the registrations that are admissible one by one and apart from each other, and
    holds them in the order of their keys. */
  method BuildRegistry(registrations: seq<Registration>, supported: set<Access>, le: (string, string) -> bool)
    returns (r: Option<seq<Manifest>>)
    requires WeakOrder(le)
    ensures r.Some? <==>
      (forall i | 0 <= i < |registrations| :: Admissible(registrations[i], supported)) &&
      AllApart(Manifests(registrations))
    ensures r.Some? ==> Registry(r.value, le) && multiset(r.value) == multiset(Manifests(registrations))
    ensures r.Some? ==> forall i, j | 0 <= i < j < |r.value| ::
      le(r.value[i].kind + "\0" + r.value[i].providerId, r.value[j].kind + "\0" + r.value[j].providerId)
  {
    hide Admissible, AllApart, InOrder;
    var entries: seq<Manifest> := [];
    for i := 0 to |registrations|
      invariant entries == Manifests(registrations[..i])
      invariant forall k | 0 <= k < i :: Admissible(registrations[k], supported)
    {
      var registration := registrations[i];
      AdmissibleHere(registration, supported);
      if !registration.wellFormed || !SafeIdentifier(registration.manifest.providerId) ||
        !SafeIdentifier(registration.manifest.kind) {
        return None;
      }
      if registration.manifest.claims.access !in supported {
        return None;
      }
      if registration.required == Some(false) {
        return None;
      }
      if !Eligible(registration.manifest.claims) {
        return None;
      }
      entries := entries + [registration.manifest];
    }
    assert registrations[..|registrations|] == registrations;
    entries := Sort(ByKey(le), entries);
    SortedRegistry(registrations, supported, le);
    var distinct := FindDuplicates(entries);
    OrderedByKey(entries, le);
    return if distinct then Some(entries) else None;
  }

  /** The key is the kind, a NUL and the identifier. */
  lemma OrderedByKey(q: seq<Manifest>, le: (string, string) -> bool)
    requires InOrder(ByKey(le), q)
    ensures forall i, j | 0 <= i < j < |q| :: le(q[i].kind + "\0" + q[i].providerId, q[j].kind + "\0" + q[j].providerId)
  {
    forall i, j | 0 <= i < j < |q|
      ensures le(q[i].kind + "\0" + q[i].providerId, q[j].kind + "\0" + q[j].providerId)
    {
      assert ByKey(le)(q[i], q[j]);
      assert le(OrderKey(q[i]), OrderKey(q[j]));
    }
  }

  lemma AdmissibleHere(r: Registration, supported: set<Access>)
    ensures Admissible(r, supported) <==>
      && r.wellFormed && SafeIdentifier(r.manifest.providerId) && SafeIdentifier(r.manifest.kind)
      && r.manifest.claims.access in supported && r.required != Some(false) && Eligible(r.manifest.claims)
  {
  }

  /** The loop over the sorted entries and its three maps: does it end without an error? */
  method FindDuplicates(entries: seq<Manifest>) returns (distinct: bool)
    ensures distinct == AllApart(entries)
  {
    hide EnvironmentName;
    var byProviderId: map<string, Manifest> := map[];
    var byResourceKind: map<string, Manifest> := map[];
    var byEnvironmentName: map<string, Manifest> := map[];
    for i := 0 to |entries|
      invariant byProviderId.Keys == set k | 0 <= k < i :: entries[k].providerId
      invariant byResourceKind.Keys == set k | 0 <= k < i :: entries[k].kind
      invariant byEnvironmentName.Keys == set k | 0 <= k < i :: EnvironmentName(entries[k].providerId)
      invariant AllApart(entries[..i])
    {
      var entry := entries[i];
      var name := EnvironmentName(entry.providerId);
      if entry.providerId in byProviderId || entry.kind in byResourceKind || name in byEnvironmentName {
        var k :| 0 <= k < i && !Apart(entries[k], entry);
        return false;
      }
      assert forall k | 0 <= k < i :: Apart(entries[k], entry);
      byProviderId := byProviderId[entry.providerId := entry];
      byResourceKind := byResourceKind[entry.kind := entry];
      byEnvironmentName := byEnvironmentName[name := entry];
    }
    assert entries[..|entries|] == entries;
    return true;
  }

  // ---- What a registry admits, spelled out ----

  /** 97 to 122 are the letters, 48 to 57 the digits, 45 and 46 the separators. */
  predicate Identifier(s: string) {
    && 1 <= |s| <= 64 && 97 <= s[0] as int <= 122
    && (forall i | 0 <= i < |s| :: 97 <= s[i] as int <= 122 || 48 <= s[i] as int <= 57 || s[i] as int in {45, 46})
    && (forall i | 0 <= i < |s| && s[i] as int in {45, 46} :: i + 1 < |s| && s[i + 1] as int !in {45, 46})
  }

  lemma IdentifierMeaning(s: string)
    ensures SafeIdentifier(s) <==> Identifier(s)
  {
  }

  /** The identifiers differ in more than which separators they use. */
  predicate Distinguished(a: string, b: string) {
    || |a| != |b|
    || exists i :: 0 <= i < |a| && a[i] != b[i] && (a[i] as int !in {45, 46} || b[i] as int !in {45, 46})
  }

  /** One registration that is admitted. */
  predicate Accepted(r: Registration, supported: set<Access>) {
    var c := r.manifest.claims;
    && r.wellFormed && Identifier(r.manifest.providerId) && Identifier(r.manifest.kind)
    && c.access in supported && (r.required.Some? ==> r.required.value)
    && c.visibility.CanonicalManifest? && c.reconciliation.Forward?
    && c.runKeyed && c.retained && c.discardsAgain && c.forks
  }

  /** Of different kinds, and with names that the Runtime can tell apart. */
  predicate Differ(a: Manifest, b: Manifest) { a.kind != b.kind && Distinguished(a.providerId, b.providerId) }

  lemma AcceptedMeaning(r: Registration, supported: set<Access>)
    ensures Admissible(r, supported) <==> Accepted(r, supported)
  {
    IdentifierMeaning(r.manifest.providerId);
    IdentifierMeaning(r.manifest.kind);
    hide SafeIdentifier, Identifier;
  }

  /** A registry takes exactly what is admitted one by one and differs from each other. */
  lemma AdmittedExactly(registrations: seq<Registration>, supported: set<Access>)
    ensures
      (forall i | 0 <= i < |registrations| :: Admissible(registrations[i], supported)) &&
        AllApart(Manifests(registrations)) <==>
      && (forall i | 0 <= i < |registrations| :: Accepted(registrations[i], supported))
      && forall i, j | 0 <= i < j < |registrations| :: Differ(registrations[i].manifest, registrations[j].manifest)
  {
    var q := Manifests(registrations);
    forall i | 0 <= i < |registrations|
      ensures Admissible(registrations[i], supported) <==> Accepted(registrations[i], supported)
    {
      AcceptedMeaning(registrations[i], supported);
    }
    hide Admissible, Accepted, Apart, Differ;
    if forall i | 0 <= i < |registrations| :: Admissible(registrations[i], supported) {
      forall i, j | 0 <= i < j < |registrations|
        ensures Apart(q[i], q[j]) <==> Differ(registrations[i].manifest, registrations[j].manifest)
      {
        ApartMeaning(q[i], q[j], registrations[i], registrations[j], supported);
      }
    }
  }

  lemma ApartMeaning(a: Manifest, b: Manifest, r: Registration, s: Registration, supported: set<Access>)
    requires a == r.manifest && b == s.manifest && Admissible(r, supported) && Admissible(s, supported)
    ensures Apart(a, b) <==> Differ(a, b)
  {
    EnvironmentsCollide(a.providerId, b.providerId);
    hide EnvironmentName, SafeIdentifier;
  }

  /** The name under which the Runtime finds a provider's data, by an example. */
  lemma EnvironmentNamed()
    ensures EnvironmentName("a0-z.9") == "AIRLOCK_RESOURCE_A0_Z_9_PATH"
  {
  }

  lemma SortedRegistry(registrations: seq<Registration>, supported: set<Access>, le: (string, string) -> bool)
    requires WeakOrder(le) && forall i | 0 <= i < |registrations| :: Admissible(registrations[i], supported)
    ensures var q := Manifests(registrations);
      var s := Sort(ByKey(le), q);
      && (AllApart(s) <==> AllApart(q)) && multiset(s) == multiset(q) && InOrder(ByKey(le), s)
      && forall i | 0 <= i < |s| :: Eligible(s[i].claims)
  {
    var q := Manifests(registrations);
    var s := Sort(ByKey(le), q);
    forall i | 0 <= i < |q| ensures Eligible(q[i].claims) { assert Admissible(registrations[i], supported); }
    hide Admissible, Eligible, AllApart, InOrder;
    KeyWeakOrder(le);
    SortPermutes(ByKey(le), q);
    SortStands(ByKey(le), q);
    SortApart(ByKey(le), q);
    forall i | 0 <= i < |s| ensures Eligible(s[i].claims) { assert s[i] in multiset(s); }
  }

  lemma KeyWeakOrder(le: (string, string) -> bool)
    requires WeakOrder(le)
    ensures WeakOrder(ByKey(le))
  {
    forall a, b ensures ByKey(le)(a, b) || ByKey(le)(b, a) {
      assert le(OrderKey(a), OrderKey(b)) || le(OrderKey(b), OrderKey(a));
    }
    forall a, b, c | ByKey(le)(a, b) && ByKey(le)(b, c) ensures ByKey(le)(a, c) {
      assert le(OrderKey(a), OrderKey(b)) && le(OrderKey(b), OrderKey(c));
    }
  }

  // ---- A stable sort ----

  lemma {:induction false} InsertPermutes<T>(le: (T, T) -> bool, e: T, q: seq<T>)
    ensures multiset(Insert(le, e, q)) == multiset(q)[e := multiset(q)[e] + 1]
    decreases |q|
  {
    if q != [] && !le(e, q[0]) {
      InsertPermutes(le, e, q[1..]);
      assert q == [q[0]] + q[1..];
    }
  }

  lemma {:induction false} SortPermutes<T>(le: (T, T) -> bool, q: seq<T>)
    ensures multiset(Sort(le, q)) == multiset(q) && |Sort(le, q)| == |q|
    decreases |q|
  {
    if q != [] {
      SortPermutes(le, q[1..]);
      InsertPermutes(le, q[0], Sort(le, q[1..]));
      assert q == [q[0]] + q[1..];
      assert |multiset(Sort(le, q))| == |multiset(q)|;
    }
  }

  lemma {:induction false} InsertStands<T(!new)>(le: (T, T) -> bool, e: T, q: seq<T>)
    requires WeakOrder(le) && InOrder(le, q)
    ensures InOrder(le, Insert(le, e, q))
    decreases |q|
  {
    if q != [] {
      if le(e, q[0]) {
        forall i | 0 <= i < |q| ensures le(e, q[i]) { assert i == 0 || le(q[0], q[i]); }
      } else {
        InsertStands(le, e, q[1..]);
        InsertPermutes(le, e, q[1..]);
        var rest := Insert(le, e, q[1..]);
        forall i | 0 <= i < |rest| ensures le(q[0], rest[i]) {
          assert rest[i] in multiset(rest);
          if rest[i] != e {
            assert rest[i] in q[1..];
            var k :| 0 <= k < |q[1..]| && q[1..][k] == rest[i];
            assert q[k + 1] == rest[i];
          }
        }
      }
    }
  }

  lemma {:induction false} SortStands<T(!new)>(le: (T, T) -> bool, q: seq<T>)
    requires WeakOrder(le)
    ensures InOrder(le, Sort(le, q))
    decreases |q|
  {
    if q != [] {
      SortStands(le, q[1..]);
      InsertStands(le, q[0], Sort(le, q[1..]));
    }
  }

  /** What is in order stays as it is, ties included. */
  lemma {:induction false} SortKeeps<T(!new)>(le: (T, T) -> bool, q: seq<T>)
    requires InOrder(le, q)
    ensures Sort(le, q) == q
    decreases |q|
  {
    if q != [] {
      SortKeeps(le, q[1..]);
      assert q == [q[0]] + q[1..];
    }
  }

  predicate ApartFrom(e: Manifest, q: seq<Manifest>) { forall i | 0 <= i < |q| :: Apart(e, q[i]) }

  lemma ApartPush(e: Manifest, q: seq<Manifest>)
    ensures AllApart([e] + q) <==> ApartFrom(e, q) && AllApart(q)
  {
    var longer := [e] + q;
    assert longer[0] == e && forall i | 0 <= i < |q| :: longer[i + 1] == q[i];
    if AllApart(longer) {
      forall i | 0 <= i < |q| ensures Apart(e, q[i]) { assert Apart(longer[0], longer[i + 1]); }
      forall i, j | 0 <= i < j < |q| ensures Apart(q[i], q[j]) { assert Apart(longer[i + 1], longer[j + 1]); }
    }
  }

  lemma ApartFromPush(e: Manifest, d: Manifest, q: seq<Manifest>)
    ensures ApartFrom(e, [d] + q) <==> Apart(e, d) && ApartFrom(e, q)
  {
    var longer := [d] + q;
    assert longer[0] == d && forall i | 0 <= i < |q| :: longer[i + 1] == q[i];
    if ApartFrom(e, longer) { forall i | 0 <= i < |q| ensures Apart(e, q[i]) { assert Apart(e, longer[i + 1]); } }
  }

  lemma {:induction false} InsertApart(le: (Manifest, Manifest) -> bool, e: Manifest, q: seq<Manifest>)
    ensures forall d :: ApartFrom(d, Insert(le, e, q)) <==> ApartFrom(d, [e] + q)
    ensures AllApart(Insert(le, e, q)) <==> AllApart([e] + q)
    decreases |q|
  {
    if q != [] && !le(e, q[0]) {
      var rest := Insert(le, e, q[1..]);
      assert q == [q[0]] + q[1..];
      hide Apart, ApartFrom, AllApart;
      InsertApart(le, e, q[1..]);
      forall d ensures ApartFrom(d, Insert(le, e, q)) <==> ApartFrom(d, [e] + q) {
        ApartFromPush(d, q[0], rest);
        ApartFromPush(d, e, q);
        ApartFromPush(d, q[0], q[1..]);
        ApartFromPush(d, e, q[1..]);
      }
      ApartPush(q[0], rest);
      ApartPush(e, q);
      ApartPush(q[0], q[1..]);
      ApartPush(e, q[1..]);
      ApartFromPush(q[0], e, q[1..]);
      ApartFromPush(e, q[0], q[1..]);
      ApartBoth(e, q[0]);
    }
  }

  lemma ApartBoth(a: Manifest, b: Manifest)
    ensures Apart(a, b) <==> Apart(b, a)
  {
  }

  lemma {:induction false} SortApart(le: (Manifest, Manifest) -> bool, q: seq<Manifest>)
    ensures AllApart(Sort(le, q)) <==> AllApart(q)
    ensures forall d :: ApartFrom(d, Sort(le, q)) <==> ApartFrom(d, q)
    decreases |q|
  {
    if q != [] {
      var rest := Sort(le, q[1..]);
      assert q == [q[0]] + q[1..];
      hide Apart, ApartFrom, AllApart;
      SortApart(le, q[1..]);
      InsertApart(le, q[0], rest);
      ApartPush(q[0], rest);
      ApartPush(q[0], q[1..]);
      forall d ensures ApartFrom(d, Sort(le, q)) <==> ApartFrom(d, q) {
        ApartFromPush(d, q[0], rest);
        ApartFromPush(d, q[0], q[1..]);
      }
    }
  }

  // ---- The plan of a Run ----

  /** The providers that one promotion pass calls. */
  function Visible(q: seq<Manifest>, v: Visibility): seq<Manifest> {
    if q == [] then [] else (if q[0].claims.visibility == v then [q[0]] else []) + Visible(q[1..], v)
  }

  function Planning(q: seq<Manifest>, target: string -> string): seq<ResourcePlan> {
    seq(|q|, i requires 0 <= i < |q| => ResourcePlan(q[i].providerId, q[i].kind, target(q[i].providerId)))
  }

  /** planAll goes through the registry; the two passes take those of their own visibility. */
  function PlanOf(q: seq<Manifest>, target: string -> string, runId: string, source: string, state: string): Plan {
    Plan(runId, source, state, Planning(Visible(q, CanonicalManifest), target),
         Planning(Visible(q, PostPromotionReconciled), target))
  }

  function Rank(v: Visibility): nat {
    match v
    case CanonicalManifest => 0
    case PostPromotionReconciled => 1
    case BestEffort => 2
  }

  function ByVisibility(le: (string, string) -> bool): (Manifest, Manifest) -> bool {
    (a: Manifest, b: Manifest) =>
      Rank(a.claims.visibility) < Rank(b.claims.visibility) ||
      (a.claims.visibility == b.claims.visibility && le(OrderKey(a), OrderKey(b)))
  }

  /** The providers in the order in which the inspection of recovery evidence expects their reports. */
  function Inspected(q: seq<Manifest>, le: (string, string) -> bool): seq<E.Provider> {
    var s := Sort(ByVisibility(le), q);
    seq(|s|, i requires 0 <= i < |s| => E.Provider(s[i].providerId, s[i].kind))
  }

  lemma {:induction false} OneVisibility(q: seq<Manifest>)
    requires forall i | 0 <= i < |q| :: Eligible(q[i].claims)
    ensures Visible(q, CanonicalManifest) == q && Visible(q, PostPromotionReconciled) == []
    decreases |q|
  {
    if q != [] {
      OneVisibility(q[1..]);
      assert q == [q[0]] + q[1..];
    }
  }

  /** Every provider that a registry admits becomes visible with the canonical manifest: a plan has none behind it,
    names each provider once, and lists them as the inspection of recovery evidence does. */
  lemma AdmittedPlan(q: seq<Manifest>, le: (string, string) -> bool, target: string -> string, runId: string,
                     source: string, state: string)
    requires Registry(q, le)
    ensures var plan := PlanOf(q, target, runId, source, state);
      && plan.after == [] && |plan.before| == |q| && Uniform(plan) && DistinctProviders(plan.before + plan.after)
      && Expected(plan) == Inspected(q, le)
  {
    var plan := PlanOf(q, target, runId, source, state);
    OneVisibility(q);
    assert InOrder(ByVisibility(le), q);
    SortKeeps(ByVisibility(le), q);
    assert plan.before + plan.after == plan.before;
    forall i, j | 0 <= i < j < |q| ensures plan.before[i].provider != plan.before[j].provider {
      assert Apart(q[i], q[j]);
    }
  }

  /** So recovered evidence of an admitted registry is unreadable for one reason only, a doubled report. */
  lemma AdmittedReadable(q: seq<Manifest>, le: (string, string) -> bool, target: string -> string, runId: string,
                         source: string, state: string, t: Transaction)
    requires Registry(q, le) && q != [] && t.recovered && Evidenced(PlanOf(q, target, runId, source, state), t.evidence)
    ensures var plan := PlanOf(q, target, runId, source, state);
      Expected(plan) != [] && (Prior(plan, t, None).Ok? <==> !Doubled(Expected(plan), Trail(t.evidence)))
  {
    AdmittedPlan(q, le, target, runId, source, state);
    var plan := PlanOf(q, target, runId, source, state);
    assert |Expected(plan)| == |plan.before + plan.after| == |q|;
    hide *;
    UniformReadable(plan, t);
  }
}
