/** Assurance proposals: every proposal an Agent's history gives rise to applies to its base contract whenever the rules
  have room, and is strictly stronger.
*/
module AssuranceProposals {
  import opened AssuranceDerivation
  import opened AssuranceLaws
  import opened AssuranceOperations
  import opened ContractStrengthening
  import opened OutcomeChecks
  import opened OutcomeContracts
  import opened Sorting
  import JsonText
  import Utf8Order

  // ---- Operation keys ----

  function OperationKey(op: Operation): string {
    match op
    case AddRequiredPath(path) => "add-required-path:" + path
    case AddProtectedPath(path) => "add-protected-path:" + path
    case LowerMaxChangedFiles(maximum) => "lower-max-changed-files:" + JsonText.IntText(maximum)
    case LowerMaxAddedBytes(maximum) => "lower-max-added-bytes:" + JsonText.IntText(maximum)
    case AddCatalogSecret(catalogId, _, name, _) => "add-catalog-secret|" + catalogId + "|" + name
    case MakeCommandRequired(name, _, _) => "make-command-required:" + name
  }

  function KeyBefore(less: (string, string) -> bool): (Operation, Operation) -> bool {
    (a: Operation, b: Operation) => less(OperationKey(a), OperationKey(b))
  }

  predicate SameKind(a: Operation, b: Operation) {
    || (a.AddRequiredPath? && b.AddRequiredPath?) || (a.AddProtectedPath? && b.AddProtectedPath?)
    || (a.LowerMaxChangedFiles? && b.LowerMaxChangedFiles?) || (a.LowerMaxAddedBytes? && b.LowerMaxAddedBytes?)
    || (a.AddCatalogSecret? && b.AddCatalogSecret?) || (a.MakeCommandRequired? && b.MakeCommandRequired?)
  }

  function Initial(op: Operation): char {
    match op
    case AddRequiredPath(_) => 'r'
    case AddProtectedPath(_) => 'p'
    case LowerMaxChangedFiles(_) => 'c'
    case LowerMaxAddedBytes(_) => 'a'
    case AddCatalogSecret(_, _, _, _) => 'c'
    case MakeCommandRequired(_, _, _) => 'c'
  }

  function InitialAt(op: Operation): nat {
    match op
    case AddRequiredPath(_) => 4
    case AddProtectedPath(_) => 4
    case LowerMaxChangedFiles(_) => 10
    case LowerMaxAddedBytes(_) => 10
    case AddCatalogSecret(_, _, _, _) => 4
    case MakeCommandRequired(_, _, _) => 5
  }

  lemma KeyInitials(op: Operation)
    ensures var k := OperationKey(op);
      && |k| > 10 && k[InitialAt(op)] == Initial(op)
      && k[0] == if op.LowerMaxChangedFiles? || op.LowerMaxAddedBytes? then 'l'
        else if op.MakeCommandRequired? then 'm' else 'a'
  {
  }

  lemma KeyKinds(a: Operation, b: Operation)
    requires OperationKey(a) == OperationKey(b)
    ensures SameKind(a, b)
  {
    hide OperationKey;
    KeyInitials(a);
    KeyInitials(b);
  }

  lemma Suffixes(prefix: string, x: string, y: string)
    requires prefix + x == prefix + y
    ensures x == y
  {
    assert (prefix + x)[|prefix|..] == x && (prefix + y)[|prefix|..] == y;
  }

  // ---- What the history calls for ----

  ghost predicate Called(less: (string, string) -> bool, plain: string -> bool, base: Rules, runs: seq<Run>,
                         op: Operation) {
    || PathCall(plain, base, runs, op) || CommandCall(base, runs, op) || SecretCall(base, runs, op)
    || LimitCall(less, base, runs, ChangedFiles, op) || LimitCall(less, base, runs, AddedBytes, op)
  }

  lemma LimitCallOnce(less: (string, string) -> bool, base: Rules, runs: seq<Run>, metric: Metric, a: Operation,
                      b: Operation)
    requires LimitCall(less, base, runs, metric, a) && LimitCall(less, base, runs, metric, b)
    ensures a == b
  {
    hide Supporters, CitedOverflows;
    var supporters := Supporters(less, metric, runs);
    var m :| Largest(metric, supporters, m) && m < Limit(metric, base) && a == Lower(metric, m);
  }

  /** Two operations that a history calls for under one key are one operation. */
  lemma CalledByKey(less: (string, string) -> bool, plain: string -> bool, base: Rules, runs: seq<Run>, a: Operation,
                    b: Operation)
    requires Called(less, plain, base, runs, a) && Called(less, plain, base, runs, b)
    requires OperationKey(a) == OperationKey(b)
    ensures a == b
  {
    hide PathWanted, CommandWanted, SecretWanted, Optional;
    KeyKinds(a, b);
    match a
    case AddRequiredPath(path) => Suffixes("add-required-path:", path, b.path);
    case AddProtectedPath(path) => Suffixes("add-protected-path:", path, b.path);
    case LowerMaxChangedFiles(_) => CalledLimit(less, plain, base, runs, ChangedFiles, a, b);
    case LowerMaxAddedBytes(_) => CalledLimit(less, plain, base, runs, AddedBytes, a, b);
    case AddCatalogSecret(_, _, _, _) =>
    case MakeCommandRequired(name, _, _) => Suffixes("make-command-required:", name, b.name);
  }

  lemma CalledLimit(less: (string, string) -> bool, plain: string -> bool, base: Rules, runs: seq<Run>, metric: Metric,
                    a: Operation, b: Operation)
    requires Called(less, plain, base, runs, a) && Called(less, plain, base, runs, b)
    requires if metric == ChangedFiles then a.LowerMaxChangedFiles? && b.LowerMaxChangedFiles?
      else a.LowerMaxAddedBytes? && b.LowerMaxAddedBytes?
    ensures a == b
  {
    hide PathWanted, CommandWanted, SecretWanted, Optional, Supporters, CitedOverflows, Largest;
    LimitCallOnce(less, base, runs, metric, a, b);
  }

  lemma TotalByKey(less: (string, string) -> bool, plain: string -> bool, base: Rules, runs: seq<Run>,
                   ops: seq<Operation>)
    requires TotalOrder(less) && forall op | op in ops :: Called(less, plain, base, runs, op)
    ensures TotalOn(KeyBefore(less), Elements(ops))
  {
    hide Called, OperationKey;
    forall a, b | a in ops && b in ops && OperationKey(a) == OperationKey(b) ensures a == b {
      CalledByKey(less, plain, base, runs, a, b);
    }
  }

  // ---- The proposal ----

  const MAXIMUM_HISTORICAL_RUNS := 200

  function Latest(less: (string, string) -> bool, runs: seq<Run>): seq<Run> {
    var ordered := Sort(ById(less), runs);
    if |ordered| <= MAXIMUM_HISTORICAL_RUNS then ordered else ordered[|ordered| - MAXIMUM_HISTORICAL_RUNS..]
  }

  method Candidates(less: (string, string) -> bool, plain: string -> bool, base: Rules, runs: seq<Run>)
    returns (ops: seq<Operation>)
    ensures Once(ops) && forall op :: op in ops <==> Called(less, plain, base, runs, op)
  {
    var paths := PathOperations(plain, base, runs);
    var commands := CommandOperations(base, runs);
    var secrets := CatalogOperations(base, runs);
    var files := LimitOperation(less, base, runs, ChangedFiles);
    var bytes := LimitOperation(less, base, runs, AddedBytes);
    hide PathWanted, CommandWanted, SecretWanted, Optional, Supporters, CitedOverflows, Largest, Once;
    JoinedOnce(paths, commands);
    JoinedOnce(paths + commands, secrets);
    JoinedOnce(paths + commands + secrets, files);
    JoinedOnce(paths + commands + secrets + files, bytes);
    ops := paths + commands + secrets + files + bytes;
  }

  /** The operations of a proposal: up to ten of those the history calls for, first by key, in strict key order. */
  method DeriveOperations(less: (string, string) -> bool, plain: string -> bool, base: Rules, allRuns: seq<Run>)
    returns (operations: seq<Operation>)
    requires TotalOrder(less)
    ensures |operations| <= MAXIMUM_OPERATIONS
    ensures InOrder(KeyBefore(less), operations)
    ensures forall op | op in operations :: Called(less, plain, base, Latest(less, allRuns), op)
    ensures forall op | Called(less, plain, base, Latest(less, allRuns), op) && op !in operations ::
              |operations| == MAXIMUM_OPERATIONS && forall x | x in operations :: KeyBefore(less)(x, op)
  {
    hide Called, OperationKey, TotalOrder, TotalOn;
    var runs := Latest(less, allRuns);
    var candidates := Candidates(less, plain, base, runs);
    TotalByKey(less, plain, base, runs, candidates);
    SortSorts(KeyBefore(less), Elements(candidates), candidates);
    var sorted := Sort(KeyBefore(less), candidates);
    assert forall op :: op in sorted <==> op in Elements(sorted);
    assert forall op :: op in candidates <==> op in Elements(candidates);
    operations := if |sorted| <= MAXIMUM_OPERATIONS then sorted else sorted[..MAXIMUM_OPERATIONS];
    assert forall op | op in operations :: op in sorted && op in candidates;
    assert forall k | 0 <= k < |operations| :: sorted[k] in operations;
    forall op | Called(less, plain, base, runs, op) && op !in operations
      ensures |operations| == MAXIMUM_OPERATIONS && forall x | x in operations :: KeyBefore(less)(x, op)
    {
      var j := PlaceOf(sorted, op);
      assert j >= |operations|;
    }
  }

  // ---- Derived operations apply ----

  /** An operation that could be derived from a base: its references hold, and it asks soundly for something new. */
  predicate Derived(base: Rules, op: Operation) { RefersTo(base, op) && Sound(op) && Effective(base, op) }

  /** Changes are recorded at paths of an inventory, which are never empty. */
  predicate Recorded(runs: seq<Run>) {
    forall run | run in runs && run.changes.Some? :: forall c | c in run.changes.value.files :: c.path != ""
  }

  lemma {:induction false} DeletedIsRecorded(files: seq<Change>)
    requires forall c | c in files :: c.path != ""
    ensures "" !in DeletedAmong(files)
    decreases |files|
  {
    if files != [] { DeletedIsRecorded(files[1..]); }
  }

  lemma NobodyDeletes(runs: seq<Run>)
    requires Recorded(runs)
    ensures Lineages(runs, DeletedPaths, "") == {}
  {
    forall run | run in runs ensures "" !in DeletedPaths(run) {
      if run.changes.Some? { DeletedIsRecorded(run.changes.value.files); }
    }
  }

  lemma WantedIsRecorded(plain: string -> bool, runs: seq<Run>, path: string)
    requires Recorded(runs) && PathWanted(plain, runs, path)
    ensures path != ""
  {
    NobodyDeletes(runs);
  }

  lemma {:induction false} UnitsInBytes(s: string)
    ensures Units(s) <= |Utf8Order.Utf8(s)|
    decreases |s|
  {
    if s != "" { UnitsInBytes(s[1..]); }
  }

  lemma NameableIsSafe(plain: string -> bool, path: string)
    requires Nameable(plain, path) && path != ""
    ensures SafePath(path)
  {
    UnitsInBytes(path);
    assert path[0] == '/' ==> "/" <= path;
  }

  lemma OptionalIsFirst(commands: seq<Command>, name: string)
    requires Once(CommandNames(commands)) && Optional(commands, name).Some?
    ensures Place(commands, name) < |commands| && commands[Place(commands, name)] == Optional(commands, name).value
  {
    var c := Optional(commands, name).value;
    var i :| 0 <= i < |commands| && commands[i] == c;
    PlaceOfOnly(commands, i);
  }

  lemma {:induction false} CatalogUnnamed(base: Rules, validations: seq<Evidence>)
    requires CATALOG[0].name in SecretNames(base.secretPatterns)
    ensures CatalogAmong(base, validations) == []
    decreases |validations|
  {
    if validations != [] { CatalogUnnamed(base, validations[1..]); }
  }

  lemma NobodyFinds(base: Rules, runs: seq<Run>)
    requires CATALOG[0].name in SecretNames(base.secretPatterns)
    ensures Lineages(runs, CatalogFailures(base), CATALOG[0].name) == {}
  {
    forall run | run in runs ensures CATALOG[0].name !in CatalogFailures(base)(run) {
      CatalogUnnamed(base, run.validations);
    }
  }

  lemma SecretCallIsNew(base: Rules, runs: seq<Run>, op: Operation)
    requires SecretCall(base, runs, op)
    ensures Derived(base, op)
  {
    if CATALOG[0].name in SecretNames(base.secretPatterns) { NobodyFinds(base, runs); }
  }

  /** Whatever a history calls for could be derived: nothing it proposes is already in the base, or unsound, or refers
    to something the base does not have. */
  lemma CalledIsDerived(less: (string, string) -> bool, plain: string -> bool, compiles: string -> bool, base: Rules,
                        runs: seq<Run>, op: Operation)
    requires Valid(compiles, base) && Recorded(runs) && Called(less, plain, base, runs, op)
    ensures Derived(base, op)
  {
    hide Nameable, SafePath, Supported, Optional, Recorded, Supporters, CitedOverflows;
    ValidDistinct(compiles, base);
    if PathCall(plain, base, runs, op) {
      WantedIsRecorded(plain, runs, op.path);
      NameableIsSafe(plain, op.path);
    } else if CommandCall(base, runs, op) {
      OptionalIsFirst(base.validationCommands, op.name);
    } else if SecretCall(base, runs, op) {
      SecretCallIsNew(base, runs, op);
    }
  }

  /** A list of derived operations applies exactly when the rules have room; the result is a strictly stronger
    contract. */
  lemma DerivedListsApply(o: Orders, compiles: string -> bool, base: Contract, ops: seq<Operation>)
    requires Collates(o) && Valid(compiles, base.rules) && CatalogCompiles(compiles)
    requires ops != [] && forall op | op in ops :: Derived(base.rules, op)
    ensures Apply(o, compiles, base, ops).Ok? <==> Room(base.rules, ops)
    ensures Room(base.rules, ops) ==> Stronger(base.rules, Apply(o, compiles, base, ops).value.rules)
  {
    hide Valid, Room, Sound, Effective, RefersTo, Apply, Collates, Stronger;
    assert Derived(base.rules, ops[0]) && ops[0] in ops;
    AppliesExactly(o, compiles, base, ops);
    if Room(base.rules, ops) { OkIsStronger(o, compiles, base, ops); }
  }

  /** A derived list is never shadowed: where it adds the catalog rule, the result has it. */
  lemma DerivedNeverShadowed(o: Orders, compiles: string -> bool, base: Contract, ops: seq<Operation>)
    requires Collates(o) && Valid(compiles, base.rules) && Apply(o, compiles, base, ops).Ok?
    requires (forall op | op in ops :: Derived(base.rules, op)) && exists op | op in ops :: op.AddCatalogSecret?
    ensures CATALOG[0] in Apply(o, compiles, base, ops).value.rules.secretPatterns
  {
    var rules := base.rules.secretPatterns;
    var op :| op in ops && op.AddCatalogSecret?;
    assert Derived(base.rules, op);
    NamesIn(rules);
    hide Valid, Collates, Apply, Derived;
    ShadowedCatalog(o, compiles, base, ops);
  }

  lemma OkIsStronger(o: Orders, compiles: string -> bool, base: Contract, ops: seq<Operation>)
    requires Apply(o, compiles, base, ops).Ok?
    ensures Stronger(base.rules, Apply(o, compiles, base, ops).value.rules)
  {
    hide Valid, Stronger, Sorted, Refusals;
  }

  // ---- Room for ten more ----

  lemma {:induction false} FewRequired(ops: seq<Operation>)
    ensures |RequiredBy(ops)| <= |ops|
    decreases |ops|
  {
    if ops == [] {
      assert RequiredBy(ops) == {};
    } else {
      FewRequired(ops[1..]);
      assert RequiredBy(ops) == RequiredBy(ops[1..]) + if ops[0].AddRequiredPath? then {ops[0].path} else {};
    }
  }

  lemma {:induction false} FewProtected(ops: seq<Operation>)
    ensures |ProtectedBy(ops)| <= |ops|
    decreases |ops|
  {
    if ops == [] {
      assert ProtectedBy(ops) == {};
    } else {
      FewProtected(ops[1..]);
      assert ProtectedBy(ops) == ProtectedBy(ops[1..]) + if ops[0].AddProtectedPath? then {ops[0].path} else {};
    }
  }

  lemma FewSecrets(base: Rules, ops: seq<Operation>)
    requires Referring(base, ops)
    ensures |SecretsBy(SecretNames(base.secretPatterns), ops)| <= 1
  {
    var added := SecretsBy(SecretNames(base.secretPatterns), ops);
    forall rule | rule in added ensures rule == CATALOG[0] {
      var op :| op in ops && op.AddCatalogSecret? && SecretRule(op.name, op.pattern) == rule;
      assert RefersTo(base, op);
    }
    SubsetSize(added, {CATALOG[0]});
  }

  /** A base with ten paths to spare in each list, and one secret, has room for any proposal. */
  lemma RoomForProposal(compiles: string -> bool, base: Rules, ops: seq<Operation>)
    requires Valid(compiles, base) && Referring(base, ops) && |ops| <= MAXIMUM_OPERATIONS
    requires |base.requiredPaths| + MAXIMUM_OPERATIONS <= MAX_PATHS
    requires |base.protectedPaths| + MAXIMUM_OPERATIONS <= MAX_PATHS
    requires |base.secretPatterns| < MAX_SECRETS
    ensures Room(base, ops)
  {
    hide RequiredBy, ProtectedBy, SecretsBy, Referring, SecretNames, Elements, PathsOk, SecretsOk, CommandsOk;
    FewRequired(ops);
    FewProtected(ops);
    FewSecrets(base, ops);
    FewElements(base.requiredPaths);
    FewElements(base.protectedPaths);
    FewElements(base.secretPatterns);
  }

  lemma {:induction false} FewElements<T>(q: seq<T>)
    ensures |Elements(q)| <= |q|
    decreases |q|
  {
    if q != [] {
      ElementsPush(q[0], q[1..]);
      assert q == [q[0]] + q[1..];
      FewElements(q[1..]);
    } else {
      NoElements(q);
    }
  }
}
