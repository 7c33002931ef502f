/** Deriving assurance operations from an Agent's history: deriveAssuranceProposal of assurance.ts, without its
  citations and its simulation.
*/
module AssuranceDerivation {
  import opened AssuranceLaws
  import opened AssuranceOperations
  import opened ContractStrengthening
  import opened Faults
  import opened OutcomeChecks
  import opened OutcomeContracts
  import opened Sorting
  import JsonText
  import Utf8Order

  datatype Disposition = Promoted | Quarantined | Discarded

  datatype Summary = Summary(files: seq<Change>, totalChangedFiles: nat, totalAddedBytes: nat)

  /** A Run whose transaction carries assurance evidence and a disposition. */
  datatype Run = Run(
    id: string,
    rootRunId: string,
    disposition: Disposition,
    changes: Option<Summary>,
    validations: seq<Evidence>,
    contract: Rules)

  const MAXIMUM_OPERATIONS := 10

  // ---- Votes: what one Run speaks for ----

  function DeletedAmong(files: seq<Change>): seq<string> {
    if files == [] then [] else (if files[0].kind == Deleted then [files[0].path] else []) + DeletedAmong(files[1..])
  }

  function DeletedPaths(run: Run): seq<string> {
    if run.disposition == Quarantined && run.changes.Some? then DeletedAmong(run.changes.value.files) else []
  }

  /** The first optional command of that name. */
  function Optional(commands: seq<Command>, name: string): (c: Option<Command>)
    ensures c.Some? ==> c.value in commands && c.value.name == name && !c.value.required
    ensures c.None? ==> forall x | x in commands :: x.name == name ==> x.required
  {
    if commands == [] then None
    else if commands[0].name == name && !commands[0].required then Some(commands[0])
    else Optional(commands[1..], name)
  }

  predicate SameCommand(base: Rules, run: Run, name: string) {
    var command, historical := Optional(base.validationCommands, name), Optional(run.contract.validationCommands, name);
    && command.Some? && historical.Some?
    && historical.value.timeoutMs == command.value.timeoutMs
    && CommandHash(historical.value.command, historical.value.timeoutMs) ==
      CommandHash(command.value.command, command.value.timeoutMs)
  }

  const COMMAND := "command:"

  function OptionalAmong(base: Rules, run: Run, validations: seq<Evidence>): seq<string> {
    if validations == [] then []
    else
      var v := validations[0];
      (if !v.required && v.status != Passed && COMMAND <= v.name && SameCommand(base, run, v.name[|COMMAND|..])
       then [v.name[|COMMAND|..]] else []) + OptionalAmong(base, run, validations[1..])
  }

  function OptionalFailures(base: Rules): Run -> seq<string> {
    (run: Run) => if RequiredPass(run.validations) then OptionalAmong(base, run, run.validations) else []
  }

  function CatalogAmong(base: Rules, validations: seq<Evidence>): seq<string> {
    if validations == [] then []
    else
      var name := CATALOG[0].name;
      (if validations[0].name == "assurance-catalog-rule:" + name + ":v1" && validations[0].status == Failed &&
          name !in SecretNames(base.secretPatterns) then [name] else []) + CatalogAmong(base, validations[1..])
  }

  function CatalogFailures(base: Rules): Run -> seq<string> { (run: Run) => CatalogAmong(base, run.validations) }

  // ---- Lineages ----

  /** The lineages whose Runs speak for a key. */
  ghost function Lineages(runs: seq<Run>, votes: Run -> seq<string>, key: string): set<string> {
    set run | run in runs && key in votes(run) :: run.rootRunId
  }

  ghost predicate Tallied(runs: seq<Run>, votes: Run -> seq<string>, m: map<string, set<string>>) {
    && (forall key | key in m :: m[key] == Lineages(runs, votes, key))
    && (forall run, key | run in runs && key in votes(run) :: key in m)
    && (forall key | key in m :: m[key] != {})
  }

  /** Gathers, for each key, the lineages whose Runs speak for it. */
  method Tally(runs: seq<Run>, votes: Run -> seq<string>) returns (m: map<string, set<string>>)
    ensures Tallied(runs, votes, m)
  {
    m := map[];
    for i := 0 to |runs|
      invariant Tallied(runs[..i], votes, m)
    {
      m := TallyRun(runs[..i], votes, m, runs[i]);
      assert runs[..i + 1] == runs[..i] + [runs[i]];
    }
    assert runs[..|runs|] == runs;
  }

  method TallyRun(ghost earlier: seq<Run>, votes: Run -> seq<string>, before: map<string, set<string>>, run: Run)
    returns (m: map<string, set<string>>)
    requires Tallied(earlier, votes, before)
    ensures Tallied(earlier + [run], votes, m)
  {
    hide Tallied;
    m := before;
    var keys := votes(run);
    for k := 0 to |keys|
      invariant Counted(before, run.rootRunId, keys[..k], m)
    {
      var byLineage := if keys[k] in m then m[keys[k]] else {};
      m := m[keys[k] := byLineage + {run.rootRunId}];
      assert keys[..k + 1] == keys[..k] + [keys[k]];
    }
    assert keys[..|keys|] == keys;
    CountedTallies(earlier, votes, before, run, m);
  }

  ghost predicate Counted(before: map<string, set<string>>, root: string, keys: seq<string>,
                          m: map<string, set<string>>) {
    && (forall key :: key in m <==> key in before || key in keys)
    && (forall key | key in m ::
          m[key] == (if key in before then before[key] else {}) + (if key in keys then {root} else {}))
  }

  lemma CountedTallies(earlier: seq<Run>, votes: Run -> seq<string>, before: map<string, set<string>>, run: Run,
                       m: map<string, set<string>>)
    requires Tallied(earlier, votes, before) && Counted(before, run.rootRunId, votes(run), m)
    ensures Tallied(earlier + [run], votes, m)
  {
    var all := earlier + [run];
    forall r ensures r in all <==> r in earlier || r == run {}
    forall key | key in m ensures m[key] == Lineages(all, votes, key) && m[key] != {} {
      assert Lineages(all, votes, key) == Lineages(earlier, votes, key) + if key in votes(run) then {run.rootRunId}
        else {};
      if key !in before { assert Lineages(earlier, votes, key) == {}; }
    }
  }

  /** Enough lineages speak for a key. */
  ghost predicate Supported(runs: seq<Run>, votes: Run -> seq<string>, key: string, enough: nat) {
    |Lineages(runs, votes, key)| >= enough
  }

  lemma SupportFromTally(runs: seq<Run>, votes: Run -> seq<string>, m: map<string, set<string>>, key: string,
                         enough: nat)
    requires Tallied(runs, votes, m) && enough > 0
    ensures Supported(runs, votes, key, enough) <==> key in m && |m[key]| >= enough
  {
    if key !in m { assert Lineages(runs, votes, key) == {}; }
  }

  lemma JoinedOnce<T(!new)>(p: seq<T>, q: seq<T>)
    requires Once(p) && Once(q) && forall e | e in p :: e !in q
    ensures Once(p + q) && forall e :: e in p + q <==> e in p || e in q
  {
    var r := p + q;
    forall i, j | 0 <= i < j < |r| ensures r[i] != r[j] {
      if i < |p| <= j { assert p[i] in p && q[j - |p|] in q; }
    }
    forall e | e in q ensures e in r {
      var i :| 0 <= i < |q| && q[i] == e;
      assert r[|p| + i] == e;
    }
    assert forall i | 0 <= i < |p| :: r[i] == p[i];
  }

  // ---- Paths that repaired Runs keep deleting ----

  /** The paths that a contract may name. `plain` says which text redaction leaves alone. */
  predicate Nameable(plain: string -> bool, path: string) {
    |Utf8Order.Utf8(path)| <= 240 && plain(path) && !("/" <= path) && '\\' !in path && ".." !in Segments(path)
  }

  ghost predicate PathWanted(plain: string -> bool, runs: seq<Run>, path: string) {
    Supported(runs, DeletedPaths, path, 3) && Nameable(plain, path)
  }

  /** A path that enough lineages kept deleting calls for a rule the base does not have. */
  ghost predicate PathCall(plain: string -> bool, base: Rules, runs: seq<Run>, op: Operation) {
    || (op.AddRequiredPath? && op.path !in base.requiredPaths && PathWanted(plain, runs, op.path))
    || (op.AddProtectedPath? && op.path !in base.protectedPaths && PathWanted(plain, runs, op.path))
  }

  method PathOperations(plain: string -> bool, base: Rules, runs: seq<Run>) returns (ops: seq<Operation>)
    ensures Once(ops) && forall op :: op in ops <==> PathCall(plain, base, runs, op)
  {
    hide Nameable, PathCall, PathOperation, Tallied;
    var m := Tally(runs, DeletedPaths);
    var left := m.Keys;
    ops := [];
    MorePaths(plain, base, m, {}, "");
    assert m.Keys - left == {};
    while left != {}
      invariant left <= m.Keys && Once(ops)
      invariant forall op :: op in ops <==> PathOperation(plain, base, m, m.Keys - left, op)
      decreases |left|
    {
      var path :| path in left;
      var here := PathOperationsAt(plain, base, m, path);
      assert m.Keys - (left - {path}) == (m.Keys - left) + {path};
      MorePaths(plain, base, m, m.Keys - left, path);
      JoinedOnce(ops, here);
      ops := ops + here;
      left := left - {path};
    }
    assert m.Keys - left == m.Keys;
    AllPaths(plain, base, runs, m);
  }

  method PathOperationsAt(plain: string -> bool, base: Rules, m: map<string, set<string>>, path: string)
    returns (ops: seq<Operation>)
    requires path in m
    ensures Once(ops) && forall op :: op in ops <==> PathOperation(plain, base, m, {path}, op)
  {
    ops := [];
    if |m[path]| >= 3 && Nameable(plain, path) {
      if path !in base.requiredPaths { ops := ops + [AddRequiredPath(path)]; }
      if path !in base.protectedPaths { ops := ops + [AddProtectedPath(path)]; }
    }
  }

  lemma MorePaths(plain: string -> bool, base: Rules, m: map<string, set<string>>, seen: set<string>, path: string)
    ensures forall op ::
      PathOperation(plain, base, m, seen + {path}, op) <==>
      PathOperation(plain, base, m, seen, op) || PathOperation(plain, base, m, {path}, op)
    ensures path !in seen ==>
      forall op :: !(PathOperation(plain, base, m, seen, op) && PathOperation(plain, base, m, {path}, op))
    ensures forall op :: !PathOperation(plain, base, m, {}, op)
  {
  }

  lemma AllPaths(plain: string -> bool, base: Rules, runs: seq<Run>, m: map<string, set<string>>)
    requires Tallied(runs, DeletedPaths, m)
    ensures forall op :: PathOperation(plain, base, m, m.Keys, op) <==> PathCall(plain, base, runs, op)
  {
    hide Nameable, Supported, Tallied;
    forall path ensures PathWanted(plain, runs, path) <==> path in m && |m[path]| >= 3 && Nameable(plain, path) {
      SupportFromTally(runs, DeletedPaths, m, path, 3);
    }
  }

  predicate PathOperation(plain: string -> bool, base: Rules, m: map<string, set<string>>, seen: set<string>,
                          op: Operation) {
    && (op.AddRequiredPath? || op.AddProtectedPath?)
    && op.path in seen && op.path in m && |m[op.path]| >= 3 && Nameable(plain, op.path)
    && (op.AddRequiredPath? ==> op.path !in base.requiredPaths) &&
      (op.AddProtectedPath? ==> op.path !in base.protectedPaths)
  }

  // ---- Optional commands that keep failing ----

  ghost predicate CommandWanted(base: Rules, runs: seq<Run>, name: string) {
    Supported(runs, OptionalFailures(base), name, 3)
  }

  function MakeRequired(c: Command): Operation {
    MakeCommandRequired(c.name, CommandHash(c.command, c.timeoutMs), c.timeoutMs)
  }

  ghost predicate CommandCall(base: Rules, runs: seq<Run>, op: Operation) {
    && op.MakeCommandRequired? && CommandWanted(base, runs, op.name) && Optional(base.validationCommands, op.name).Some?
    && op == MakeRequired(Optional(base.validationCommands, op.name).value)
  }

  method CommandOperations(base: Rules, runs: seq<Run>) returns (ops: seq<Operation>)
    ensures Once(ops) && forall op :: op in ops <==> CommandCall(base, runs, op)
  {
    hide CommandCall, Optional, CommandOperation, Tallied;
    var m := Tally(runs, OptionalFailures(base));
    var left := m.Keys;
    ops := [];
    MoreCommands(base, m, {}, "");
    assert m.Keys - left == {};
    while left != {}
      invariant left <= m.Keys && Once(ops)
      invariant forall op :: op in ops <==> CommandOperation(base, m, m.Keys - left, op)
      decreases |left|
    {
      var name :| name in left;
      var here := CommandOperationsAt(base, m, name);
      assert m.Keys - (left - {name}) == (m.Keys - left) + {name};
      MoreCommands(base, m, m.Keys - left, name);
      JoinedOnce(ops, here);
      ops := ops + here;
      left := left - {name};
    }
    assert m.Keys - left == m.Keys;
    AllCommands(base, runs, m);
  }

  method CommandOperationsAt(base: Rules, m: map<string, set<string>>, name: string) returns (ops: seq<Operation>)
    requires name in m
    ensures Once(ops) && forall op :: op in ops <==> CommandOperation(base, m, {name}, op)
  {
    var command := Optional(base.validationCommands, name);
    ops := if |m[name]| >= 3 && command.Some? then [MakeRequired(command.value)] else [];
  }

  lemma MoreCommands(base: Rules, m: map<string, set<string>>, seen: set<string>, name: string)
    ensures forall op ::
      CommandOperation(base, m, seen + {name}, op) <==>
      CommandOperation(base, m, seen, op) || CommandOperation(base, m, {name}, op)
    ensures name !in seen ==>
      forall op :: !(CommandOperation(base, m, seen, op) && CommandOperation(base, m, {name}, op))
    ensures forall op :: !CommandOperation(base, m, {}, op)
  {
    hide Optional;
  }

  lemma AllCommands(base: Rules, runs: seq<Run>, m: map<string, set<string>>)
    requires Tallied(runs, OptionalFailures(base), m)
    ensures forall op :: CommandOperation(base, m, m.Keys, op) <==> CommandCall(base, runs, op)
  {
    hide Optional, Supported, Tallied;
    forall name ensures CommandWanted(base, runs, name) <==> name in m && |m[name]| >= 3 {
      SupportFromTally(runs, OptionalFailures(base), m, name, 3);
    }
  }

  predicate CommandOperation(base: Rules, m: map<string, set<string>>, seen: set<string>, op: Operation) {
    && op.MakeCommandRequired? && op.name in seen && op.name in m && |m[op.name]| >= 3
    && Optional(base.validationCommands, op.name).Some? &&
      op == MakeRequired(Optional(base.validationCommands, op.name).value)
  }

  // ---- Catalog secrets that keep appearing ----

  ghost predicate SecretWanted(base: Rules, runs: seq<Run>, name: string) {
    Supported(runs, CatalogFailures(base), name, 2)
  }

  function AddSecret(rule: SecretRule): Operation {
    AddCatalogSecret(CATALOG_ID, CATALOG_VERSION, rule.name, rule.pattern)
  }

  ghost predicate SecretCall(base: Rules, runs: seq<Run>, op: Operation) {
    SecretWanted(base, runs, CATALOG[0].name) && op == AddSecret(CATALOG[0])
  }

  method CatalogOperations(base: Rules, runs: seq<Run>) returns (ops: seq<Operation>)
    ensures Once(ops) && forall op :: op in ops <==> SecretCall(base, runs, op)
  {
    hide Supported;
    var m := Tally(runs, CatalogFailures(base));
    SupportFromTally(runs, CatalogFailures(base), m, CATALOG[0].name, 2);
    ops := if CATALOG[0].name in m && |m[CATALOG[0].name]| >= 2 then [AddSecret(CATALOG[0])] else [];
  }

  // ---- Limits that overflows keep exceeding ----

  datatype Metric = ChangedFiles | AddedBytes

  function Observed(metric: Metric, run: Run): nat
    requires run.changes.Some?
  {
    if metric == ChangedFiles then run.changes.value.totalChangedFiles else run.changes.value.totalAddedBytes
  }

  function Limit(metric: Metric, r: Rules): int {
    if metric == ChangedFiles then r.maxChangedFiles else r.maxAddedBytes
  }

  function Floor(metric: Metric): int { if metric == ChangedFiles then 1 else 0 }

  function Lower(metric: Metric, maximum: int): Operation {
    if metric == ChangedFiles then LowerMaxChangedFiles(maximum) else LowerMaxAddedBytes(maximum)
  }

  predicate LimitsShow(run: Run, status: Status) {
    exists v | v in run.validations :: v.name == "change-limits" && v.status == status
  }

  predicate Overflowed(metric: Metric, run: Run) {
    run.changes.Some? && LimitsShow(run, Failed) && Observed(metric, run) > Limit(metric, run.contract)
  }

  predicate Succeeded(run: Run) { run.disposition == Promoted && run.changes.Some? && LimitsShow(run, Passed) }

  function Overflows(metric: Metric, runs: seq<Run>): seq<Run> {
    if runs == [] then [] else (if Overflowed(metric, runs[0]) then [runs[0]] else []) + Overflows(metric, runs[1..])
  }

  function Successes(runs: seq<Run>): (r: seq<Run>)
    ensures forall run | run in r :: run.changes.Some?
  {
    if runs == [] then [] else (if Succeeded(runs[0]) then [runs[0]] else []) + Successes(runs[1..])
  }

  function ById(less: (string, string) -> bool): (Run, Run) -> bool { (a: Run, b: Run) => less(a.id, b.id) }

  /** The first Run of each lineage not seen yet. */
  function FirstRuns(runs: seq<Run>, seen: set<string>): seq<Run> {
    if runs == [] then []
    else if runs[0].rootRunId == "" || runs[0].rootRunId in seen then FirstRuns(runs[1..], seen)
    else [runs[0]] + FirstRuns(runs[1..], seen + {runs[0].rootRunId})
  }

  method UniqueRootRuns(less: (string, string) -> bool, runs: seq<Run>) returns (unique: seq<Run>)
    ensures unique == FirstRuns(Sort(ById(less), runs), {})
  {
    var ordered := Sort(ById(less), runs);
    var roots: set<string> := {};
    unique := [];
    for i := 0 to |ordered|
      invariant unique + FirstRuns(ordered[i..], roots) == FirstRuns(ordered, {})
    {
      var run := ordered[i];
      assert ordered[i..][0] == run && ordered[i..][1..] == ordered[i + 1..];
      if run.rootRunId != "" && run.rootRunId !in roots {
        roots := roots + {run.rootRunId};
        unique := unique + [run];
      }
    }
  }

  function AtMost<T>(n: nat, q: seq<T>): (r: seq<T>)
    ensures forall e | e in r :: e in q
  {
    if |q| <= n then q else q[..n]
  }

  function CitedOverflows(less: (string, string) -> bool, metric: Metric, runs: seq<Run>): seq<Run> {
    AtMost(2, FirstRuns(Sort(ById(less), Overflows(metric, runs)), {}))
  }

  function Roots(runs: seq<Run>): set<string> { set run | run in runs :: run.rootRunId }

  function Outside(roots: set<string>, runs: seq<Run>): (r: seq<Run>)
    ensures forall run | run in r :: run in runs
  {
    if runs == [] then [] else (if runs[0].rootRunId !in roots then [runs[0]] else []) + Outside(roots, runs[1..])
  }

  /** The first promoted Run of each lineage that is not cited as an overflow. */
  function Supporters(less: (string, string) -> bool, metric: Metric, runs: seq<Run>): seq<Run> {
    Outside(Roots(CitedOverflows(less, metric, runs)), FirstRuns(Sort(ById(less), Successes(runs)), {}))
  }

  lemma {:induction false} FirstRunsAmong(runs: seq<Run>, seen: set<string>)
    ensures forall run | run in FirstRuns(runs, seen) :: run in runs
    decreases |runs|
  {
    if runs != [] {
      FirstRunsAmong(runs[1..], seen);
      FirstRunsAmong(runs[1..], seen + {runs[0].rootRunId});
    }
  }

  lemma SortedAmong<T>(less: (T, T) -> bool, q: seq<T>)
    ensures forall e :: e in Sort(less, q) <==> e in q
    ensures |Sort(less, q)| == |q|
    decreases |q|
  {
    if q != [] {
      SortedAmong(less, q[1..]);
      InsertElements(less, q[0], Sort(less, q[1..]));
      assert forall e :: e in Sort(less, q) <==> e in Elements(Sort(less, q));
      assert forall e :: e in Sort(less, q[1..]) <==> e in Elements(Sort(less, q[1..]));
    }
  }

  lemma SupportersObserved(less: (string, string) -> bool, metric: Metric, runs: seq<Run>)
    ensures forall run | run in Supporters(less, metric, runs) :: run.changes.Some?
  {
    var successes := Successes(runs);
    SortedAmong(ById(less), successes);
    FirstRunsAmong(Sort(ById(less), successes), {});
  }

  function More(less: (string, string) -> bool, metric: Metric): (Run, Run) -> bool {
    (a: Run, b: Run) => a.changes.Some? && b.changes.Some? &&
      (Observed(metric, a) > Observed(metric, b) || (Observed(metric, a) == Observed(metric, b) && less(a.id, b.id)))
  }

  predicate AllObserved(q: seq<Run>) { forall run | run in q :: run.changes.Some? }

  /** However ties are broken, sorting by what was observed puts the largest first. */
  lemma {:induction false} LargestFirst(less: (string, string) -> bool, metric: Metric, q: seq<Run>)
    requires q != [] && AllObserved(q)
    ensures var s := Sort(More(less, metric), q);
      s != [] && AllObserved(s) && forall run | run in q :: Observed(metric, run) <= Observed(metric, s[0])
    decreases |q|
  {
    SortedAmong(More(less, metric), q);
    if |q| > 1 {
      LargestFirst(less, metric, q[1..]);
      SortedAmong(More(less, metric), q[1..]);
    } else {
      assert q[1..] == [];
    }
  }

  /** The largest of a floor and what a list of Runs observed. */
  ghost predicate Largest(metric: Metric, q: seq<Run>, n: int)
    requires AllObserved(q)
  {
    && Floor(metric) <= n && (forall run | run in q :: Observed(metric, run) <= n)
    && (n == Floor(metric) || exists run | run in q :: Observed(metric, run) == n)
  }

  /** Two lineages overflowed a limit that three promoted ones did not need: the limit may fall to what they needed. */
  ghost predicate LimitCall(less: (string, string) -> bool, base: Rules, runs: seq<Run>, metric: Metric,
                            op: Operation) {
    var supporters := Supporters(less, metric, runs);
    && |CitedOverflows(less, metric, runs)| >= 2 && |supporters| >= 3 && AllObserved(supporters)
    && exists n :: Largest(metric, supporters, n) && n < Limit(metric, base) && op == Lower(metric, n)
  }

  method LimitOperation(less: (string, string) -> bool, base: Rules, runs: seq<Run>, metric: Metric)
    returns (ops: seq<Operation>)
    ensures Once(ops) && forall op :: op in ops <==> LimitCall(less, base, runs, metric, op)
  {
    hide Overflows, Successes, FirstRuns, Sort, Outside, Once;
    var failed := Overflows(metric, runs);
    var successful := Successes(runs);
    var uniqueFailed := UniqueRootRuns(less, failed);
    var citedFailed := AtMost(2, uniqueFailed);
    var uniqueSuccessful := UniqueRootRuns(less, successful);
    var supporters := Outside(Roots(citedFailed), uniqueSuccessful);
    SupportersObserved(less, metric, runs);
    var citedSuccessful := AtMost(3, Sort(More(less, metric), supporters));
    SortedAmong(More(less, metric), supporters);
    NoneOnce<Operation>();
    if |citedFailed| < 2 || |citedSuccessful| < 3 { return []; }
    LargestFirst(less, metric, supporters);
    var maximum := Floor(metric);
    for i := 0 to |citedSuccessful|
      invariant Floor(metric) <= maximum && (i > 0 ==> maximum >= Observed(metric, citedSuccessful[0]))
      invariant maximum == Floor(metric) || exists run | run in supporters :: Observed(metric, run) == maximum
    {
      var run := citedSuccessful[i];
      assert run in citedSuccessful && run in supporters;
      if Observed(metric, run) > maximum { maximum := Observed(metric, run); }
    }
    assert Largest(metric, supporters, maximum);
    if maximum >= Limit(metric, base) { return []; }
    ops := [Lower(metric, maximum)];
  }

  lemma NoneOnce<T>()
    ensures Once<T>([]) && forall e: T :: Once([e])
  {
  }

}
