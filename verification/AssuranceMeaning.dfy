/** What a history must show for each operation to be proposed, in terms of the recorded Runs alone. */
module AssuranceMeaning {
  import opened AssuranceDerivation
  import opened AssuranceLaws
  import opened AssuranceLimits
  import opened AssuranceOperations
  import opened AssuranceProposals
  import opened ContractStrengthening
  import opened Faults
  import opened OutcomeChecks
  import opened OutcomeContracts
  import opened Sorting
  import JsonText
  import Utf8Order

  // ---- What a Run speaks for ----

  /** A quarantined Run that deleted the path. */
  predicate Deletes(run: Run, path: string) {
    run.disposition == Quarantined && run.changes.Some? &&
    exists c | c in run.changes.value.files :: c.path == path && c.kind == Deleted
  }

  predicate Records(run: Run, name: string, status: Status, required: bool) {
    exists e | e in run.validations :: e.name == name && e.status == status && e.required == required
  }

  /** Of the optional commands with its name, the first. */
  ghost predicate FirstOptional(commands: seq<Command>, c: Command) {
    exists i :: FirstAt(commands, c, i)
  }

  /** A Run that met all that was required of it and failed the optional command, which was then what it is now. */
  ghost predicate FailsOptional(run: Run, c: Command) {
    && (forall e | e in run.validations && e.required :: e.status == Passed)
    && (Records(run, "command:" + c.name, Failed, false) || Records(run, "command:" + c.name, Errored, false))
    && exists was :: FirstOptional(run.contract.validationCommands, was) && was.name == c.name
         && was.command == c.command && was.timeoutMs == c.timeoutMs
  }

  /** A Run in which the trusted scan found a private key. */
  predicate FindsKey(run: Run) {
    exists e | e in run.validations :: e.name == "assurance-catalog-rule:private-key-block:v1" && e.status == Failed
  }

  lemma {:induction false} DeletedMeaning(files: seq<Change>, path: string)
    ensures path in DeletedAmong(files) <==> exists c | c in files :: c.path == path && c.kind == Deleted
    decreases |files|
  {
    if files != [] { DeletedMeaning(files[1..], path); }
  }

  lemma DeletesMeaning(run: Run, path: string)
    ensures path in DeletedPaths(run) <==> Deletes(run, path)
  {
    if run.changes.Some? { DeletedMeaning(run.changes.value.files, path); }
  }

  lemma {:induction false} OptionalIsTheFirst(commands: seq<Command>, name: string)
    ensures forall c: Command :: Optional(commands, name) == Some(c) <==> c.name == name && FirstOptional(commands, c)
    decreases |commands|
  {
    if commands != [] {
      OptionalIsTheFirst(commands[1..], name);
      forall c: Command | c.name == name ensures FirstOptional(commands, c) <==>
        if commands[0].name == name && !commands[0].required then c == commands[0] else FirstOptional(commands[1..], c)
      {
        FirstOptionalRest(commands, c);
      }
      hide FirstOptional;
    }
  }

  /** The first optional one is at the head, or it is the first of the rest. */
  lemma FirstOptionalRest(commands: seq<Command>, c: Command)
    requires commands != []
    ensures FirstOptional(commands, c) <==>
      if commands[0].name == c.name && !commands[0].required then c == commands[0] else FirstOptional(commands[1..], c)
  {
    var h, t := commands[0], commands[1..];
    if h.name == c.name && !h.required {
      assert FirstAt(commands, h, 0);
    } else {
      if i :| FirstAt(t, c, i) {
        assert FirstAt(commands, c, i + 1) by { assert forall j | 0 < j <= i :: commands[j] == t[j - 1]; }
      }
      if i :| FirstAt(commands, c, i) {
        assert i > 0 && FirstAt(t, c, i - 1) by { assert forall j | 0 <= j < i - 1 :: t[j] == commands[j + 1]; }
      }
    }
  }

  predicate FirstAt(commands: seq<Command>, c: Command, i: int) {
    0 <= i < |commands| && commands[i] == c && !c.required &&
    forall j | 0 <= j < i :: commands[j].name == c.name ==> commands[j].required
  }

  lemma {:induction false} OptionalAmongMeaning(base: Rules, run: Run, validations: seq<Evidence>, name: string)
    ensures name in OptionalAmong(base, run, validations) <==>
      SameCommand(base, run, name) &&
      exists e | e in validations :: e.name == "command:" + name && e.status != Passed && !e.required
    decreases |validations|
  {
    hide SameCommand;
    if validations != [] {
      var v := validations[0];
      OptionalAmongMeaning(base, run, validations[1..], name);
      assert v.name == "command:" + name ==> v.name[|COMMAND|..] == name;
      assert COMMAND <= v.name && v.name[|COMMAND|..] == name ==> v.name == "command:" + name;
    }
  }

  /** A Run speaks for a command exactly when it failed the optional command of the base. */
  lemma FailsOptionalMeaning(base: Rules, run: Run, name: string)
    ensures name in OptionalFailures(base)(run) <==>
      exists c :: FirstOptional(base.validationCommands, c) && c.name == name && FailsOptional(run, c)
  {
    OptionalAmongMeaning(base, run, run.validations, name);
    OptionalIsTheFirst(base.validationCommands, name);
    OptionalIsTheFirst(run.contract.validationCommands, name);
    hide FirstOptional, Optional, OptionalAmong;
    assert (exists e | e in run.validations :: e.name == "command:" + name && e.status != Passed && !e.required) <==>
      (Records(run, "command:" + name, Failed, false) || Records(run, "command:" + name, Errored, false));
    var now, was := Optional(base.validationCommands, name), Optional(run.contract.validationCommands, name);
    if name in OptionalFailures(base)(run) {
      assert FirstOptional(run.contract.validationCommands, was.value);
      assert FirstOptional(base.validationCommands, now.value) && FailsOptional(run, now.value);
    }
  }

  lemma {:induction false} CatalogMeaning(base: Rules, validations: seq<Evidence>, name: string)
    ensures name in CatalogAmong(base, validations) <==>
      && name == "private-key-block" && name !in SecretNames(base.secretPatterns)
      && exists e | e in validations :: e.name == "assurance-catalog-rule:private-key-block:v1" && e.status == Failed
    decreases |validations|
  {
    assert CATALOG[0].name == "private-key-block" && "assurance-catalog-rule:" + CATALOG[0].name + ":v1" ==
      "assurance-catalog-rule:private-key-block:v1";
    if validations != [] { CatalogMeaning(base, validations[1..], name); }
  }

  // ---- What the lineages call for ----

  ghost function Deleters(runs: seq<Run>, path: string): set<string> {
    set run | run in runs && Deletes(run, path) :: run.rootRunId
  }

  ghost function Failers(runs: seq<Run>, c: Command): set<string> {
    set run | run in runs && FailsOptional(run, c) :: run.rootRunId
  }

  ghost function Finders(runs: seq<Run>): set<string> { set run | run in runs && FindsKey(run) :: run.rootRunId }

  /** A path that a contract may name. */
  predicate Plain(plain: string -> bool, path: string) {
    && plain(path) && |Utf8Order.Utf8(path)| <= 240 && (path != "" ==> path[0] != '/')
    && '\\' !in path && ".." !in Segments(path)
  }

  /** Three lineages deleted the path. */
  lemma PathCallMeaning(plain: string -> bool, base: Rules, runs: seq<Run>, path: string)
    ensures PathCall(plain, base, runs, AddRequiredPath(path)) <==>
      |Deleters(runs, path)| >= 3 && Plain(plain, path) && path !in base.requiredPaths
    ensures PathCall(plain, base, runs, AddProtectedPath(path)) <==>
      |Deleters(runs, path)| >= 3 && Plain(plain, path) && path !in base.protectedPaths
  {
    forall run ensures path in DeletedPaths(run) <==> Deletes(run, path) { DeletesMeaning(run, path); }
    hide Deletes, DeletedPaths, Segments;
    assert Deleters(runs, path) == Lineages(runs, DeletedPaths, path);
    assert Nameable(plain, path) <==> Plain(plain, path);
  }

  /** Three lineages failed an optional command of the base and met all that was required. */
  lemma CommandCallMeaning(base: Rules, runs: seq<Run>, op: Operation)
    ensures CommandCall(base, runs, op) <==>
      exists c :: FirstOptional(base.validationCommands, c) && |Failers(runs, c)| >= 3
        && op == MakeCommandRequired(c.name, CommandHash(c.command, c.timeoutMs), c.timeoutMs)
  {
    forall c | FirstOptional(base.validationCommands, c)
      ensures Failers(runs, c) == Lineages(runs, OptionalFailures(base), c.name)
      ensures Optional(base.validationCommands, c.name) == Some(c)
    {
      OptionalIsTheFirst(base.validationCommands, c.name);
      SameFailers(base, runs, c);
    }
    if CommandCall(base, runs, op) {
      OptionalIsTheFirst(base.validationCommands, op.name);
      assert FirstOptional(base.validationCommands, Optional(base.validationCommands, op.name).value);
    }
  }

  lemma SameFailers(base: Rules, runs: seq<Run>, c: Command)
    requires FirstOptional(base.validationCommands, c)
    ensures Failers(runs, c) == Lineages(runs, OptionalFailures(base), c.name)
  {
    forall run ensures c.name in OptionalFailures(base)(run) <==> FailsOptional(run, c) {
      FailsOptionalMeaning(base, run, c.name);
      OptionalIsTheFirst(base.validationCommands, c.name);
    }
    hide FailsOptional, OptionalFailures, FirstOptional;
  }

  /** Two lineages have a private key in them, and the base does not look for one. */
  lemma SecretCallMeaning(base: Rules, runs: seq<Run>, op: Operation)
    ensures SecretCall(base, runs, op) <==>
      && |Finders(runs)| >= 2 && "private-key-block" !in SecretNames(base.secretPatterns)
      && op == AddCatalogSecret("agent-airlock-secret-catalog", 1, "private-key-block",
                                "-----BEGIN (?:RSA |EC |OPENSSH )?PRIVATE KEY-----")
  {
    var name := "private-key-block";
    forall run
      ensures name in CatalogFailures(base)(run) <==> FindsKey(run) && name !in SecretNames(base.secretPatterns)
    {
      CatalogMeaning(base, run.validations, name);
    }
    hide CatalogFailures, FindsKey, SecretNames;
    assert Lineages(runs, CatalogFailures(base), name) ==
      if name in SecretNames(base.secretPatterns) then {} else Finders(runs);
  }

  // ---- Limits ----

  predicate LimitsRecorded(run: Run, status: Status) {
    exists e | e in run.validations :: e.name == "change-limits" && e.status == status
  }

  /** The Runs that failed their limits with more files, or more bytes, than their own contract allowed. */
  ghost function TooManyFiles(runs: seq<Run>): set<Run> {
    set run | run in runs && run.changes.Some? && LimitsRecorded(run, Failed)
      && run.changes.value.totalChangedFiles > run.contract.maxChangedFiles
  }

  ghost function TooManyBytes(runs: seq<Run>): set<Run> {
    set run | run in runs && run.changes.Some? && LimitsRecorded(run, Failed)
      && run.changes.value.totalAddedBytes > run.contract.maxAddedBytes
  }

  ghost function PromotedWithin(runs: seq<Run>): set<Run> {
    set run | run in runs && run.disposition == Promoted && run.changes.Some? && LimitsRecorded(run, Passed)
  }

  /** One promoted Run for each lineage other than the two earliest that overflowed. */
  ghost function Others(less: (string, string) -> bool, over: set<Run>, runs: seq<Run>): set<Run> {
    set run | run in Leaders(less, PromotedWithin(runs)) && run.rootRunId !in EarlyLineages(less, over)
  }

  ghost predicate FilesNeeded(s: set<Run>, n: int) {
    && 1 <= n && (forall run | run in s :: run.changes.Some? && run.changes.value.totalChangedFiles <= n)
    && (n == 1 || exists run | run in s :: run.changes.Some? && run.changes.value.totalChangedFiles == n)
  }

  ghost predicate BytesNeeded(s: set<Run>, n: int) {
    && 0 <= n && (forall run | run in s :: run.changes.Some? && run.changes.value.totalAddedBytes <= n)
    && (n == 0 || exists run | run in s :: run.changes.Some? && run.changes.value.totalAddedBytes == n)
  }

  lemma FilesCallMeaning(less: (string, string) -> bool, base: Rules, runs: seq<Run>, op: Operation)
    requires TotalOrder(less) && History(runs)
    ensures LimitCall(less, base, runs, ChangedFiles, op) <==>
      && |Leaders(less, TooManyFiles(runs))| >= 2 && |Others(less, TooManyFiles(runs), runs)| >= 3
      && op.LowerMaxChangedFiles? && op.maximum < base.maxChangedFiles
      && FilesNeeded(Others(less, TooManyFiles(runs), runs), op.maximum)
  {
    LimitCallMeaning(less, base, runs, ChangedFiles, op);
    assert TooManyFiles(runs) == OverflowSet(ChangedFiles, runs) && PromotedWithin(runs) == SuccessSet(runs);
    hide LimitCall, Leaders, EarlyLineages, TotalOrder, History, TooManyFiles, PromotedWithin, OverflowSet, SuccessSet;
    assert Others(less, TooManyFiles(runs), runs) == Support(less, ChangedFiles, runs);
    hide Others, Support;
    assert forall n :: FilesNeeded(Support(less, ChangedFiles, runs), n) <==>
      Needed(ChangedFiles, Support(less, ChangedFiles, runs), n);
    hide FilesNeeded, Needed;
  }

  lemma BytesCallMeaning(less: (string, string) -> bool, base: Rules, runs: seq<Run>, op: Operation)
    requires TotalOrder(less) && History(runs)
    ensures LimitCall(less, base, runs, AddedBytes, op) <==>
      && |Leaders(less, TooManyBytes(runs))| >= 2 && |Others(less, TooManyBytes(runs), runs)| >= 3
      && op.LowerMaxAddedBytes? && op.maximum < base.maxAddedBytes
      && BytesNeeded(Others(less, TooManyBytes(runs), runs), op.maximum)
  {
    LimitCallMeaning(less, base, runs, AddedBytes, op);
    assert TooManyBytes(runs) == OverflowSet(AddedBytes, runs) && PromotedWithin(runs) == SuccessSet(runs);
    hide LimitCall, Leaders, EarlyLineages, TotalOrder, History, TooManyBytes, PromotedWithin, OverflowSet, SuccessSet;
    assert Others(less, TooManyBytes(runs), runs) == Support(less, AddedBytes, runs);
    hide Others, Support;
    assert forall n :: BytesNeeded(Support(less, AddedBytes, runs), n) <==>
      Needed(AddedBytes, Support(less, AddedBytes, runs), n);
    hide BytesNeeded, Needed;
  }

  // ---- The proposal ----

  /** The Runs considered: those with fewer than 200 later ones. */
  ghost predicate Considered(less: (string, string) -> bool, all: seq<Run>, runs: seq<Run>) {
    && InOrder(ById(less), runs)
    && forall run :: run in runs <==> run in all && |Later(less, all, run)| < 200
  }

  ghost function Later(less: (string, string) -> bool, all: seq<Run>, run: Run): set<Run> {
    set other | other in all && less(run.id, other.id)
  }

  /** What the Runs considered call for. */
  ghost predicate Speaks(less: (string, string) -> bool, plain: string -> bool, base: Rules, runs: seq<Run>,
                         op: Operation) {
    match op
    case AddRequiredPath(path) => |Deleters(runs, path)| >= 3 && Plain(plain, path) && path !in base.requiredPaths
    case AddProtectedPath(path) => |Deleters(runs, path)| >= 3 && Plain(plain, path) && path !in base.protectedPaths
    case MakeCommandRequired(name, hash, timeoutMs) =>
      exists c :: FirstOptional(base.validationCommands, c) && |Failers(runs, c)| >= 3
        && c.name == name && CommandHash(c.command, c.timeoutMs) == hash && c.timeoutMs == timeoutMs
    case AddCatalogSecret(id, version, name, pattern) =>
      && |Finders(runs)| >= 2 && "private-key-block" !in SecretNames(base.secretPatterns)
      && id == "agent-airlock-secret-catalog" && version == 1 && name == "private-key-block"
      && pattern == "-----BEGIN (?:RSA |EC |OPENSSH )?PRIVATE KEY-----"
    case LowerMaxChangedFiles(maximum) =>
      && |Leaders(less, TooManyFiles(runs))| >= 2 && |Others(less, TooManyFiles(runs), runs)| >= 3
      && maximum < base.maxChangedFiles && FilesNeeded(Others(less, TooManyFiles(runs), runs), maximum)
    case LowerMaxAddedBytes(maximum) =>
      && |Leaders(less, TooManyBytes(runs))| >= 2 && |Others(less, TooManyBytes(runs), runs)| >= 3
      && maximum < base.maxAddedBytes && BytesNeeded(Others(less, TooManyBytes(runs), runs), maximum)
  }

  lemma CalledMeaning(less: (string, string) -> bool, plain: string -> bool, base: Rules, runs: seq<Run>, op: Operation)
    requires TotalOrder(less) && History(runs)
    ensures AssuranceProposals.Called(less, plain, base, runs, op) <==> Speaks(less, plain, base, runs, op)
  {
    hide LimitCall, SecretCall, CommandCall, PathCall, SecretNames, FilesNeeded, BytesNeeded, FirstOptional, Plain,
      Leaders, Others, Failers, Finders, Deleters, TooManyFiles, TooManyBytes, TotalOrder, History;
    OtherKinds(less, plain, base, runs, op);
    FilesCallMeaning(less, base, runs, op);
    BytesCallMeaning(less, base, runs, op);
    SecretCallMeaning(base, runs, op);
    CommandCallMeaning(base, runs, op);
    if op.AddRequiredPath? || op.AddProtectedPath? { PathCallMeaning(plain, base, runs, op.path); }
  }

  /** Each call is for operations of its own kind. */
  lemma OtherKinds(less: (string, string) -> bool, plain: string -> bool, base: Rules, runs: seq<Run>, op: Operation)
    ensures PathCall(plain, base, runs, op) ==> op.AddRequiredPath? || op.AddProtectedPath?
    ensures CommandCall(base, runs, op) ==> op.MakeCommandRequired?
    ensures SecretCall(base, runs, op) ==> op.AddCatalogSecret?
    ensures LimitCall(less, base, runs, ChangedFiles, op) ==> op.LowerMaxChangedFiles?
    ensures LimitCall(less, base, runs, AddedBytes, op) ==> op.LowerMaxAddedBytes?
  {
    hide PathWanted, CommandWanted, SecretWanted, Optional, Supporters, CitedOverflows;
  }

  lemma LatestConsidered(less: (string, string) -> bool, all: seq<Run>)
    requires TotalOrder(less) && History(all)
    ensures Considered(less, all, Latest(less, all)) && History(Latest(less, all))
  {
    var ordered := Sort(ById(less), all);
    SortedHistory(less, all);
    OrderedHistory(less, ordered);
    var from_ := if |ordered| <= 200 then 0 else |ordered| - 200;
    assert Latest(less, all) == ordered[from_..];
    HistorySuffix(ordered, from_);
    hide Sort, TotalOrder, Later, Latest, History, InOrder;
    SuffixLater(less, all, ordered, from_);
    assert InOrder(ById(less), ordered[from_..]) by { SuffixInOrder(ById(less), ordered, from_); }
  }

  lemma SuffixInOrder<T>(less: (T, T) -> bool, q: seq<T>, i: nat)
    requires InOrder(less, q) && i <= |q|
    ensures InOrder(less, q[i..])
  {
  }

  lemma SortedHistory(less: (string, string) -> bool, all: seq<Run>)
    requires TotalOrder(less) && History(all)
    ensures var ordered := Sort(ById(less), all);
      InOrder(ById(less), ordered) && Elements(ordered) == Elements(all)
  {
    RunsTotal(less, all);
    SortSorts(ById(less), Elements(all), all);
  }

  /** The last 200 of a sorted history are those with fewer than 200 later ones. */
  lemma SuffixLater(less: (string, string) -> bool, all: seq<Run>, ordered: seq<Run>, from_: nat)
    requires TotalOrder(less) && History(all) && InOrder(ById(less), ordered) && Elements(ordered) == Elements(all)
    requires from_ == if |ordered| <= 200 then 0 else |ordered| - 200
    ensures forall run :: run in ordered[from_..] <==> run in all && |Later(less, all, run)| < 200
  {
    hide TotalOrder, Later, History, InOrder;
    forall i: nat | i < |ordered| ensures |Later(less, all, ordered[i])| == |ordered| - 1 - i {
      LaterCounts(less, all, ordered, i);
    }
    forall run | run in all && |Later(less, all, run)| < 200 ensures run in ordered[from_..] {
      assert run in Elements(all);
      var i := PlaceOf(ordered, run);
      assert ordered[from_..][i - from_] == run;
    }
    forall run | run in ordered[from_..] ensures run in all && |Later(less, all, run)| < 200 {
      var i: nat :| i < |ordered[from_..]| && ordered[from_..][i] == run;
      assert ordered[from_ + i] == run && run in Elements(ordered);
    }
  }

  lemma OrderedHistory(less: (string, string) -> bool, q: seq<Run>)
    requires TotalOrder(less) && InOrder(ById(less), q)
    ensures History(q)
  {
    forall i, j | 0 <= i < j < |q| ensures q[i].id != q[j].id { assert ById(less)(q[i], q[j]); }
  }

  lemma HistorySuffix(q: seq<Run>, from_: nat)
    requires History(q) && from_ <= |q|
    ensures History(q[from_..])
  {
  }

  /** The place of a Run in the sorted history counts the Runs after it. */
  lemma LaterCounts(less: (string, string) -> bool, all: seq<Run>, ordered: seq<Run>, i: nat)
    requires TotalOrder(less) && History(all) && InOrder(ById(less), ordered)
    requires Elements(ordered) == Elements(all) && i < |ordered|
    ensures |Later(less, all, ordered[i])| == |ordered| - 1 - i
  {
    var s, run := Elements(all), ordered[i];
    var before, after := Below(ById(less), s, run), Later(less, all, run);
    RunsTotal(less, all);
    assert run in Elements(ordered);
    LaterSplits(less, all, run);
    hide History, TotalOrder, Later;
    PlaceCounts(ById(less), s, ordered, i);
    OrderedOnce(less, ordered);
    OnceSize(ordered);
    hide Below, Elements, InOrder, TotalOn, Once;
    assert |before + {run} + after| == |before| + 1 + |after|;
  }

  lemma LaterSplits(less: (string, string) -> bool, all: seq<Run>, run: Run)
    requires TotalOrder(less) && History(all) && run in all
    ensures var before, after := Below(ById(less), Elements(all), run), Later(less, all, run);
      Elements(all) == before + {run} + after && before !! after && run !in before + after
  {
    var before, after := Below(ById(less), Elements(all), run), Later(less, all, run);
    forall other | other in all ensures (other in before) != (other in after) || other == run {
      OneRunAnId(all, run, other);
      OneOfThree(less, run.id, other.id);
    }
    OneOfThree(less, run.id, run.id);
    hide TotalOrder, History;
  }

  lemma OneOfThree(less: (string, string) -> bool, x: string, y: string)
    requires TotalOrder(less)
    ensures !less(x, x) && !(less(x, y) && less(y, x)) && (x == y || less(x, y) || less(y, x))
  {
  }

  /** What a history of Runs proposes: up to ten of the operations it speaks for, the first by key. */
  method ProposeFromHistory(less: (string, string) -> bool, plain: string -> bool, base: Rules, allRuns: seq<Run>)
    returns (operations: seq<Operation>, runs: seq<Run>)
    requires TotalOrder(less) && History(allRuns)
    ensures Considered(less, allRuns, runs)
    ensures |operations| <= 10 && InOrder(KeyBefore(less), operations)
    ensures forall op | op in operations :: Speaks(less, plain, base, runs, op)
    ensures forall op | Speaks(less, plain, base, runs, op) && op !in operations ::
      |operations| == 10 && forall x | x in operations :: less(OperationKey(x), OperationKey(op))
  {
    operations := DeriveOperations(less, plain, base, allRuns);
    runs := Latest(less, allRuns);
    LatestConsidered(less, allRuns);
    hide AssuranceProposals.Called, Speaks, Latest, TotalOrder, History, Considered, InOrder, OperationKey;
    forall op ensures AssuranceProposals.Called(less, plain, base, runs, op) <==> Speaks(less, plain, base, runs, op) {
      CalledMeaning(less, plain, base, runs, op);
    }
  }

  /** The keys, spelled out. */
  lemma KeysSpelled(path: string, maximum: int, name: string, id: string, pattern: string, version: int,
                    hash: CommandHash)
    ensures OperationKey(AddRequiredPath(path)) == "add-required-path:" + path
    ensures OperationKey(AddProtectedPath(path)) == "add-protected-path:" + path
    ensures OperationKey(LowerMaxChangedFiles(maximum)) == "lower-max-changed-files:" + JsonText.IntText(maximum)
    ensures OperationKey(LowerMaxAddedBytes(maximum)) == "lower-max-added-bytes:" + JsonText.IntText(maximum)
    ensures OperationKey(AddCatalogSecret(id, version, name, pattern)) == "add-catalog-secret|" + id + "|" + name
    ensures OperationKey(MakeCommandRequired(name, hash, maximum)) == "make-command-required:" + name
  {
  }

  // ---- Applying what was proposed ----

  /** What a list of operations makes of a contract: one version on, it holds what the base held and what was asked
    for. */
  lemma AppliedHolds(o: Orders, compiles: string -> bool, base: Contract, ops: seq<Operation>)
    requires Collates(o) && Valid(compiles, base.rules) && Apply(o, compiles, base, ops).Ok?
    ensures Apply(o, compiles, base, ops).value.version == base.version + 1
    ensures HoldsWhatIsAsked(base.rules, ops, Apply(o, compiles, base, ops).value.rules)
    ensures InTheirOrders(o, Apply(o, compiles, base, ops).value.rules)
  {
    var next := Apply(o, compiles, base, ops).value.rules;
    hide Valid, Sorted, Refusals, Stronger, Collates, Steps;
    RefusalsMeaning(base.rules, ops);
    ValidDistinct(compiles, base.rules);
    ResultBecomes(o, base.rules, ops);
    hide Distinct, Referring;
    BecomesHolds(o, base.rules, ops, next);
  }

  ghost predicate HoldsWhatIsAsked(base: Rules, ops: seq<Operation>, next: Rules) {
    && (forall p :: p in next.requiredPaths <==> p in base.requiredPaths || AddRequiredPath(p) in ops)
    && (forall p :: p in next.protectedPaths <==> p in base.protectedPaths || AddProtectedPath(p) in ops)
    && (next.maxChangedFiles == base.maxChangedFiles || LowerMaxChangedFiles(next.maxChangedFiles) in ops)
    && next.maxChangedFiles <= base.maxChangedFiles
    && (forall m | LowerMaxChangedFiles(m) in ops :: next.maxChangedFiles <= m)
    && (next.maxAddedBytes == base.maxAddedBytes || LowerMaxAddedBytes(next.maxAddedBytes) in ops)
    && next.maxAddedBytes <= base.maxAddedBytes
    && (forall m | LowerMaxAddedBytes(m) in ops :: next.maxAddedBytes <= m)
    && (forall s :: s in next.secretPatterns <==> s in base.secretPatterns || AddedSecret(base, ops, s))
    && (forall c :: c in next.validationCommands <==> exists b | b in base.validationCommands :: c == Raised(b, ops))
  }

  /** A catalog rule that was asked for, under a name that the base does not have. */
  ghost predicate AddedSecret(base: Rules, ops: seq<Operation>, s: SecretRule) {
    && (forall b | b in base.secretPatterns :: b.name != s.name)
    && exists id, version :: AddCatalogSecret(id, version, s.name, s.pattern) in ops
  }

  /** The command, required if it was or if that was asked for. */
  ghost function Raised(c: Command, ops: seq<Operation>): Command {
    Command(c.name, c.command, c.timeoutMs,
            c.required || exists hash, timeoutMs :: MakeCommandRequired(c.name, hash, timeoutMs) in ops)
  }

  ghost predicate InTheirOrders(o: Orders, r: Rules) {
    && (forall i, j | 0 <= i < j < |r.requiredPaths| :: o.path(r.requiredPaths[i], r.requiredPaths[j]))
    && (forall i, j | 0 <= i < j < |r.protectedPaths| :: o.path(r.protectedPaths[i], r.protectedPaths[j]))
    && (forall i, j | 0 <= i < j < |r.secretPatterns| :: o.name(r.secretPatterns[i].name, r.secretPatterns[j].name))
    && forall i, j | 0 <= i < j < |r.validationCommands| ::
         o.name(r.validationCommands[i].name, r.validationCommands[j].name)
  }

  lemma BecomesHolds(o: Orders, base: Rules, ops: seq<Operation>, next: Rules)
    requires Becomes(o, base, ops, next)
    ensures HoldsWhatIsAsked(base, ops, next) && InTheirOrders(o, next)
  {
    PathsHold(base, ops, next.requiredPaths, next.protectedPaths);
    LimitsHold(base, ops, next);
    SecretsHold(base, ops, next.secretPatterns);
    CommandsHold(base, ops, next.validationCommands);
    hide RequiredBy, ProtectedBy, SecretsBy, FilesBy, BytesBy, Lowest, CommandsAfter, AddedSecret, Raised, SecretNames,
      CommandNames, Elements, Once;
  }

  lemma PathsHold(base: Rules, ops: seq<Operation>, required: seq<string>, protected: seq<string>)
    ensures Elements(required) == Elements(base.requiredPaths) + RequiredBy(ops) ==>
      forall p :: p in required <==> p in base.requiredPaths || AddRequiredPath(p) in ops
    ensures Elements(protected) == Elements(base.protectedPaths) + ProtectedBy(ops) ==>
      forall p :: p in protected <==> p in base.protectedPaths || AddProtectedPath(p) in ops
  {
    assert forall p :: p in RequiredBy(ops) <==> AddRequiredPath(p) in ops;
    assert forall p :: p in ProtectedBy(ops) <==> AddProtectedPath(p) in ops;
    assert forall q: seq<string>, p :: p in q <==> p in Elements(q);
  }

  lemma LimitsHold(base: Rules, ops: seq<Operation>, next: Rules)
    requires Lowest(base.maxChangedFiles, FilesBy(ops), next.maxChangedFiles)
    requires Lowest(base.maxAddedBytes, BytesBy(ops), next.maxAddedBytes)
    ensures next.maxChangedFiles == base.maxChangedFiles || LowerMaxChangedFiles(next.maxChangedFiles) in ops
    ensures next.maxChangedFiles <= base.maxChangedFiles
    ensures forall m | LowerMaxChangedFiles(m) in ops :: next.maxChangedFiles <= m
    ensures next.maxAddedBytes == base.maxAddedBytes || LowerMaxAddedBytes(next.maxAddedBytes) in ops
    ensures next.maxAddedBytes <= base.maxAddedBytes
    ensures forall m | LowerMaxAddedBytes(m) in ops :: next.maxAddedBytes <= m
  {
    assert forall m :: m in FilesBy(ops) <==> LowerMaxChangedFiles(m) in ops;
    assert forall m :: m in BytesBy(ops) <==> LowerMaxAddedBytes(m) in ops;
  }

  lemma SecretsHold(base: Rules, ops: seq<Operation>, next: seq<SecretRule>)
    requires Elements(next) == Elements(base.secretPatterns) + SecretsBy(SecretNames(base.secretPatterns), ops)
    ensures forall s :: s in next <==> s in base.secretPatterns || AddedSecret(base, ops, s)
  {
    var names := SecretNames(base.secretPatterns);
    NamesIn(base.secretPatterns);
    forall s ensures s in SecretsBy(names, ops) <==> AddedSecret(base, ops, s) {
      if s in SecretsBy(names, ops) {
        var op :| op in ops && op.AddCatalogSecret? && op.name !in names && SecretRule(op.name, op.pattern) == s;
        assert op == AddCatalogSecret(op.catalogId, op.catalogVersion, s.name, s.pattern);
      }
      if AddedSecret(base, ops, s) {
        var id, version :| AddCatalogSecret(id, version, s.name, s.pattern) in ops;
        assert SecretRule(s.name, s.pattern) == s;
      }
    }
    assert forall q: seq<SecretRule>, s :: s in q <==> s in Elements(q);
  }

  lemma CommandsHold(base: Rules, ops: seq<Operation>, next: seq<Command>)
    requires Elements(next) == CommandsAfter(base.validationCommands, ops)
    ensures forall c :: c in next <==> exists b | b in base.validationCommands :: c == Raised(b, ops)
  {
    forall b: Command ensures After(b, ops) == Raised(b, ops) {
      if MadeRequired(ops, b.name) {
        var op :| op in ops && op.MakeCommandRequired? && op.name == b.name;
        assert op == MakeCommandRequired(b.name, op.commandHash, op.timeoutMs);
      }
    }
    hide After, Raised;
    assert forall c :: c in next <==> c in Elements(next);
  }

  predicate Identifies(c: Command, name: string, hash: CommandHash, timeoutMs: int) {
    c.name == name && c.timeoutMs == timeoutMs && hash == CommandHash(c.command, timeoutMs)
  }

  /** An operation may refer to the one rule of the catalog, and to a command by its name, its text and its time
    limit. */
  ghost predicate Refers(commands: seq<Command>, op: Operation) {
    match op
    case AddCatalogSecret(id, version, name, pattern) =>
      id == "agent-airlock-secret-catalog" && version == 1 && name == "private-key-block" &&
      pattern == "-----BEGIN (?:RSA |EC |OPENSSH )?PRIVATE KEY-----"
    case MakeCommandRequired(name, hash, timeoutMs) =>
      exists c | c in commands :: Identifies(c, name, hash, timeoutMs)
    case _ => true
  }

  lemma RefersMeaning(r: Rules, op: Operation)
    requires Once(CommandNames(r.validationCommands))
    ensures RefersTo(r, op) <==> Refers(r.validationCommands, op)
  {
    if op.MakeCommandRequired? {
      var i := Place(r.validationCommands, op.name);
      if c :| c in r.validationCommands && Identifies(c, op.name, op.commandHash, op.timeoutMs) {
        var j :| 0 <= j < |r.validationCommands| && r.validationCommands[j] == c;
        PlaceOfOnly(r.validationCommands, j);
      }
      if i < |r.validationCommands| { assert r.validationCommands[i] in r.validationCommands; }
    }
  }

  /** A list is refused by the first operation that refers to nothing, for what it refers to. */
  lemma {:induction false} RefusedFor(r: Rules, ops: seq<Operation>) returns (i: nat)
    requires Once(CommandNames(r.validationCommands)) && Refusals(r, ops) != []
    ensures i < |ops| && !Refers(r.validationCommands, ops[i])
    ensures forall j | 0 <= j < i :: Refers(r.validationCommands, ops[j])
    ensures ops[i].AddCatalogSecret? || ops[i].MakeCommandRequired?
    ensures Refusals(r, ops)[0] == if ops[i].AddCatalogSecret? then CatalogReference else CommandIdentity
    decreases |ops|
  {
    RefersMeaning(r, ops[0]);
    if !RefersTo(r, ops[0]) {
      i := 0;
    } else {
      var next := Step(r, ops[0]);
      StepIdentities(r, ops[0]);
      assert CommandNames(next.validationCommands) == CommandNames(r.validationCommands);
      i := RefusedFor(next, ops[1..]);
      forall op ensures Refers(next.validationCommands, op) <==> Refers(r.validationCommands, op) {
        SameReferences(r.validationCommands, next.validationCommands, op);
      }
      hide Refers, RefersTo, Step;
      assert forall j | 0 <= j < |ops[1..]| :: ops[1..][j] == ops[j + 1];
      forall j | 0 <= j < i + 1 ensures Refers(r.validationCommands, ops[j]) {
        if j > 0 { assert Refers(next.validationCommands, ops[1..][j - 1]); }
      }
      i := i + 1;
    }
  }

  lemma SameReferences(a: seq<Command>, b: seq<Command>, op: Operation)
    requires SameIdentities(a, b)
    ensures Refers(a, op) <==> Refers(b, op)
  {
    if op.MakeCommandRequired? {
      if c :| c in a && Identifies(c, op.name, op.commandHash, op.timeoutMs) {
        var i :| 0 <= i < |a| && a[i] == c;
        assert b[i] in b && b[i].name == c.name;
      }
      if c :| c in b && Identifies(c, op.name, op.commandHash, op.timeoutMs) {
        var i :| 0 <= i < |b| && b[i] == c;
        assert a[i] in a && a[i].name == c.name;
      }
    }
  }
}
