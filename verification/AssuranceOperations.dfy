/** Applying a list of assurance operations to an Outcome Contract, and what the list then means. */
module AssuranceOperations {
  import opened ContractStrengthening
  import opened OutcomeContracts
  import opened OutcomeChecks
  import opened Sorting

  // ---- One operation ----

  /** The catalog rule of that name. */
  function Trusted(name: string): seq<SecretRule> { if CATALOG[0].name == name then [CATALOG[0]] else [] }

  /** The references of an operation hold: its catalog rule, or the command it names. */
  predicate RefersTo(r: Rules, op: Operation) {
    match op
    case AddCatalogSecret(id, version, name, pattern) =>
      id == CATALOG_ID && version == CATALOG_VERSION && Trusted(name) == [SecretRule(name, pattern)]
    case MakeCommandRequired(name, hash, timeoutMs) =>
      var i := Place(r.validationCommands, name);
      && i < |r.validationCommands|
      && r.validationCommands[i].timeoutMs == timeoutMs
      && CommandHash(r.validationCommands[i].command, r.validationCommands[i].timeoutMs) == hash
    case _ => true
  }

  function WithPath(paths: seq<string>, path: string): seq<string> { if path in paths then paths else paths + [path] }

  function Min(a: int, b: int): int { if a <= b then a else b }

  function WithSecret(rules: seq<SecretRule>, rule: SecretRule): seq<SecretRule> {
    if rule.name in SecretNames(rules) then rules else rules + [rule]
  }

  function WithRequired(commands: seq<Command>, name: string): seq<Command> {
    var i := Place(commands, name);
    if i == |commands| then commands else commands[i := commands[i].(required := true)]
  }

  function Step(r: Rules, op: Operation): Rules {
    match op
    case AddRequiredPath(path) => r.(requiredPaths := WithPath(r.requiredPaths, path))
    case AddProtectedPath(path) => r.(protectedPaths := WithPath(r.protectedPaths, path))
    case LowerMaxChangedFiles(maximum) => r.(maxChangedFiles := Min(r.maxChangedFiles, maximum))
    case LowerMaxAddedBytes(maximum) => r.(maxAddedBytes := Min(r.maxAddedBytes, maximum))
    case AddCatalogSecret(_, _, name, pattern) =>
      r.(secretPatterns := WithSecret(r.secretPatterns, SecretRule(name, pattern)))
    case MakeCommandRequired(name, _, _) => r.(validationCommands := WithRequired(r.validationCommands, name))
  }

  function Steps(r: Rules, ops: seq<Operation>): Rules
    decreases |ops|
  {
    if ops == [] then r else Steps(Step(r, ops[0]), ops[1..])
  }

  function Refusals(r: Rules, ops: seq<Operation>): seq<Refusal>
    decreases |ops|
  {
    if ops == [] then []
    else if !RefersTo(r, ops[0]) then [if ops[0].AddCatalogSecret? then CatalogReference else CommandIdentity]
    else Refusals(Step(r, ops[0]), ops[1..])
  }

  // ---- The whole list ----

  /** The two collations: of paths, and of rule names. */
  datatype Orders = Orders(path: (string, string) -> bool, name: (string, string) -> bool)

  function SecretBefore(o: Orders): (SecretRule, SecretRule) -> bool {
    (a: SecretRule, b: SecretRule) => o.name(a.name, b.name)
  }

  function CommandBefore(o: Orders): (Command, Command) -> bool { (a: Command, b: Command) => o.name(a.name, b.name) }

  function Sorted(o: Orders, r: Rules): Rules {
    r.(requiredPaths := Sort(o.path, r.requiredPaths), protectedPaths := Sort(o.path, r.protectedPaths),
       secretPatterns := Sort(SecretBefore(o), r.secretPatterns),
       validationCommands := Sort(CommandBefore(o), r.validationCommands))
  }

  function Apply(o: Orders, compiles: string -> bool, base: Contract, ops: seq<Operation>): Result<Contract> {
    var refusals := Refusals(base.rules, ops);
    var next := Sorted(o, Steps(base.rules, ops));
    if refusals != [] then Refused(refusals[0])
    else if !Valid(compiles, next) then Refused(NotAContract)
    else if !Stronger(base.rules, next) then Refused(NotStronger)
    else Ok(Contract(base.version + 1, next))
  }

  method ApplyAssuranceOperations(o: Orders, compiles: string -> bool, base: Contract, operations: seq<Operation>)
    returns (r: Result<Contract>)
    ensures r == Apply(o, compiles, base, operations)
  {
    hide Valid, Stronger, Sorted;
    var input := base.rules;
    for i := 0 to |operations|
      invariant Steps(input, operations[i..]) == Steps(base.rules, operations)
      invariant Refusals(input, operations[i..]) == Refusals(base.rules, operations)
    {
      var operation := operations[i];
      assert operations[i..][0] == operation && operations[i..][1..] == operations[i + 1..];
      match operation {
        case AddRequiredPath(path) =>
          if path !in input.requiredPaths { input := input.(requiredPaths := input.requiredPaths + [path]); }
        case AddProtectedPath(path) =>
          if path !in input.protectedPaths { input := input.(protectedPaths := input.protectedPaths + [path]); }
        case LowerMaxChangedFiles(maximum) =>
          input := input.(maxChangedFiles := Min(input.maxChangedFiles, maximum));
        case LowerMaxAddedBytes(maximum) =>
          input := input.(maxAddedBytes := Min(input.maxAddedBytes, maximum));
        case AddCatalogSecret(catalogId, catalogVersion, name, pattern) =>
          var trusted := Trusted(name);
          if catalogId != CATALOG_ID || catalogVersion != CATALOG_VERSION || trusted == [] ||
            trusted[0].pattern != pattern {
            return Refused(CatalogReference);
          }
          if trusted[0].name !in SecretNames(input.secretPatterns) {
            input := input.(secretPatterns := input.secretPatterns + [trusted[0]]);
          }
        case MakeCommandRequired(name, commandHash, timeoutMs) =>
          var at := Place(input.validationCommands, name);
          if at == |input.validationCommands| { return Refused(CommandIdentity); }
          var command := input.validationCommands[at];
          if command.timeoutMs != timeoutMs || CommandHash(command.command, command.timeoutMs) != commandHash {
            return Refused(CommandIdentity);
          }
          input := input.(validationCommands := input.validationCommands[at := command.(required := true)]);
      }
    }
    assert operations[|operations|..] == [];
    var next := Sorted(o, input);
    if !Valid(compiles, next) { return Refused(NotAContract); }
    var stronger := AssertMonotonicStrengthening(base.rules, next);
    r := if stronger then Ok(Contract(base.version + 1, next)) else Refused(NotStronger);
  }

  // ---- Field by field ----

  ghost function RequiredBy(ops: seq<Operation>): set<string> { set op | op in ops && op.AddRequiredPath? :: op.path }

  ghost function ProtectedBy(ops: seq<Operation>): set<string> { set op | op in ops && op.AddProtectedPath? :: op.path }

  ghost function SecretsBy(names: seq<string>, ops: seq<Operation>): set<SecretRule> {
    set op | op in ops && op.AddCatalogSecret? && op.name !in names :: SecretRule(op.name, op.pattern)
  }

  ghost predicate MadeRequired(ops: seq<Operation>, name: string) {
    exists op | op in ops :: op.MakeCommandRequired? && op.name == name
  }

  ghost predicate Referring(r: Rules, ops: seq<Operation>) { forall op | op in ops :: RefersTo(r, op) }

  lemma WithPathElements(paths: seq<string>, path: string)
    ensures Elements(WithPath(paths, path)) == Elements(paths) + {path}
    ensures Once(paths) ==> Once(WithPath(paths, path))
  {
    ElementsSnoc(paths, path);
  }

  lemma {:induction false} RequiredPathsOf(r: Rules, ops: seq<Operation>)
    requires Once(r.requiredPaths)
    ensures Elements(Steps(r, ops).requiredPaths) == Elements(r.requiredPaths) + RequiredBy(ops)
    ensures Once(Steps(r, ops).requiredPaths)
    decreases |ops|
  {
    hide Once, Elements, WithPath;
    if ops != [] {
      if ops[0].AddRequiredPath? { WithPathElements(r.requiredPaths, ops[0].path); }
      RequiredPathsOf(Step(r, ops[0]), ops[1..]);
      assert RequiredBy(ops) == RequiredBy(ops[1..]) + if ops[0].AddRequiredPath? then {ops[0].path} else {};
    }
  }

  lemma {:induction false} ProtectedPathsOf(r: Rules, ops: seq<Operation>)
    requires Once(r.protectedPaths)
    ensures Elements(Steps(r, ops).protectedPaths) == Elements(r.protectedPaths) + ProtectedBy(ops)
    ensures Once(Steps(r, ops).protectedPaths)
    decreases |ops|
  {
    hide Once, Elements, WithPath;
    if ops != [] {
      if ops[0].AddProtectedPath? { WithPathElements(r.protectedPaths, ops[0].path); }
      ProtectedPathsOf(Step(r, ops[0]), ops[1..]);
      assert ProtectedBy(ops) == ProtectedBy(ops[1..]) + if ops[0].AddProtectedPath? then {ops[0].path} else {};
    }
  }

  /** The lowest of a limit and the maxima that a list of operations asks for. */
  ghost predicate Lowest(from_: int, asked: set<int>, n: int) {
    (n == from_ || n in asked) && n <= from_ && forall m | m in asked :: n <= m
  }

  ghost function FilesBy(ops: seq<Operation>): set<int> { set op | op in ops && op.LowerMaxChangedFiles? :: op.maximum }

  ghost function BytesBy(ops: seq<Operation>): set<int> { set op | op in ops && op.LowerMaxAddedBytes? :: op.maximum }

  lemma {:induction false} LimitsOf(r: Rules, ops: seq<Operation>)
    ensures Lowest(r.maxChangedFiles, FilesBy(ops), Steps(r, ops).maxChangedFiles)
    ensures Lowest(r.maxAddedBytes, BytesBy(ops), Steps(r, ops).maxAddedBytes)
    decreases |ops|
  {
    if ops != [] {
      LimitsOf(Step(r, ops[0]), ops[1..]);
      assert FilesBy(ops) == FilesBy(ops[1..]) + if ops[0].LowerMaxChangedFiles? then {ops[0].maximum} else {};
      assert BytesBy(ops) == BytesBy(ops[1..]) + if ops[0].LowerMaxAddedBytes? then {ops[0].maximum} else {};
    }
  }

  lemma SecretNamesSnoc(rules: seq<SecretRule>, rule: SecretRule)
    ensures SecretNames(rules + [rule]) == SecretNames(rules) + [rule.name]
  {
  }

  lemma {:induction false} SecretsOf(r: Rules, ops: seq<Operation>)
    requires Referring(r, ops) && Once(SecretNames(r.secretPatterns))
    ensures Elements(Steps(r, ops).secretPatterns) == Elements(r.secretPatterns) +
      SecretsBy(SecretNames(r.secretPatterns), ops)
    ensures Once(SecretNames(Steps(r, ops).secretPatterns))
    decreases |ops|
  {
    if ops != [] {
      var next := Step(r, ops[0]);
      StillReferring(r, ops);
      SecretStep(r, ops);
      SecretsOf(next, ops[1..]);
    }
  }

  lemma SecretStep(r: Rules, ops: seq<Operation>)
    requires ops != [] && Referring(r, ops) && Once(SecretNames(r.secretPatterns))
    ensures var next := Step(r, ops[0]);
      && Once(SecretNames(next.secretPatterns))
      && Elements(next.secretPatterns) + SecretsBy(SecretNames(next.secretPatterns), ops[1..])
         == Elements(r.secretPatterns) + SecretsBy(SecretNames(r.secretPatterns), ops)
  {
    var next, names := Step(r, ops[0]), SecretNames(r.secretPatterns);
    if ops[0].AddCatalogSecret? && ops[0].name !in names {
      var rule := SecretRule(ops[0].name, ops[0].pattern);
      SecretNamesSnoc(r.secretPatterns, rule);
      ElementsSnoc(r.secretPatterns, rule);
      assert RefersTo(r, ops[0]);
      forall op | op in ops[1..] && op.AddCatalogSecret? && op.name == rule.name
        ensures SecretRule(op.name, op.pattern) == rule
      {
        assert RefersTo(r, op);
      }
      assert SecretsBy(names, ops) == SecretsBy(names + [rule.name], ops[1..]) + {rule};
    } else {
      assert next.secretPatterns == r.secretPatterns;
      assert SecretsBy(names, ops) == SecretsBy(names, ops[1..]);
    }
  }

  /** Commands keep their names and texts, in their places; some become required. */
  ghost predicate CommandsBecome(before: seq<Command>, ops: seq<Operation>, after: seq<Command>) {
    && |after| == |before|
    && forall i | 0 <= i < |before| ::
         after[i] == before[i].(required := before[i].required || MadeRequired(ops, before[i].name))
  }

  predicate SameIdentities(a: seq<Command>, b: seq<Command>) {
    |a| == |b| && forall i | 0 <= i < |a| ::
      a[i].name == b[i].name && a[i].command == b[i].command && a[i].timeoutMs == b[i].timeoutMs
  }

  lemma StepIdentities(r: Rules, op: Operation)
    ensures SameIdentities(r.validationCommands, Step(r, op).validationCommands)
  {
  }

  lemma StillReferring(r: Rules, ops: seq<Operation>)
    requires ops != []
    ensures Referring(r, ops[1..]) <==> Referring(Step(r, ops[0]), ops[1..])
  {
    StepIdentities(r, ops[0]);
    forall op | op in ops[1..] ensures RefersTo(r, op) <==> RefersTo(Step(r, ops[0]), op) {
    }
  }

  /** A list is refused for a reference exactly when one of its references fails against the base. */
  lemma {:induction false} RefusalsMeaning(r: Rules, ops: seq<Operation>)
    ensures Refusals(r, ops) == [] <==> Referring(r, ops)
    decreases |ops|
  {
    if ops != [] {
      StillReferring(r, ops);
      RefusalsMeaning(Step(r, ops[0]), ops[1..]);
    }
  }

  lemma {:induction false} CommandsOf(r: Rules, ops: seq<Operation>)
    requires Once(CommandNames(r.validationCommands))
    ensures CommandsBecome(r.validationCommands, ops, Steps(r, ops).validationCommands)
    decreases |ops|
  {
    if ops == [] {
    } else {
      var next := Step(r, ops[0]);
      StepIdentities(r, ops[0]);
      assert CommandNames(next.validationCommands) == CommandNames(r.validationCommands);
      CommandsOf(next, ops[1..]);
      var before, after := r.validationCommands, Steps(r, ops).validationCommands;
      forall i | 0 <= i < |before|
        ensures after[i] == before[i].(required := before[i].required || MadeRequired(ops, before[i].name))
      {
        PlaceOfOnly(before, i);
        assert MadeRequired(ops, before[i].name) <==>
               MadeRequired(ops[1..], before[i].name) || (ops[0].MakeCommandRequired? && ops[0].name == before[i].name);
      }
    }
  }
}
