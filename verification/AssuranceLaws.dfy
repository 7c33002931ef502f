/** What a list of assurance operations does to a contract, for every list: when it applies, that the order of the list
  does not matter, and which Candidates the result still accepts.
*/
module AssuranceLaws {
  import opened AssuranceOperations
  import opened ContractStrengthening
  import opened OutcomeContracts
  import opened OutcomeChecks
  import opened Sorting

  ghost predicate Collates(o: Orders) { TotalOrder(o.path) && TotalOrder(o.name) }

  ghost predicate CatalogCompiles(compiles: string -> bool) { compiles(CATALOG[0].pattern) }

  // ---- Sorting keeps what a list of rules asks for ----

  lemma TotalByName(less: (string, string) -> bool, rules: seq<SecretRule>, o: Orders)
    requires TotalOrder(less) && o.name == less && Once(SecretNames(rules))
    ensures TotalOn(SecretBefore(o), Elements(rules))
  {
    forall a, b | a in Elements(rules) && b in Elements(rules) && a.name == b.name ensures a == b {
      var i := PlaceOf(rules, a);
      var j := PlaceOf(rules, b);
      assert SecretNames(rules)[i] == SecretNames(rules)[j];
    }
  }

  lemma TotalByCommand(less: (string, string) -> bool, commands: seq<Command>, o: Orders)
    requires TotalOrder(less) && o.name == less && Once(CommandNames(commands))
    ensures TotalOn(CommandBefore(o), Elements(commands))
  {
    forall a, b | a in Elements(commands) && b in Elements(commands) && a.name == b.name ensures a == b {
      var i := PlaceOf(commands, a);
      var j := PlaceOf(commands, b);
      assert CommandNames(commands)[i] == CommandNames(commands)[j];
    }
  }

  /** A sorted list of distinct things: the same things, in order, once each. */
  lemma SortedList<T(!new)>(less: (T, T) -> bool, q: seq<T>)
    requires TotalOn(less, Elements(q)) && Once(q)
    ensures Elements(Sort(less, q)) == Elements(q) && |Sort(less, q)| == |q|
    ensures Once(Sort(less, q)) && InOrder(less, Sort(less, q))
  {
    SortSorts(less, Elements(q), q);
  }

  lemma SecretNamesSorted(o: Orders, rules: seq<SecretRule>)
    requires Collates(o) && Once(SecretNames(rules))
    ensures var s := Sort(SecretBefore(o), rules);
      Elements(s) == Elements(rules) && |s| == |rules| && Once(SecretNames(s)) && InOrder(SecretBefore(o), s)
  {
    hide TotalOrder;
    NamesOnce(rules);
    TotalByName(o.name, rules, o);
    SortedList(SecretBefore(o), rules);
    var s := Sort(SecretBefore(o), rules);
    forall i, j | 0 <= i < j < |s| ensures SecretNames(s)[i] != SecretNames(s)[j] {
      assert SecretBefore(o)(s[i], s[j]);
      NeverBeforeItself(o, s[i].name);
    }
  }

  lemma NeverBeforeItself(o: Orders, name: string)
    requires Collates(o)
    ensures !o.name(name, name)
  {
  }

  lemma CommandsOnce(commands: seq<Command>)
    requires Once(CommandNames(commands))
    ensures Once(commands)
  {
    forall i, j | 0 <= i < j < |commands| ensures commands[i] != commands[j] {
      assert CommandNames(commands)[i] != CommandNames(commands)[j];
    }
  }

  lemma CommandNamesSorted(o: Orders, commands: seq<Command>)
    requires Collates(o) && Once(CommandNames(commands))
    ensures var s := Sort(CommandBefore(o), commands);
      Elements(s) == Elements(commands) && |s| == |commands| && Once(CommandNames(s)) && InOrder(CommandBefore(o), s)
  {
    hide TotalOrder;
    CommandsOnce(commands);
    TotalByCommand(o.name, commands, o);
    SortedList(CommandBefore(o), commands);
    var s := Sort(CommandBefore(o), commands);
    forall i, j | 0 <= i < j < |s| ensures CommandNames(s)[i] != CommandNames(s)[j] {
      assert CommandBefore(o)(s[i], s[j]);
      NeverBeforeItself(o, s[i].name);
    }
  }

  // ---- The result, as sets ----

  /** What the rules after a list of operations are, read off the base and the set of operations. */
  ghost predicate Becomes(o: Orders, base: Rules, ops: seq<Operation>, next: Rules) {
    && Elements(next.requiredPaths) == Elements(base.requiredPaths) + RequiredBy(ops)
    && InOrder(o.path, next.requiredPaths) && Once(next.requiredPaths)
    && Elements(next.protectedPaths) == Elements(base.protectedPaths) + ProtectedBy(ops)
    && InOrder(o.path, next.protectedPaths) && Once(next.protectedPaths)
    && Lowest(base.maxChangedFiles, FilesBy(ops), next.maxChangedFiles)
    && Lowest(base.maxAddedBytes, BytesBy(ops), next.maxAddedBytes)
    && Elements(next.secretPatterns) == Elements(base.secretPatterns) + SecretsBy(SecretNames(base.secretPatterns), ops)
    && InOrder(SecretBefore(o), next.secretPatterns) && Once(SecretNames(next.secretPatterns))
    && Elements(next.validationCommands) == CommandsAfter(base.validationCommands, ops)
    && InOrder(CommandBefore(o), next.validationCommands) && Once(CommandNames(next.validationCommands))
    && |next.validationCommands| == |base.validationCommands|
  }

  ghost function After(c: Command, ops: seq<Operation>): Command {
    c.(required := c.required || MadeRequired(ops, c.name))
  }

  ghost function CommandsAfter(commands: seq<Command>, ops: seq<Operation>): set<Command> {
    set c | c in commands :: After(c, ops)
  }

  /** Names that repeat nothing, and sizes in bounds. */
  ghost predicate Distinct(r: Rules) {
    Once(r.requiredPaths) && Once(r.protectedPaths) && Once(SecretNames(r.secretPatterns)) &&
    Once(CommandNames(r.validationCommands))
  }

  lemma OnElements(less: (string, string) -> bool, s: set<string>)
    requires TotalOrder(less)
    ensures TotalOn(less, s)
  {
  }

  lemma ResultBecomes(o: Orders, base: Rules, ops: seq<Operation>)
    requires Collates(o) && Distinct(base) && Referring(base, ops)
    ensures Becomes(o, base, ops, Sorted(o, Steps(base, ops)))
  {
    hide Once, InOrder, TotalOrder, TotalOn, Elements, Steps, Referring, Lowest, SecretNames, CommandNames,
      CommandsAfter, CommandsBecome;
    var input := Steps(base, ops);
    RequiredPathsOf(base, ops);
    ProtectedPathsOf(base, ops);
    LimitsOf(base, ops);
    SecretsOf(base, ops);
    CommandsOf(base, ops);
    OnElements(o.path, Elements(input.requiredPaths));
    OnElements(o.path, Elements(input.protectedPaths));
    SortedList(o.path, input.requiredPaths);
    SortedList(o.path, input.protectedPaths);
    SecretNamesSorted(o, input.secretPatterns);
    CommandsBecomeElements(base.validationCommands, ops, input.validationCommands);
    CommandNamesSorted(o, input.validationCommands);
  }

  lemma CommandsBecomeElements(before: seq<Command>, ops: seq<Operation>, after: seq<Command>)
    requires CommandsBecome(before, ops, after) && Once(CommandNames(before))
    ensures Elements(after) == CommandsAfter(before, ops) && Once(CommandNames(after)) && |after| == |before|
  {
    assert CommandNames(after) == CommandNames(before);
    forall c | c in CommandsAfter(before, ops) ensures c in Elements(after) {
      var b :| b in before && c == After(b, ops);
      var i :| 0 <= i < |before| && before[i] == b;
      assert after[i] == c;
    }
    forall c | c in Elements(after) ensures c in CommandsAfter(before, ops) {
      var i := PlaceOf(after, c);
      assert before[i] in before && c == After(before[i], ops);
    }
  }

  // ---- When a list applies ----

  /** An operation asks for something the base does not ask for yet. */
  predicate Effective(base: Rules, op: Operation) {
    match op
    case AddRequiredPath(path) => path !in base.requiredPaths
    case AddProtectedPath(path) => path !in base.protectedPaths
    case LowerMaxChangedFiles(maximum) => maximum < base.maxChangedFiles
    case LowerMaxAddedBytes(maximum) => maximum < base.maxAddedBytes
    case AddCatalogSecret(_, _, name, _) => name !in SecretNames(base.secretPatterns)
    case MakeCommandRequired(name, _, _) =>
      var i := Place(base.validationCommands, name);
      i < |base.validationCommands| && !base.validationCommands[i].required
  }

  /** An operation a contract could hold. */
  predicate Sound(op: Operation) {
    match op
    case AddRequiredPath(path) => SafePath(path)
    case AddProtectedPath(path) => SafePath(path)
    case LowerMaxChangedFiles(maximum) => 1 <= maximum
    case LowerMaxAddedBytes(maximum) => 0 <= maximum
    case _ => true
  }

  /** The rules still fit, counting what the list adds. */
  ghost predicate Room(base: Rules, ops: seq<Operation>) {
    && |Elements(base.requiredPaths) + RequiredBy(ops)| <= MAX_PATHS
    && |Elements(base.protectedPaths) + ProtectedBy(ops)| <= MAX_PATHS
    && |Elements(base.secretPatterns) + SecretsBy(SecretNames(base.secretPatterns), ops)| <= MAX_SECRETS
  }

  ghost predicate AllSound(ops: seq<Operation>) { forall op | op in ops :: Sound(op) }

  ghost predicate AnyEffective(base: Rules, ops: seq<Operation>) { exists op | op in ops :: Effective(base, op) }

  lemma ValidDistinct(compiles: string -> bool, r: Rules)
    requires Valid(compiles, r)
    ensures Distinct(r)
  {
  }

  lemma PathsOkMeans(base: seq<string>, added: set<string>, next: seq<string>)
    requires PathsOk(base) && Elements(next) == Elements(base) + added && Once(next)
    ensures PathsOk(next) <==> forall p | p in added :: SafePath(p)
    ensures |next| == |Elements(base) + added|
    ensures |next| > |base| <==> exists p | p in added :: p !in base
  {
    hide SafePath;
    OnceSize(next);
    assert forall p :: p in next <==> p in Elements(next);
    MoreMeansLonger(base, next);
  }

  lemma SecretsOkMeans(compiles: string -> bool, base: seq<SecretRule>, added: set<SecretRule>, next: seq<SecretRule>)
    requires SecretsOk(compiles, base) && Elements(next) == Elements(base) + added && Once(SecretNames(next))
    requires forall rule | rule in added :: SecretOk(compiles, rule) && rule.name !in SecretNames(base)
    ensures SecretsOk(compiles, next) && |next| == |Elements(base) + added|
    ensures |next| > |base| <==> added != {}
  {
    hide SecretOk;
    NamesOnce(base);
    NamesOnce(next);
    OnceSize(next);
    assert forall rule :: rule in next <==> rule in Elements(next);
    MoreMeansLonger(base, next);
    forall rule | rule in added ensures rule !in base {
      NamesIn(base);
    }
  }

  lemma NamesIn(rules: seq<SecretRule>)
    ensures forall rule | rule in rules :: rule.name in SecretNames(rules)
  {
    forall rule | rule in rules ensures rule.name in SecretNames(rules) {
      var i :| 0 <= i < |rules| && rules[i] == rule;
      assert SecretNames(rules)[i] == rule.name;
    }
  }

  lemma CatalogOk(compiles: string -> bool, base: Rules, ops: seq<Operation>)
    requires CatalogCompiles(compiles) && Referring(base, ops)
    ensures forall rule | rule in SecretsBy(SecretNames(base.secretPatterns), ops) ::
              SecretOk(compiles, rule) && rule.name !in SecretNames(base.secretPatterns)
  {
    hide Units;
    assert RuleName("private-key-block");
    UnitsBounds(CATALOG[0].pattern);
    forall op | op in ops && op.AddCatalogSecret? ensures SecretRule(op.name, op.pattern) == CATALOG[0] {
      assert RefersTo(base, op);
    }
  }

  lemma CommandsKept(base: seq<Command>, ops: seq<Operation>, next: seq<Command>)
    requires CommandsOk(base) && Elements(next) == CommandsAfter(base, ops) && Once(CommandNames(next))
    ensures CommandsOk(next)
    ensures forall c | c in base :: Place(next, c.name) < |next| && next[Place(next, c.name)] == After(c, ops)
    ensures forall c | c in base :: KeepsCommand(c, next)
  {
    forall c | c in next ensures CommandOk(c) {
      assert c in Elements(next);
      var b :| b in base && c == After(b, ops);
      assert CommandOk(b);
    }
    forall c | c in base ensures Place(next, c.name) < |next| && next[Place(next, c.name)] == After(c, ops) {
      assert After(c, ops) in Elements(next);
      var j := PlaceOf(next, After(c, ops));
      PlaceOfOnly(next, j);
    }
  }

  /** Whatever the list, the rules it gives drop nothing. */
  lemma AlwaysKeeps(o: Orders, compiles: string -> bool, base: Rules, ops: seq<Operation>, next: Rules)
    requires Valid(compiles, base) && Becomes(o, base, ops, next)
    ensures Keeps(base, next)
  {
    hide CommandsOk, PathsOk, SecretsOk, LimitsOk, Fits, InOrder, Once, KeepsCommand, After;
    CommandsKept(base.validationCommands, ops, next.validationCommands);
    ElementsKept(base.requiredPaths, next.requiredPaths, RequiredBy(ops));
    ElementsKept(base.protectedPaths, next.protectedPaths, ProtectedBy(ops));
    ElementsKept(base.secretPatterns, next.secretPatterns, SecretsBy(SecretNames(base.secretPatterns), ops));
  }

  lemma ElementsKept<T>(p: seq<T>, q: seq<T>, added: set<T>)
    requires Elements(q) == Elements(p) + added
    ensures forall e | e in p :: e in q
  {
    forall e | e in p ensures e in q { assert e in Elements(q); }
  }

  /** The rules may be written down exactly when every operation is sound and there is room. */
  lemma ValidMeans(o: Orders, compiles: string -> bool, base: Rules, ops: seq<Operation>, next: Rules)
    requires Valid(compiles, base) && CatalogCompiles(compiles) && Referring(base, ops) && Becomes(o, base, ops, next)
    ensures Valid(compiles, next) <==> AllSound(ops) && Room(base, ops)
  {
    hide CommandsOk, PathsOk, SecretsOk, SafePath, InOrder, Once, KeepsCommand, After, Elements, SecretNames,
      CommandNames, Referring, CommandsAfter, Lowest, SecretOk;
    PathsOkMeans(base.requiredPaths, RequiredBy(ops), next.requiredPaths);
    PathsOkMeans(base.protectedPaths, ProtectedBy(ops), next.protectedPaths);
    CatalogOk(compiles, base, ops);
    SecretsOkMeans(compiles, base.secretPatterns, SecretsBy(SecretNames(base.secretPatterns), ops),
      next.secretPatterns);
    CommandsKept(base.validationCommands, ops, next.validationCommands);
    LimitsMean(base, ops, next);
    SoundByField(ops);
  }

  lemma LimitsMean(base: Rules, ops: seq<Operation>, next: Rules)
    requires LimitsOk(base) && Lowest(base.maxChangedFiles, FilesBy(ops), next.maxChangedFiles)
    requires Lowest(base.maxAddedBytes, BytesBy(ops), next.maxAddedBytes)
    ensures LimitsOk(next) <==> (forall m | m in FilesBy(ops) :: 1 <= m) && (forall m | m in BytesBy(ops) :: 0 <= m)
    ensures next.maxChangedFiles < base.maxChangedFiles <==> exists m | m in FilesBy(ops) :: m < base.maxChangedFiles
    ensures next.maxAddedBytes < base.maxAddedBytes <==> exists m | m in BytesBy(ops) :: m < base.maxAddedBytes
  {
    hide FilesBy, BytesBy;
  }

  lemma SoundByField(ops: seq<Operation>)
    ensures AllSound(ops) <==>
      && (forall p | p in RequiredBy(ops) :: SafePath(p)) && (forall p | p in ProtectedBy(ops) :: SafePath(p))
      && (forall m | m in FilesBy(ops) :: 1 <= m) && (forall m | m in BytesBy(ops) :: 0 <= m)
  {
    hide SafePath;
    if (forall p | p in RequiredBy(ops) :: SafePath(p)) && (forall p | p in ProtectedBy(ops) :: SafePath(p)) &&
       (forall m | m in FilesBy(ops) :: 1 <= m) && (forall m | m in BytesBy(ops) :: 0 <= m) {
      forall op | op in ops ensures Sound(op) {
        match op
        case AddRequiredPath(path) => assert path in RequiredBy(ops);
        case AddProtectedPath(path) => assert path in ProtectedBy(ops);
        case LowerMaxChangedFiles(maximum) => assert maximum in FilesBy(ops);
        case LowerMaxAddedBytes(maximum) => assert maximum in BytesBy(ops);
        case _ =>
      }
    }
  }

  /** The rules ask for more exactly when some operation asks for something new. */
  lemma AddsMeans(o: Orders, compiles: string -> bool, base: Rules, ops: seq<Operation>, next: Rules)
    requires Valid(compiles, base) && CatalogCompiles(compiles) && Referring(base, ops) && Becomes(o, base, ops, next)
    ensures Adds(base, next) <==> AnyEffective(base, ops)
  {
    ValidDistinct(compiles, base);
    hide CommandsOk, PathsOk, SecretsOk, SafePath, InOrder, Once, KeepsCommand, Elements, SecretNames, CommandNames,
      CommandsAfter, Lowest, SecretOk, AnyEffective, NewlyRequired, RequiredBy, ProtectedBy, FilesBy, BytesBy,
      SecretsBy, Referring;
    PathsOkMeans(base.requiredPaths, RequiredBy(ops), next.requiredPaths);
    PathsOkMeans(base.protectedPaths, ProtectedBy(ops), next.protectedPaths);
    CatalogOk(compiles, base, ops);
    SecretsOkMeans(compiles, base.secretPatterns, SecretsBy(SecretNames(base.secretPatterns), ops),
      next.secretPatterns);
    LimitsMean(base, ops, next);
    CommandsKept(base.validationCommands, ops, next.validationCommands);
    NewlyRequiredMeans(base, ops, next);
    EffectiveByField(base, ops);
  }

  ghost predicate SomeCommand(base: Rules, ops: seq<Operation>) {
    exists c | c in base.validationCommands :: !c.required && MadeRequired(ops, c.name)
  }

  lemma NewlyRequiredMeans(base: Rules, ops: seq<Operation>, next: Rules)
    requires forall c | c in base.validationCommands ::
      Place(next.validationCommands, c.name) < |next.validationCommands| &&
      next.validationCommands[Place(next.validationCommands, c.name)] == After(c, ops)
    ensures (exists c | c in base.validationCommands :: NewlyRequired(c, next.validationCommands)) <==>
      SomeCommand(base, ops)
  {
    hide MadeRequired;
    if SomeCommand(base, ops) {
      var c :| c in base.validationCommands && !c.required && MadeRequired(ops, c.name);
      assert NewlyRequired(c, next.validationCommands);
    }
  }

  lemma EffectiveByField(base: Rules, ops: seq<Operation>)
    requires Once(CommandNames(base.validationCommands))
    ensures AnyEffective(base, ops) <==>
      || (exists p | p in RequiredBy(ops) :: p !in base.requiredPaths)
      || (exists p | p in ProtectedBy(ops) :: p !in base.protectedPaths)
      || (exists m | m in FilesBy(ops) :: m < base.maxChangedFiles)
      || (exists m | m in BytesBy(ops) :: m < base.maxAddedBytes)
      || SecretsBy(SecretNames(base.secretPatterns), ops) != {}
      || SomeCommand(base, ops)
  {
    hide Once, SecretNames;
    var names := SecretNames(base.secretPatterns);
    if AnyEffective(base, ops) {
      var op :| op in ops && Effective(base, op);
      match op
      case AddRequiredPath(path) => assert path in RequiredBy(ops);
      case AddProtectedPath(path) => assert path in ProtectedBy(ops);
      case LowerMaxChangedFiles(maximum) => assert maximum in FilesBy(ops);
      case LowerMaxAddedBytes(maximum) => assert maximum in BytesBy(ops);
      case AddCatalogSecret(_, _, name, pattern) => assert SecretRule(name, pattern) in SecretsBy(names, ops);
      case MakeCommandRequired(name, _, _) =>
        assert base.validationCommands[Place(base.validationCommands, name)] in base.validationCommands;
        assert SomeCommand(base, ops);
    }
    if rule :| rule in SecretsBy(names, ops) {
      var op :| op in ops && op.AddCatalogSecret? && op.name !in names;
      assert Effective(base, op);
    }
    if SomeCommand(base, ops) { SomeCommandEffective(base, ops); }
  }

  lemma SomeCommandEffective(base: Rules, ops: seq<Operation>)
    requires Once(CommandNames(base.validationCommands)) && SomeCommand(base, ops)
    ensures AnyEffective(base, ops)
  {
    var c :| c in base.validationCommands && !c.required && MadeRequired(ops, c.name);
    var i :| 0 <= i < |base.validationCommands| && base.validationCommands[i] == c;
    PlaceOfOnly(base.validationCommands, i);
    var op :| op in ops && op.MakeCommandRequired? && op.name == c.name;
    assert Effective(base, op);
  }

  /** A list applies exactly when its references hold, each operation is sound, there is room, and something is new. */
  lemma AppliesExactly(o: Orders, compiles: string -> bool, base: Contract, ops: seq<Operation>)
    requires Collates(o) && Valid(compiles, base.rules) && CatalogCompiles(compiles)
    ensures Apply(o, compiles, base, ops).Ok? <==>
      Referring(base.rules, ops) && AllSound(ops) && Room(base.rules, ops) && AnyEffective(base.rules, ops)
  {
    hide Valid, Referring, AllSound, Room, AnyEffective, Becomes, Keeps, Adds, Collates, Sorted, Steps, Refusals;
    RefusalsMeaning(base.rules, ops);
    if Referring(base.rules, ops) {
      ValidDistinct(compiles, base.rules);
      ResultBecomes(o, base.rules, ops);
      var next := Sorted(o, Steps(base.rules, ops));
      ValidMeans(o, compiles, base.rules, ops, next);
      AlwaysKeeps(o, compiles, base.rules, ops, next);
      AddsMeans(o, compiles, base.rules, ops, next);
    }
  }

  // ---- The order of the list does not matter ----

  lemma BecomesOnce(o: Orders, base: Rules, p: seq<Operation>, q: seq<Operation>, a: Rules, b: Rules)
    requires Collates(o) && Elements(p) == Elements(q) && Becomes(o, base, p, a) && Becomes(o, base, q, b)
    ensures a == b
  {
    SameAsked(base, p, q);
    hide InOrder, Elements, Once, TotalOrder, TotalOn, SecretNames, CommandNames, CommandsAfter, Lowest, RequiredBy,
      ProtectedBy, FilesBy, BytesBy, SecretsBy;
    OnElements(o.path, Elements(a.requiredPaths));
    OnElements(o.path, Elements(a.protectedPaths));
    OrderUnique(o.path, Elements(a.requiredPaths), a.requiredPaths, b.requiredPaths);
    OrderUnique(o.path, Elements(a.protectedPaths), a.protectedPaths, b.protectedPaths);
    TotalByName(o.name, a.secretPatterns, o);
    OrderUnique(SecretBefore(o), Elements(a.secretPatterns), a.secretPatterns, b.secretPatterns);
    TotalByCommand(o.name, a.validationCommands, o);
    OrderUnique(CommandBefore(o), Elements(a.validationCommands), a.validationCommands, b.validationCommands);
    LowestOnce(base.maxChangedFiles, FilesBy(p), a.maxChangedFiles, b.maxChangedFiles);
    LowestOnce(base.maxAddedBytes, BytesBy(p), a.maxAddedBytes, b.maxAddedBytes);
  }

  lemma LowestOnce(from_: int, asked: set<int>, m: int, n: int)
    requires Lowest(from_, asked, m) && Lowest(from_, asked, n)
    ensures m == n
  {
  }

  lemma SameAsked(base: Rules, p: seq<Operation>, q: seq<Operation>)
    requires Elements(p) == Elements(q)
    ensures RequiredBy(p) == RequiredBy(q) && ProtectedBy(p) == ProtectedBy(q) && FilesBy(p) == FilesBy(q)
    ensures BytesBy(p) == BytesBy(q)
    ensures SecretsBy(SecretNames(base.secretPatterns), p) == SecretsBy(SecretNames(base.secretPatterns), q)
    ensures CommandsAfter(base.validationCommands, p) == CommandsAfter(base.validationCommands, q)
    ensures Referring(base, p) <==> Referring(base, q)
    ensures AllSound(p) <==> AllSound(q)
    ensures AnyEffective(base, p) <==> AnyEffective(base, q)
    ensures Room(base, p) <==> Room(base, q)
  {
    assert forall op :: op in p <==> op in Elements(p);
    assert forall op :: op in q <==> op in Elements(q);
    assert forall op :: op in p <==> op in q;
    hide Effective, Sound, RefersTo, SecretNames;
    forall c | c in base.validationCommands ensures After(c, p) == After(c, q) {
      assert MadeRequired(p, c.name) <==> MadeRequired(q, c.name);
    }
  }

  /** Two lists of the same operations, in any order and with any repetitions, give the same contract or both fail. */
  lemma OrderIrrelevant(o: Orders, compiles: string -> bool, base: Contract, p: seq<Operation>, q: seq<Operation>)
    requires Collates(o) && Valid(compiles, base.rules) && CatalogCompiles(compiles) && Elements(p) == Elements(q)
    ensures Apply(o, compiles, base, p).Ok? <==> Apply(o, compiles, base, q).Ok?
    ensures Apply(o, compiles, base, p).Ok? ==> Apply(o, compiles, base, p) == Apply(o, compiles, base, q)
  {
    hide Valid, Referring, AllSound, AnyEffective, Becomes, Keeps, Adds, Collates, Sorted, Steps, Elements, Stronger,
      Room, RequiredBy, ProtectedBy, FilesBy, BytesBy, SecretsBy, CommandsAfter, SecretNames, Refusals;
    AppliesExactly(o, compiles, base, p);
    AppliesExactly(o, compiles, base, q);
    SameAsked(base.rules, p, q);
    RefusalsMeaning(base.rules, p);
    RefusalsMeaning(base.rules, q);
    if Apply(o, compiles, base, p).Ok? {
      ValidDistinct(compiles, base.rules);
      ResultBecomes(o, base.rules, p);
      ResultBecomes(o, base.rules, q);
      BecomesOnce(o, base.rules, p, q, Sorted(o, Steps(base.rules, p)), Sorted(o, Steps(base.rules, q)));
    }
  }

  // ---- Which Candidates the result accepts ----

  /** A Candidate meets an operation. A catalog rule that a base rule of the same name shadows asks for nothing. */
  ghost predicate Meets(w: World, base: Rules, x: Shown, op: Operation) {
    match op
    case AddRequiredPath(path) => Present(w, path, x)
    case AddProtectedPath(path) => forall c | c in x.changes :: !w.matches(c.path, path)
    case LowerMaxChangedFiles(maximum) => |x.changes| <= maximum
    case LowerMaxAddedBytes(maximum) => x.totalAddedBytes <= maximum
    case AddCatalogSecret(_, _, name, pattern) =>
      name in SecretNames(base.secretPatterns) || forall c | c in x.changes ::
        Clean(w, [SecretRule(name, pattern)], x, c)
    case MakeCommandRequired(name, _, _) =>
      forall c | c in base.validationCommands && c.name == name :: w.runs(c.name, c.command, c.timeoutMs) == Passed
  }

  ghost predicate MeetsAll(w: World, base: Rules, x: Shown, ops: seq<Operation>) {
    forall op | op in ops :: Meets(w, base, x, op)
  }

  /** A strengthened contract never accepts what its base turns away. */
  lemma StrengthenedRefines(o: Orders, compiles: string -> bool, base: Contract, ops: seq<Operation>, w: World,
                            x: Shown)
    requires Apply(o, compiles, base, ops).Ok? && AcceptedBy(w, Apply(o, compiles, base, ops).value.rules, x)
    ensures AcceptedBy(w, base.rules, x)
  {
    hide Valid, Sorted, Refusals, Keeps, AcceptedBy;
    KeepingRefines(base.rules, Apply(o, compiles, base, ops).value.rules, w, x);
  }

  /** It accepts exactly the Candidates that its base accepts and that meet every operation. */
  lemma StrengthenedAccepts(o: Orders, compiles: string -> bool, base: Contract, ops: seq<Operation>, w: World,
                            x: Shown)
    requires Collates(o) && Valid(compiles, base.rules) && Apply(o, compiles, base, ops).Ok?
    ensures AcceptedBy(w, Apply(o, compiles, base, ops).value.rules, x) <==>
      AcceptedBy(w, base.rules, x) && MeetsAll(w, base.rules, x, ops)
  {
    var next := Apply(o, compiles, base, ops).value.rules;
    hide Valid, Referring, Becomes, Keeps, Adds, Collates, Sorted, Steps, AcceptedBy, MeetsAll, Refusals;
    RefusalsMeaning(base.rules, ops);
    ValidDistinct(compiles, base.rules);
    ResultBecomes(o, base.rules, ops);
    if AcceptedBy(w, next, x) {
      KeepingRefines(base.rules, next, w, x);
      AcceptedMeets(o, base.rules, ops, next, w, x);
    }
    if AcceptedBy(w, base.rules, x) &&
      MeetsAll(w, base.rules, x, ops) { MeetingIsAccepted(o, base.rules, ops, next, w, x); }
  }

  lemma AcceptedMeets(o: Orders, base: Rules, ops: seq<Operation>, next: Rules, w: World, x: Shown)
    requires Becomes(o, base, ops, next) && AcceptedBy(w, next, x)
    ensures MeetsAll(w, base, x, ops)
  {
    hide InOrder, Once;
    forall op | op in ops ensures Meets(w, base, x, op) {
      match op
      case AddRequiredPath(path) => assert path in RequiredBy(ops) && path in Elements(next.requiredPaths);
      case AddProtectedPath(path) => assert path in ProtectedBy(ops) && path in Elements(next.protectedPaths);
      case LowerMaxChangedFiles(maximum) => assert maximum in FilesBy(ops);
      case LowerMaxAddedBytes(maximum) => assert maximum in BytesBy(ops);
      case AddCatalogSecret(_, _, name, pattern) => CatalogMet(o, base, ops, next, w, x, op);
      case MakeCommandRequired(name, _, _) => CommandMet(o, base, ops, next, w, x, op);
    }
  }

  lemma CatalogMet(o: Orders, base: Rules, ops: seq<Operation>, next: Rules, w: World, x: Shown, op: Operation)
    requires Becomes(o, base, ops, next) && NoSecrets(w, next, x) && op in ops && op.AddCatalogSecret?
    ensures Meets(w, base, x, op)
  {
    hide InOrder, Once, SecretNames;
    if op.name !in SecretNames(base.secretPatterns) {
      assert SecretRule(op.name, op.pattern) in SecretsBy(SecretNames(base.secretPatterns), ops);
      assert SecretRule(op.name, op.pattern) in Elements(next.secretPatterns);
      forall c | c in x.changes ensures Clean(w, [SecretRule(op.name, op.pattern)], x, c) {
        assert Clean(w, next.secretPatterns, x, c);
      }
    }
  }

  lemma CommandMet(o: Orders, base: Rules, ops: seq<Operation>, next: Rules, w: World, x: Shown, op: Operation)
    requires Becomes(o, base, ops, next) && CommandsPass(w, next) && op in ops && op.MakeCommandRequired?
    ensures Meets(w, base, x, op)
  {
    forall c | c in base.validationCommands && c.name == op.name
      ensures w.runs(c.name, c.command, c.timeoutMs) == Passed
    {
      assert MadeRequired(ops, c.name);
      assert After(c, ops) in Elements(next.validationCommands);
      assert After(c, ops) in next.validationCommands;
    }
  }

  lemma MeetingIsAccepted(o: Orders, base: Rules, ops: seq<Operation>, next: Rules, w: World, x: Shown)
    requires Becomes(o, base, ops, next) && AcceptedBy(w, base, x) && MeetsAll(w, base, x, ops)
    ensures AcceptedBy(w, next, x)
  {
    hide InOrder, Once, SecretNames, CommandNames;
    forall p | p in next.requiredPaths ensures Present(w, p, x) {
      assert p in Elements(next.requiredPaths);
      if p in RequiredBy(ops) {
        var op :| op in ops && op.AddRequiredPath? && op.path == p;
        assert Meets(w, base, x, op);
      }
    }
    forall c, p | c in x.changes && p in next.protectedPaths ensures !w.matches(c.path, p) {
      assert p in Elements(next.protectedPaths);
      if p in ProtectedBy(ops) {
        var op :| op in ops && op.AddProtectedPath? && op.path == p;
        assert Meets(w, base, x, op);
      }
    }
    MeetingLimits(o, base, ops, next, w, x);
    MeetingSecrets(o, base, ops, next, w, x);
    MeetingCommands(o, base, ops, next, w, x);
  }

  lemma MeetingLimits(o: Orders, base: Rules, ops: seq<Operation>, next: Rules, w: World, x: Shown)
    requires Becomes(o, base, ops, next) && WithinLimits(base, x) && MeetsAll(w, base, x, ops)
    ensures WithinLimits(next, x)
  {
    hide InOrder, Once, SecretNames, CommandNames, Elements;
    if next.maxChangedFiles in FilesBy(ops) {
      var op :| op in ops && op.LowerMaxChangedFiles? && op.maximum == next.maxChangedFiles;
      assert Meets(w, base, x, op);
    }
    if next.maxAddedBytes in BytesBy(ops) {
      var op :| op in ops && op.LowerMaxAddedBytes? && op.maximum == next.maxAddedBytes;
      assert Meets(w, base, x, op);
    }
  }

  lemma MeetingSecrets(o: Orders, base: Rules, ops: seq<Operation>, next: Rules, w: World, x: Shown)
    requires Becomes(o, base, ops, next) && NoSecrets(w, base, x) && MeetsAll(w, base, x, ops)
    ensures NoSecrets(w, next, x)
  {
    hide InOrder, Once, SecretNames, CommandNames;
    var names := SecretNames(base.secretPatterns);
    forall c | c in x.changes ensures Clean(w, next.secretPatterns, x, c) {
      assert Clean(w, base.secretPatterns, x, c);
      if Scanned(x, c) {
        forall rule | rule in next.secretPatterns ensures !w.finds(rule.pattern, w.content(c.path).value) {
          assert rule in Elements(next.secretPatterns);
          if rule in SecretsBy(names, ops) {
            var op :| op in ops && op.AddCatalogSecret? && op.name !in names && SecretRule(op.name, op.pattern) == rule;
            assert Meets(w, base, x, op);
            assert Clean(w, [rule], x, c) && rule in [rule];
          }
        }
      }
    }
  }

  lemma MeetingCommands(o: Orders, base: Rules, ops: seq<Operation>, next: Rules, w: World, x: Shown)
    requires Becomes(o, base, ops, next) && CommandsPass(w, base) && MeetsAll(w, base, x, ops)
    ensures CommandsPass(w, next)
  {
    hide InOrder, Once, SecretNames, CommandNames;
    forall c | c in next.validationCommands && c.required ensures w.runs(c.name, c.command, c.timeoutMs) == Passed {
      assert c in Elements(next.validationCommands);
      var b :| b in base.validationCommands && c == After(b, ops);
      if !b.required {
        var op :| op in ops && op.MakeCommandRequired? && op.name == b.name;
        assert Meets(w, base, x, op);
      }
    }
  }

  // ---- A base rule can shadow the catalog ----
  //
  // In a list that was put together freely. A list derived from the base itself is never shadowed: see
  // AssuranceProposals.DerivedNeverShadowed.

  /** A rule that carries the catalog rule's name and asks for something else. */
  ghost predicate Shadows(rules: seq<SecretRule>) {
    exists rule | rule in rules :: rule.name == CATALOG[0].name && rule != CATALOG[0]
  }

  /** A list that adds the catalog rule has it in its result exactly when no base rule shadows it. */
  lemma ShadowedCatalog(o: Orders, compiles: string -> bool, base: Contract, ops: seq<Operation>)
    requires Collates(o) && Valid(compiles, base.rules) && Apply(o, compiles, base, ops).Ok?
    requires exists op | op in ops :: op.AddCatalogSecret?
    ensures CATALOG[0] in Apply(o, compiles, base, ops).value.rules.secretPatterns <==>
      !Shadows(base.rules.secretPatterns)
  {
    hide Valid, Collates, Sorted, Steps, Refusals, Stronger, Elements;
    RefusalsMeaning(base.rules, ops);
    ValidDistinct(compiles, base.rules);
    ResultBecomes(o, base.rules, ops);
    var rules, next := base.rules.secretPatterns, Apply(o, compiles, base, ops).value.rules.secretPatterns;
    assert CATALOG[0] in next <==> CATALOG[0] in Elements(next) by { InElements(next, CATALOG[0]); }
    InElements(rules, CATALOG[0]);
    CatalogAdded(base.rules, ops);
    NamedOnce(rules, CATALOG[0]);
  }

  lemma InElements<T>(s: seq<T>, e: T)
    ensures e in Elements(s) <==> e in s
  {
  }

  lemma CatalogAdded(base: Rules, ops: seq<Operation>)
    requires Referring(base, ops) && exists op | op in ops :: op.AddCatalogSecret?
    ensures var names := SecretNames(base.secretPatterns);
      SecretsBy(names, ops) == if CATALOG[0].name in names then {} else {CATALOG[0]}
  {
    forall op | op in ops && op.AddCatalogSecret? ensures SecretRule(op.name, op.pattern) == CATALOG[0] {
      assert RefersTo(base, op);
    }
  }

  /** Names do not repeat, so a name in use is the rule's own or one that shadows it. */
  lemma NamedOnce(rules: seq<SecretRule>, rule: SecretRule)
    requires Once(SecretNames(rules))
    ensures rule.name !in SecretNames(rules) ==> rule !in rules && forall r | r in rules :: r.name != rule.name
    ensures rule.name in SecretNames(rules) ==>
      (rule in rules <==> !exists r | r in rules :: r.name == rule.name && r != rule)
  {
    NamesIn(rules);
    if rule.name in SecretNames(rules) {
      var i :| 0 <= i < |rules| && SecretNames(rules)[i] == rule.name;
      forall r | r in rules && r.name == rule.name ensures r == rules[i] {
        var j :| 0 <= j < |rules| && rules[j] == r;
        assert SecretNames(rules)[j] == rule.name;
      }
      assert rules[i] in rules;
    }
  }

  function ShadowedRules(pattern: string): Rules { Rules([], [], 2, 0, [SecretRule(CATALOG[0].name, pattern)], []) }

  function AddingCatalog(): seq<Operation> {
    [AddCatalogSecret(CATALOG_ID, CATALOG_VERSION, CATALOG[0].name, CATALOG[0].pattern), LowerMaxChangedFiles(1)]
  }

  /** A base that shadows it, and a list that applies: the operation is accepted and the result looks for no key
    block. */
  lemma ShadowingBase(o: Orders, compiles: string -> bool, pattern: string)
    requires Collates(o) && CatalogCompiles(compiles) && compiles(pattern) && 1 <= |pattern| <= 500
    requires pattern != CATALOG[0].pattern
    ensures var base := Contract(1, ShadowedRules(pattern));
      && Valid(compiles, base.rules) && Apply(o, compiles, base, AddingCatalog()).Ok?
      && CATALOG[0] !in Apply(o, compiles, base, AddingCatalog()).value.rules.secretPatterns
  {
    var rules, ops := ShadowedRules(pattern), AddingCatalog();
    ShadowedValid(compiles, pattern);
    AddingApplies(pattern);
    assert rules.secretPatterns[0] in rules.secretPatterns && rules.secretPatterns[0] != CATALOG[0];
    assert ops[0] in ops && ops[0].AddCatalogSecret?;
    hide Valid, Referring, AnyEffective, AllSound, Room, Apply, Collates, CatalogCompiles, AddingCatalog;
    AppliesExactly(o, compiles, Contract(1, rules), ops);
    ShadowedCatalog(o, compiles, Contract(1, rules), ops);
  }

  lemma ShadowedValid(compiles: string -> bool, pattern: string)
    requires compiles(pattern) && 1 <= |pattern| <= 500
    ensures Valid(compiles, ShadowedRules(pattern))
  {
    UnitsBounds(pattern);
    assert RuleName("private-key-block");
    hide Units;
    assert SecretNames(ShadowedRules(pattern).secretPatterns) == [CATALOG[0].name];
  }

  lemma AddingApplies(pattern: string)
    ensures var rules, ops := ShadowedRules(pattern), AddingCatalog();
      Referring(rules, ops) && AllSound(ops) && Room(rules, ops) && AnyEffective(rules, ops)
  {
    var rules, ops := ShadowedRules(pattern), AddingCatalog();
    assert Effective(rules, ops[1]) && ops[1] in ops;
    assert SecretNames(rules.secretPatterns) == [CATALOG[0].name];
    assert SecretsBy([CATALOG[0].name], ops) == {};
    assert RequiredBy(ops) == {} && ProtectedBy(ops) == {};
    assert Elements(rules.secretPatterns) + {} == {rules.secretPatterns[0]};
  }
}
