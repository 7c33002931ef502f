/** Strengthening an Outcome Contract: applyAssuranceOperations and assertMonotonicStrengthening of assurance.ts.

  Digests are taken to be injective, so the hash of a command is the pair it hashes.
*/
module ContractStrengthening {
  import opened OutcomeContracts
  import opened OutcomeChecks
  import opened Sorting

  datatype CommandHash = CommandHash(command: string, timeoutMs: int)

  datatype Operation =
    | AddRequiredPath(path: string)
    | AddProtectedPath(path: string)
    | LowerMaxChangedFiles(maximum: int)
    | LowerMaxAddedBytes(maximum: int)
    | AddCatalogSecret(catalogId: string, catalogVersion: int, name: string, pattern: string)
    | MakeCommandRequired(name: string, commandHash: CommandHash, timeoutMs: int)

  const CATALOG_ID := "agent-airlock-secret-catalog"
  const CATALOG_VERSION := 1
  const CATALOG := [SecretRule("private-key-block", "-----BEGIN (?:RSA |EC |OPENSSH )?PRIVATE KEY-----")]

  datatype Refusal = CatalogReference | CommandIdentity | NotAContract | NotStronger

  datatype Result<T> = Ok(value: T) | Refused(why: Refusal)

  // ---- Stronger contracts ----

  /** The place of the first command of that name, or the number of commands. */
  function Place(commands: seq<Command>, name: string): (i: nat)
    ensures i <= |commands| && (i < |commands| ==> commands[i].name == name)
    ensures forall k | 0 <= k < i :: commands[k].name != name
  {
    if commands == [] || commands[0].name == name then 0 else 1 + Place(commands[1..], name)
  }

  predicate KeepsCommand(c: Command, next: seq<Command>) {
    var i := Place(next, c.name);
    i < |next| && next[i].command == c.command && next[i].timeoutMs == c.timeoutMs && (c.required ==> next[i].required)
  }

  /** Nothing the base asks for is dropped. */
  predicate Keeps(base: Rules, next: Rules) {
    && (forall p | p in base.requiredPaths :: p in next.requiredPaths)
    && (forall p | p in base.protectedPaths :: p in next.protectedPaths)
    && next.maxChangedFiles <= base.maxChangedFiles && next.maxAddedBytes <= base.maxAddedBytes
    && (forall s | s in base.secretPatterns :: s in next.secretPatterns)
    && (forall c | c in base.validationCommands :: KeepsCommand(c, next.validationCommands))
  }

  predicate NewlyRequired(c: Command, next: seq<Command>) {
    !c.required && Place(next, c.name) < |next| && next[Place(next, c.name)].required
  }

  /** Something more is asked for. */
  predicate Adds(base: Rules, next: Rules) {
    || next.maxChangedFiles < base.maxChangedFiles || next.maxAddedBytes < base.maxAddedBytes
    || |next.requiredPaths| > |base.requiredPaths| || |next.protectedPaths| > |base.protectedPaths|
    || |next.secretPatterns| > |base.secretPatterns|
    || (exists c | c in base.validationCommands :: NewlyRequired(c, next.validationCommands))
    || |next.validationCommands| > |base.validationCommands|
  }

  predicate Stronger(base: Rules, next: Rules) { Keeps(base, next) && Adds(base, next) }

  method AssertMonotonicStrengthening(base: Rules, proposed: Rules) returns (ok: bool)
    ensures ok <==> Stronger(base, proposed)
  {
    var strictlyStronger := false;
    for i := 0 to |base.requiredPaths|
      invariant forall k | 0 <= k < i :: base.requiredPaths[k] in proposed.requiredPaths
    {
      if base.requiredPaths[i] !in proposed.requiredPaths { return false; }
    }
    for i := 0 to |base.protectedPaths|
      invariant forall k | 0 <= k < i :: base.protectedPaths[k] in proposed.protectedPaths
    {
      if base.protectedPaths[i] !in proposed.protectedPaths { return false; }
    }
    if proposed.maxChangedFiles > base.maxChangedFiles || proposed.maxAddedBytes > base.maxAddedBytes { return false; }
    strictlyStronger := strictlyStronger || proposed.maxChangedFiles < base.maxChangedFiles;
    strictlyStronger := strictlyStronger || proposed.maxAddedBytes < base.maxAddedBytes;
    strictlyStronger := strictlyStronger || |proposed.requiredPaths| > |base.requiredPaths|;
    strictlyStronger := strictlyStronger || |proposed.protectedPaths| > |base.protectedPaths|;
    for i := 0 to |base.secretPatterns|
      invariant forall k | 0 <= k < i :: base.secretPatterns[k] in proposed.secretPatterns
    {
      if base.secretPatterns[i] !in proposed.secretPatterns { return false; }
    }
    strictlyStronger := strictlyStronger || |proposed.secretPatterns| > |base.secretPatterns|;
    ghost var soFar := strictlyStronger;
    var next := proposed.validationCommands;
    for i := 0 to |base.validationCommands|
      invariant forall k | 0 <= k < i :: KeepsCommand(base.validationCommands[k], next)
      invariant strictlyStronger <==> soFar || exists k | 0 <= k < i :: NewlyRequired(base.validationCommands[k], next)
    {
      var command := base.validationCommands[i];
      var at := Place(next, command.name);
      if at == |next| || next[at].command != command.command || next[at].timeoutMs != command.timeoutMs ||
         (command.required && !next[at].required) {
        assert command in base.validationCommands && !KeepsCommand(command, next);
        return false;
      }
      strictlyStronger := strictlyStronger || (!command.required && next[at].required);
    }
    strictlyStronger := strictlyStronger || |proposed.validationCommands| > |base.validationCommands|;
    ok := strictlyStronger;
    assert (exists k | 0 <= k < |base.validationCommands| :: NewlyRequired(base.validationCommands[k], next)) <==>
           exists c | c in base.validationCommands :: NewlyRequired(c, next);
  }

  /** A contract that keeps another's rules accepts no Candidate that the other turns away. */
  lemma KeepingRefines(base: Rules, next: Rules, w: World, x: Shown)
    requires Keeps(base, next) && AcceptedBy(w, next, x)
    ensures AcceptedBy(w, base, x)
  {
    assert AllPresent(w, base, x);
    assert Untouched(w, base, x);
    forall c | c in x.changes ensures Clean(w, base.secretPatterns, x, c) {
      assert Clean(w, next.secretPatterns, x, c);
    }
    forall c | c in base.validationCommands && c.required ensures w.runs(c.name, c.command, c.timeoutMs) == Passed {
      assert KeepsCommand(c, next.validationCommands);
      var i := Place(next.validationCommands, c.name);
      assert next.validationCommands[i] in next.validationCommands;
    }
  }

  // ---- Stronger is a strict order on contracts ----

  lemma PlaceOfOnly(commands: seq<Command>, i: nat)
    requires i < |commands| && Once(CommandNames(commands))
    ensures Place(commands, commands[i].name) == i
  {
    var k := Place(commands, commands[i].name);
    assert CommandNames(commands)[k] == CommandNames(commands)[i];
  }

  lemma MoreMeansLonger<T>(p: seq<T>, q: seq<T>)
    requires Once(p) && Once(q) && forall e | e in p :: e in q
    ensures |p| <= |q| && (|p| < |q| <==> exists e | e in q :: e !in p)
  {
    OnceSize(p);
    OnceSize(q);
    var a, b := Elements(p), Elements(q);
    SubsetSize(a, b);
    if e :| e in q && e !in p {
      SubsetSize(a + {e}, b);
    } else {
      assert a == b;
    }
  }

  lemma NamesOnce(rules: seq<SecretRule>)
    requires Once(SecretNames(rules))
    ensures Once(rules)
  {
    forall i, j | 0 <= i < j < |rules| ensures rules[i] != rules[j] {
      assert SecretNames(rules)[i] != SecretNames(rules)[j];
    }
  }

  /** No contract is stronger than itself. */
  lemma StrongerIrreflexive(compiles: string -> bool, r: Rules)
    requires Valid(compiles, r)
    ensures !Stronger(r, r)
  {
    forall c | c in r.validationCommands ensures !NewlyRequired(c, r.validationCommands) {
      var i :| 0 <= i < |r.validationCommands| && r.validationCommands[i] == c;
      PlaceOfOnly(r.validationCommands, i);
    }
  }

  lemma KeepsTransitive(a: Rules, b: Rules, c: Rules)
    requires Keeps(a, b) && Keeps(b, c)
    ensures Keeps(a, c)
  {
    forall x | x in a.validationCommands ensures KeepsCommand(x, c.validationCommands) {
      assert KeepsCommand(x, b.validationCommands);
      var y := b.validationCommands[Place(b.validationCommands, x.name)];
      assert KeepsCommand(y, c.validationCommands);
    }
  }

  lemma CommandsGrow(compiles: string -> bool, a: Rules, b: Rules)
    requires Valid(compiles, a) && Valid(compiles, b) && Keeps(a, b)
    ensures |a.validationCommands| <= |b.validationCommands|
  {
    var p, q := CommandNames(a.validationCommands), CommandNames(b.validationCommands);
    forall n | n in p ensures n in q {
      var i :| 0 <= i < |p| && p[i] == n;
      var x := a.validationCommands[i];
      assert KeepsCommand(x, b.validationCommands);
      assert q[Place(b.validationCommands, n)] == n;
    }
    MoreMeansLonger(p, q);
  }

  lemma KeepsSizes(compiles: string -> bool, a: Rules, b: Rules)
    requires Valid(compiles, a) && Valid(compiles, b) && Keeps(a, b)
    ensures |a.requiredPaths| <= |b.requiredPaths| && |a.protectedPaths| <= |b.protectedPaths|
    ensures |a.secretPatterns| <= |b.secretPatterns| && |a.validationCommands| <= |b.validationCommands|
  {
    MoreMeansLonger(a.requiredPaths, b.requiredPaths);
    MoreMeansLonger(a.protectedPaths, b.protectedPaths);
    NamesOnce(a.secretPatterns);
    NamesOnce(b.secretPatterns);
    MoreMeansLonger(a.secretPatterns, b.secretPatterns);
    CommandsGrow(compiles, a, b);
  }

  /** What one strengthening asks for, no later one gives back. */
  lemma StrongerTransitive(compiles: string -> bool, a: Rules, b: Rules, c: Rules)
    requires Valid(compiles, a) && Valid(compiles, b) && Valid(compiles, c)
    requires Keeps(a, b) && Keeps(b, c) && (Adds(a, b) || Adds(b, c))
    ensures Stronger(a, c)
  {
    KeepsTransitive(a, b, c);
    KeepsSizes(compiles, a, b);
    KeepsSizes(compiles, b, c);
    if x :| x in a.validationCommands && NewlyRequired(x, b.validationCommands) {
      var y := b.validationCommands[Place(b.validationCommands, x.name)];
      assert KeepsCommand(y, c.validationCommands);
      assert NewlyRequired(x, c.validationCommands);
    } else if y :| y in b.validationCommands && NewlyRequired(y, c.validationCommands) {
      if |a.validationCommands| == |b.validationCommands| { NewlyRequiredBefore(compiles, a, b, c, y); }
    }
  }

  lemma NewlyRequiredBefore(compiles: string -> bool, a: Rules, b: Rules, c: Rules, y: Command)
    requires Valid(compiles, a) && Valid(compiles, b) && Keeps(a, b)
    requires |a.validationCommands| == |b.validationCommands|
    requires y in b.validationCommands && NewlyRequired(y, c.validationCommands)
    ensures exists x | x in a.validationCommands :: NewlyRequired(x, c.validationCommands)
  {
    var p, q := CommandNames(a.validationCommands), CommandNames(b.validationCommands);
    forall n | n in p ensures n in q {
      var i :| 0 <= i < |p| && p[i] == n;
      assert KeepsCommand(a.validationCommands[i], b.validationCommands);
      assert q[Place(b.validationCommands, n)] == n;
    }
    MoreMeansLonger(p, q);
    var j :| 0 <= j < |q| && b.validationCommands[j] == y;
    assert q[j] in q && q[j] in p;
    var i :| 0 <= i < |p| && p[i] == y.name;
    var x := a.validationCommands[i];
    assert KeepsCommand(x, b.validationCommands);
    PlaceOfOnly(b.validationCommands, j);
    assert NewlyRequired(x, c.validationCommands);
  }
}
