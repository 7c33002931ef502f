/** The checks of outcome-validator.ts: what changed, and which Candidates a contract accepts. */
module OutcomeChecks {
  import opened Faults
  import opened OutcomeContracts
  import opened Sorting

  datatype Kind = File | Directory | Symlink

  datatype Entry = Entry(kind: Kind, size: nat, hash: Option<string>, linkTarget: Option<string>)

  type Inventory = map<string, Entry>

  // ---- What changed ----

  datatype ChangeKind = Added | Deleted | Modified

  datatype Change = Change(path: string, kind: ChangeKind, addedBytes: nat)

  const MAX_EVIDENCE_CHANGES := 200

  function At(inventory: Inventory, path: string): Option<Entry> {
    if path in inventory then Some(inventory[path]) else None
  }

  /** Two entries hold the same thing. Directories hold nothing of their own. */
  predicate Same(a: Option<Entry>, b: Option<Entry>) {
    || (a.None? && b.None?)
    || (a.Some? && b.Some? && a.value.kind == b.value.kind && a.value.hash == b.value.hash &&
        a.value.linkTarget == b.value.linkTarget)
    || (a.Some? && b.Some? && a.value.kind == Directory && b.value.kind == Directory)
  }

  function Size(e: Entry): nat { if e.kind == File then e.size else 0 }

  /** The change at a path where the inventories differ. */
  function ChangeAt(canonical: Inventory, candidate: Inventory, path: string): (c: Change)
    requires !Same(At(canonical, path), At(candidate, path))
  {
    if path !in canonical then Change(path, Added, Size(candidate[path]))
    else if path !in candidate then Change(path, Deleted, 0)
    else Change(path, Modified, Size(candidate[path]))
  }

  /** The changes, one for each path where the inventories differ. */
  ghost function Changes(canonical: Inventory, candidate: Inventory): set<Change> {
    set p | p in canonical.Keys + candidate.Keys && !Same(At(canonical, p), At(candidate, p))
      :: ChangeAt(canonical, candidate, p)
  }

  function Bytes(changes: seq<Change>): nat {
    if changes == [] then 0 else changes[0].addedBytes + Bytes(changes[1..])
  }

  lemma {:induction false} BytesSnoc(changes: seq<Change>, c: Change)
    ensures Bytes(changes + [c]) == Bytes(changes) + c.addedBytes
    decreases |changes|
  {
    if changes == [] {
      assert [c][1..] == [];
    } else {
      assert (changes + [c])[1..] == changes[1..] + [c];
      BytesSnoc(changes[1..], c);
    }
  }

  predicate PathsInOrder(less: (string, string) -> bool, changes: seq<Change>) {
    forall i, j | 0 <= i < j < |changes| :: less(changes[i].path, changes[j].path)
  }

  /** The paths of both inventories, sorted. */
  method SortedPaths(less: (string, string) -> bool, canonical: Inventory, candidate: Inventory)
    returns (paths: seq<string>)
    requires TotalOn(less, canonical.Keys + candidate.Keys)
    ensures InOrder(less, paths) && Elements(paths) == canonical.Keys + candidate.Keys
  {
    ghost var all := canonical.Keys + candidate.Keys;
    var left := canonical.Keys + candidate.Keys;
    paths := [];
    while left != {}
      invariant left <= all && Elements(paths) == all - left && InOrder(less, paths)
      decreases |left|
    {
      var path :| path in left;
      InsertInOrder(less, all, path, paths);
      InsertElements(less, path, paths);
      paths := Insert(less, path, paths);
      left := left - {path};
    }
  }

  method DescribeChanges(less: (string, string) -> bool, canonical: Inventory, candidate: Inventory)
    returns (all: seq<Change>, files: seq<Change>, totalAddedBytes: nat, truncated: bool)
    requires TotalOn(less, canonical.Keys + candidate.Keys)
    ensures Elements(all) == Changes(canonical, candidate) && PathsInOrder(less, all)
    ensures totalAddedBytes == Bytes(all)
    ensures files <= all && |files| <= 200
    ensures if truncated then |files| == 200 < |all| else files == all
  {
    hide Bytes, Changes, ChangesAmong, PathsInOrder, InOrder, TotalOn, Elements, At, Same, ChangeAt;
    var paths := SortedPaths(less, canonical, candidate);
    NothingYet(less, canonical, candidate);
    assert paths[..0] == [];
    all, totalAddedBytes := [], 0;
    for i := 0 to |paths|
      invariant Elements(all) == ChangesAmong(canonical, candidate, paths[..i]) && PathsInOrder(less, all)
      invariant forall c | c in all :: c.path in paths[..i]
      invariant totalAddedBytes == Bytes(all)
    {
      assert paths[i] in canonical || paths[i] in candidate by { InPaths(canonical, candidate, paths, i); }
      ghost var was := all;
      all, totalAddedBytes := DescribePath(canonical, candidate, paths[i], all, totalAddedBytes);
      Described(less, canonical, candidate, paths, i, was, all);
    }
    assert paths[..|paths|] == paths;
    AllChanges(canonical, candidate, paths);
    files := if |all| <= MAX_EVIDENCE_CHANGES then all else all[..MAX_EVIDENCE_CHANGES];
    truncated := |all| > MAX_EVIDENCE_CHANGES;
  }

  /** One turn of the loop: appends the change at a path, if the inventories differ there. */
  method DescribePath(canonical: Inventory, candidate: Inventory, path: string, was: seq<Change>, bytes: nat)
    returns (all: seq<Change>, totalAddedBytes: nat)
    requires path in canonical || path in candidate
    requires bytes == Bytes(was)
    ensures all == was +
      (if Same(At(canonical, path), At(candidate, path)) then [] else [ChangeAt(canonical, candidate, path)])
    ensures totalAddedBytes == Bytes(all)
  {
    hide Bytes;
    all, totalAddedBytes := was, bytes;
    var before, after := At(canonical, path), At(candidate, path);
    if before.Some? && before.value.kind == Directory && after.Some? && after.value.kind == Directory {
      return;
    } else if before.None? && after.Some? {
      var addedBytes := Size(after.value);
      all := all + [Change(path, Added, addedBytes)];
      totalAddedBytes := totalAddedBytes + addedBytes;
    } else if before.Some? && after.None? {
      all := all + [Change(path, Deleted, 0)];
    } else if before.Some? && after.Some? &&
              (before.value.kind != after.value.kind || before.value.hash != after.value.hash ||
               before.value.linkTarget != after.value.linkTarget) {
      var addedBytes := Size(after.value);
      all := all + [Change(path, Modified, addedBytes)];
      totalAddedBytes := totalAddedBytes + addedBytes;
    }
    if all != was { BytesSnoc(was, all[|was|]); }
  }

  ghost function ChangesAmong(canonical: Inventory, candidate: Inventory, paths: seq<string>): set<Change> {
    set p | p in paths && !Same(At(canonical, p), At(candidate, p)) :: ChangeAt(canonical, candidate, p)
  }

  lemma NothingYet(less: (string, string) -> bool, canonical: Inventory, candidate: Inventory)
    ensures Elements<Change>([]) == ChangesAmong(canonical, candidate, []) && PathsInOrder(less, []) && Bytes([]) == 0
  {
  }

  lemma InPaths(canonical: Inventory, candidate: Inventory, paths: seq<string>, i: nat)
    requires i < |paths| && Elements(paths) == canonical.Keys + candidate.Keys
    ensures paths[i] in canonical || paths[i] in candidate
  {
    assert paths[i] in Elements(paths);
  }

  lemma AllChanges(canonical: Inventory, candidate: Inventory, paths: seq<string>)
    requires Elements(paths) == canonical.Keys + candidate.Keys
    ensures ChangesAmong(canonical, candidate, paths) == Changes(canonical, candidate)
  {
    assert forall p :: p in paths <==> p in Elements(paths);
  }

  /** One turn of the loop adds the change at its path, if there is one, behind the others. */
  lemma Described(less: (string, string) -> bool, canonical: Inventory, candidate: Inventory, paths: seq<string>,
                  i: nat, was: seq<Change>, now: seq<Change>)
    requires i < |paths| && InOrder(less, paths)
    requires Elements(was) == ChangesAmong(canonical, candidate, paths[..i]) && PathsInOrder(less, was)
    requires forall c | c in was :: c.path in paths[..i]
    requires now == was + (if Same(At(canonical, paths[i]), At(candidate, paths[i])) then []
                           else [ChangeAt(canonical, candidate, paths[i])])
    ensures Elements(now) == ChangesAmong(canonical, candidate, paths[..i + 1]) && PathsInOrder(less, now)
    ensures forall c | c in now :: c.path in paths[..i + 1]
  {
    var path := paths[i];
    assert paths[..i + 1] == paths[..i] + [path];
    if Same(At(canonical, path), At(candidate, path)) {
      assert ChangesAmong(canonical, candidate, paths[..i + 1]) == ChangesAmong(canonical, candidate, paths[..i]);
    } else {
      var c := ChangeAt(canonical, candidate, path);
      ElementsSnoc(was, c);
      assert ChangesAmong(canonical, candidate, paths[..i + 1]) == ChangesAmong(canonical, candidate, paths[..i]) + {c};
      forall k | 0 <= k < |was| ensures less(was[k].path, path) {
        assert was[k] in was;
        var j :| 0 <= j < i && paths[..i][j] == was[k].path;
      }
    }
  }

  /** Nothing is reported exactly when the Candidate holds what Canonical holds. */
  lemma NoChangesMeansSame(canonical: Inventory, candidate: Inventory)
    ensures Changes(canonical, candidate) == {} <==> forall p :: Same(At(canonical, p), At(candidate, p))
  {
    if exists p :: !Same(At(canonical, p), At(candidate, p)) {
      var p :| !Same(At(canonical, p), At(candidate, p));
      assert ChangeAt(canonical, candidate, p) in Changes(canonical, candidate);
    }
  }

  // ---- The checks ----

  datatype Status = Passed | Failed | Errored

  datatype Evidence = Evidence(name: string, status: Status, required: bool)

  /** What a Candidate shows: its inventory, the changes, and the evidence that does not depend on a contract. */
  datatype Shown = Shown(candidate: Inventory, changes: seq<Change>, totalAddedBytes: nat, observed: seq<Evidence>)

  /** What the checks ask of the world: path patterns, secret patterns, control-plane secrets, file contents and the
    sandbox that runs a command. */
  datatype World = World(
    matches: (string, string) -> bool,
    finds: (string, string) -> bool,
    sensitive: string -> bool,
    content: string -> Option<string>,
    runs: (string, string, int) -> Status)

  const SQLITE_RELATIVE_PATH := ".airlock/demo.sqlite"
  const MAX_SECRET_SCAN_FILE_BYTES := 1_048_576

  predicate NoLinks(x: Shown) { forall p | p in x.candidate :: x.candidate[p].kind != Symlink }

  predicate Untouched(w: World, r: Rules, x: Shown) {
    forall c, pattern | c in x.changes && pattern in r.protectedPaths :: !w.matches(c.path, pattern)
  }

  predicate Present(w: World, pattern: string, x: Shown) { exists p | p in x.candidate :: w.matches(p, pattern) }

  predicate AllPresent(w: World, r: Rules, x: Shown) {
    forall pattern | pattern in r.requiredPaths :: Present(w, pattern, x)
  }

  predicate WithinLimits(r: Rules, x: Shown) {
    |x.changes| <= r.maxChangedFiles && x.totalAddedBytes <= r.maxAddedBytes
  }

  /** A change whose new content is scanned for secrets. */
  predicate Scanned(x: Shown, c: Change) {
    c.kind != Deleted && c.path != SQLITE_RELATIVE_PATH && c.path in x.candidate && x.candidate[c.path].kind == File
  }

  predicate Clean(w: World, rules: seq<SecretRule>, x: Shown, c: Change) {
    Scanned(x, c) ==>
      && x.candidate[c.path].size <= MAX_SECRET_SCAN_FILE_BYTES
      && w.content(c.path).Some?
      && !w.sensitive(w.content(c.path).value)
      && forall rule | rule in rules :: !w.finds(rule.pattern, w.content(c.path).value)
  }

  predicate NoSecrets(w: World, r: Rules, x: Shown) { forall c | c in x.changes :: Clean(w, r.secretPatterns, x, c) }

  predicate CommandsPass(w: World, r: Rules) {
    forall c | c in r.validationCommands :: c.required ==> w.runs(c.name, c.command, c.timeoutMs) == Passed
  }

  predicate RequiredPass(evidence: seq<Evidence>) { forall e | e in evidence :: e.required ==> e.status == Passed }

  /** The Candidates a contract accepts. */
  predicate AcceptedBy(w: World, r: Rules, x: Shown) {
    && NoLinks(x) && Untouched(w, r, x) && AllPresent(w, r, x) && WithinLimits(r, x) && NoSecrets(w, r, x)
    && RequiredPass(x.observed) && CommandsPass(w, r)
  }

  function Verdict(ok: bool): Status { if ok then Passed else Failed }

  /** Scans one changed file; each thing wrong with it is a finding. */
  method ScanFile(w: World, rules: seq<SecretRule>, x: Shown, c: Change) returns (readable: bool, findings: nat)
    requires Scanned(x, c)
    ensures readable && findings == 0 <==> Clean(w, rules, x, c)
    ensures !readable ==> w.content(c.path).None?
  {
    if x.candidate[c.path].size > MAX_SECRET_SCAN_FILE_BYTES { return true, 1; }
    var content := w.content(c.path);
    if content.None? { return false, 0; }
    readable, findings := true, 0;
    if w.sensitive(content.value) { findings := findings + 1; }
    for k := 0 to |rules|
      invariant findings == 0 <==>
        !w.sensitive(content.value) && forall rule | rule in rules[..k] :: !w.finds(rule.pattern, content.value)
    {
      assert rules[..k + 1] == rules[..k] + [rules[k]];
      if w.finds(rules[k].pattern, content.value) { findings := findings + 1; }
    }
    assert rules[..|rules|] == rules;
  }

  method ValidateSecrets(w: World, r: Rules, x: Shown) returns (status: Status)
    ensures status == Passed <==> NoSecrets(w, r, x)
    ensures status == Errored ==> exists c | c in x.changes :: Scanned(x, c) && w.content(c.path).None?
  {
    var findings: nat := 0;
    for i := 0 to |x.changes|
      invariant findings == 0 <==> forall c | c in x.changes[..i] :: Clean(w, r.secretPatterns, x, c)
    {
      hide Scanned;
      var c := x.changes[i];
      assert x.changes[..i + 1] == x.changes[..i] + [c];
      if Scanned(x, c) {
        var readable, found := ScanFile(w, r.secretPatterns, x, c);
        if !readable {
          assert c in x.changes && !Clean(w, r.secretPatterns, x, c);
          return Errored;
        }
        findings := findings + found;
      }
    }
    assert x.changes[..|x.changes|] == x.changes;
    status := Verdict(findings == 0);
  }

  method ValidateCommands(w: World, r: Rules) returns (evidence: seq<Evidence>)
    ensures RequiredPass(evidence) <==> CommandsPass(w, r)
    ensures |evidence| == |r.validationCommands|
    ensures forall i | 0 <= i < |evidence| :: evidence[i] == CommandEvidence(w, r.validationCommands[i])
  {
    evidence := [];
    for i := 0 to |r.validationCommands|
      invariant |evidence| == i
      invariant forall k | 0 <= k < i :: evidence[k] == CommandEvidence(w, r.validationCommands[k])
    {
      evidence := evidence + [CommandEvidence(w, r.validationCommands[i])];
    }
    if RequiredPass(evidence) {
      forall c | c in r.validationCommands && c.required ensures w.runs(c.name, c.command, c.timeoutMs) == Passed {
        var i :| 0 <= i < |r.validationCommands| && r.validationCommands[i] == c;
        assert evidence[i] in evidence;
      }
    }
  }

  function CommandEvidence(w: World, c: Command): Evidence {
    Evidence("command:" + c.name, w.runs(c.name, c.command, c.timeoutMs), c.required)
  }

  method UnsafeLinks(x: Shown) returns (links: set<string>)
    ensures links == {} <==> NoLinks(x)
    ensures forall p :: p in links <==> p in x.candidate && x.candidate[p].kind == Symlink
  {
    links := {};
    var left := x.candidate.Keys;
    while left != {}
      invariant left <= x.candidate.Keys
      invariant forall p :: p in links <==> p in x.candidate && p !in left && x.candidate[p].kind == Symlink
      decreases left
    {
      var p :| p in left;
      if x.candidate[p].kind == Symlink { links := links + {p}; }
      left := left - {p};
    }
  }

  method ProtectedChanges(w: World, r: Rules, x: Shown) returns (hit: seq<Change>)
    ensures hit == [] <==> Untouched(w, r, x)
    ensures forall c ::
      c in hit <==> c in x.changes && exists pattern | pattern in r.protectedPaths :: w.matches(c.path, pattern)
  {
    hit := [];
    for i := 0 to |x.changes|
      invariant forall c ::
        c in hit <==> c in x.changes[..i] && exists pattern | pattern in r.protectedPaths :: w.matches(c.path, pattern)
    {
      var change := x.changes[i];
      assert x.changes[..i + 1] == x.changes[..i] + [change];
      if exists pattern | pattern in r.protectedPaths :: w.matches(change.path, pattern) { hit := hit + [change]; }
    }
    assert x.changes[..|x.changes|] == x.changes;
    assert hit != [] ==> hit[0] in hit;
  }

  method MissingPatterns(w: World, r: Rules, x: Shown) returns (missing: seq<string>)
    ensures missing == [] <==> AllPresent(w, r, x)
    ensures forall pattern :: pattern in missing <==> pattern in r.requiredPaths && !Present(w, pattern, x)
  {
    hide Present;
    missing := [];
    for i := 0 to |r.requiredPaths|
      invariant forall pattern :: pattern in missing <==> pattern in r.requiredPaths[..i] && !Present(w, pattern, x)
    {
      var pattern := r.requiredPaths[i];
      assert r.requiredPaths[..i + 1] == r.requiredPaths[..i] + [pattern];
      if !Present(w, pattern, x) { missing := missing + [pattern]; }
    }
    assert r.requiredPaths[..|r.requiredPaths|] == r.requiredPaths;
    assert missing != [] ==> missing[0] in missing;
  }

  predicate Answers(e: Evidence, name: string, ok: bool) {
    e.name == name && e.required && (e.status == Passed <==> ok)
  }

  /** The five checks under their names, what was observed, and the commands, in that order. */
  ghost predicate Listed(w: World, r: Rules, x: Shown, v: seq<Evidence>) {
    && |v| == 5 + |x.observed| + |r.validationCommands|
    && Answers(v[0], "path-safety", NoLinks(x)) && Answers(v[1], "protected-paths", Untouched(w, r, x))
    && Answers(v[2], "required-paths", AllPresent(w, r, x)) && Answers(v[3], "change-limits", WithinLimits(r, x))
    && Answers(v[4], "secret-patterns", NoSecrets(w, r, x))
    && (forall i | 0 <= i < |x.observed| :: v[5 + i] == x.observed[i])
    && forall i | 0 <= i < |r.validationCommands| ::
         v[5 + |x.observed| + i] == CommandEvidence(w, r.validationCommands[i])
  }

  /** Every required piece of evidence passes exactly when the contract accepts the Candidate. */
  method Validate(w: World, r: Rules, x: Shown) returns (validations: seq<Evidence>)
    ensures RequiredPass(validations) <==> AcceptedBy(w, r, x)
    ensures Listed(w, r, x, validations)
  {
    hide NoLinks, Untouched, AllPresent, WithinLimits, NoSecrets, CommandsPass, RequiredPass, Listed, AcceptedBy,
      CommandEvidence;
    var unsafeLinks := UnsafeLinks(x);
    validations := [Evidence("path-safety", Verdict(unsafeLinks == {}), true)];
    var protectedChanges := ProtectedChanges(w, r, x);
    validations := validations + [Evidence("protected-paths", Verdict(protectedChanges == []), true)];
    var missingPatterns := MissingPatterns(w, r, x);
    validations := validations + [Evidence("required-paths", Verdict(missingPatterns == []), true)];
    var limitsPassed := LimitsPassed(r, x);
    validations := validations + [Evidence("change-limits", Verdict(limitsPassed), true)];
    var secrets := ValidateSecrets(w, r, x);
    validations := validations + [Evidence("secret-patterns", secrets, true)];
    ghost var five := validations;
    validations := validations + x.observed;
    var commands := ValidateCommands(w, r);
    validations := validations + commands;
    ListedParts(w, r, x, five, commands);
    PassingParts(w, r, x, five, commands);
  }

  /** The five checks answer under their names. */
  predicate FiveAnswer(w: World, r: Rules, x: Shown, five: seq<Evidence>) {
    && |five| == 5
    && Answers(five[0], "path-safety", NoLinks(x)) && Answers(five[1], "protected-paths", Untouched(w, r, x))
    && Answers(five[2], "required-paths", AllPresent(w, r, x)) && Answers(five[3], "change-limits", WithinLimits(r, x))
    && Answers(five[4], "secret-patterns", NoSecrets(w, r, x))
  }

  lemma ListedParts(w: World, r: Rules, x: Shown, five: seq<Evidence>, commands: seq<Evidence>)
    requires FiveAnswer(w, r, x, five) && |commands| == |r.validationCommands|
    requires forall i | 0 <= i < |commands| :: commands[i] == CommandEvidence(w, r.validationCommands[i])
    ensures Listed(w, r, x, five + x.observed + commands)
  {
    hide NoLinks, Untouched, AllPresent, WithinLimits, NoSecrets, CommandEvidence, Answers;
    var v := five + x.observed + commands;
    assert forall i | 0 <= i < |x.observed| :: v[5 + i] == x.observed[i];
    assert forall i | 0 <= i < |commands| :: v[5 + |x.observed| + i] == commands[i];
  }

  lemma PassingParts(w: World, r: Rules, x: Shown, five: seq<Evidence>, commands: seq<Evidence>)
    requires FiveAnswer(w, r, x, five) && (RequiredPass(commands) <==> CommandsPass(w, r))
    ensures RequiredPass(five + x.observed + commands) <==> AcceptedBy(w, r, x)
  {
    hide NoLinks, Untouched, AllPresent, WithinLimits, NoSecrets, CommandsPass;
    assert forall e | e in five :: e == five[0] || e == five[1] || e == five[2] || e == five[3] || e == five[4];
    FiveChecks(five);
    var v := five + x.observed + commands;
    assert forall e :: e in v <==> e in five || e in x.observed || e in commands;
    hide FiveAnswer;
  }

  method LimitsPassed(r: Rules, x: Shown) returns (ok: bool)
    ensures ok <==> WithinLimits(r, x)
  {
    ok := |x.changes| <= r.maxChangedFiles && x.totalAddedBytes <= r.maxAddedBytes;
  }

  /** The whole validation. An inventory that cannot be taken is one required error and nothing else is looked at. */
  method ValidateOutcome(less: (string, string) -> bool, w: World, r: Rules, canonical: Option<Inventory>,
                         candidate: Option<Inventory>,
                         observed: seq<Evidence>) returns (changes: seq<Change>, validations: seq<Evidence>)
    requires canonical.Some? && candidate.Some? ==> TotalOn(less, canonical.value.Keys + candidate.value.Keys)
    ensures canonical.None? || candidate.None? ==>
      changes == [] && validations == [Evidence("candidate-inventory", Errored, true)] && !RequiredPass(validations)
    ensures canonical.Some? && candidate.Some? ==>
      && Elements(changes) == Changes(canonical.value, candidate.value) && PathsInOrder(less, changes)
      && (RequiredPass(validations) <==> AcceptedBy(w, r, Shown(candidate.value, changes, Bytes(changes), observed)))
      && Listed(w, r, Shown(candidate.value, changes, Bytes(changes), observed), validations)
  {
    if canonical.None? || candidate.None? {
      assert Evidence("candidate-inventory", Errored, true) in [Evidence("candidate-inventory", Errored, true)];
      return [], [Evidence("candidate-inventory", Errored, true)];
    }
    hide AcceptedBy, Changes, PathsInOrder, Bytes, RequiredPass, Listed;
    var all, files, totalAddedBytes, truncated := DescribeChanges(less, canonical.value, candidate.value);
    validations := Validate(w, r, Shown(candidate.value, all, totalAddedBytes, observed));
    changes := all;
  }

  lemma FiveChecks(v: seq<Evidence>)
    requires |v| == 5 && forall e | e in v :: e.required
    ensures RequiredPass(v) <==> v[0].status == v[1].status == v[2].status == v[3].status == v[4].status == Passed
  {
    assert v[0] in v && v[1] in v && v[2] in v && v[3] in v && v[4] in v;
  }
}
