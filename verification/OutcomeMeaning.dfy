/** What is reported as changed, and what a contract accepts, in terms of the two inventories alone. */
module OutcomeMeaning {
  import opened Faults
  import opened OutcomeChecks
  import opened OutcomeContracts
  import opened Sorting

  // ---- Changes ----

  /** In one inventory only, or in both with another kind, hash or link target. */
  predicate Differs(canonical: Inventory, candidate: Inventory, p: string) {
    || (p in canonical && p !in candidate) || (p !in canonical && p in candidate)
    || (p in canonical && p in candidate
        && (canonical[p].kind != candidate[p].kind || canonical[p].kind != Directory)
        && (canonical[p].kind != candidate[p].kind || canonical[p].hash != candidate[p].hash
            || canonical[p].linkTarget != candidate[p].linkTarget))
  }

  /** Added, deleted or modified, with the size of the file that is there now. */
  predicate Tells(canonical: Inventory, candidate: Inventory, c: Change) {
    && (c.kind == Added <==> c.path !in canonical) && (c.kind == Deleted <==> c.path !in candidate)
    && c.addedBytes == if c.path in candidate && candidate[c.path].kind == File then candidate[c.path].size else 0
  }

  lemma SameMeaning(canonical: Inventory, candidate: Inventory, p: string)
    ensures Same(At(canonical, p), At(candidate, p)) <==> !Differs(canonical, candidate, p)
  {
  }

  lemma ReportedDiffers(canonical: Inventory, candidate: Inventory, c: Change)
    requires c in Changes(canonical, candidate)
    ensures Differs(canonical, candidate, c.path) && c == ChangeAt(canonical, candidate, c.path)
    ensures Tells(canonical, candidate, c)
  {
    SameMeaning(canonical, candidate, c.path);
  }

  lemma DiffersReported(canonical: Inventory, candidate: Inventory, p: string)
    requires Differs(canonical, candidate, p)
    ensures exists c | c in Changes(canonical, candidate) :: c.path == p
  {
    SameMeaning(canonical, candidate, p);
    assert ChangeAt(canonical, candidate, p) in Changes(canonical, candidate);
  }

  /** A path is reported exactly when it differs, and the report says how and how much. */
  lemma ChangesMeaning(canonical: Inventory, candidate: Inventory)
    ensures forall c | c in Changes(canonical, candidate) ::
      Differs(canonical, candidate, c.path) && Tells(canonical, candidate, c)
    ensures forall p | Differs(canonical, candidate, p) :: exists c | c in Changes(canonical, candidate) :: c.path == p
    ensures forall c, d |
      c in Changes(canonical, candidate) && d in Changes(canonical, candidate) && c.path == d.path ::
      c == d
  {
    hide *;
    var changes := Changes(canonical, candidate);
    forall c | c in changes ensures Differs(canonical, candidate, c.path) && Tells(canonical, candidate, c) {
      ReportedDiffers(canonical, candidate, c);
    }
    forall p | Differs(canonical, candidate, p) ensures exists c | c in changes :: c.path == p {
      DiffersReported(canonical, candidate, p);
    }
    forall c, d | c in changes && d in changes && c.path == d.path ensures c == d {
      ReportedDiffers(canonical, candidate, c);
      ReportedDiffers(canonical, candidate, d);
    }
  }

  /** The bytes of a list are those of its parts. */
  lemma {:induction false} BytesAdd(a: seq<Change>, b: seq<Change>)
    ensures Bytes(a + b) == Bytes(a) + Bytes(b)
    ensures Bytes([]) == 0 && forall c :: Bytes([c]) == c.addedBytes
    decreases |a|
  {
    if a == [] {
      assert a + b == b;
    } else {
      BytesAdd(a[1..], b);
      assert (a + b)[1..] == a[1..] + b;
    }
  }

  // ---- Acceptance ----

  /** A file of the Candidate whose content is scanned. */
  predicate Read(canonical: Inventory, candidate: Inventory, p: string) {
    Differs(canonical, candidate, p) && p in candidate && candidate[p].kind == File && p != ".airlock/demo.sqlite"
  }

  /** Small enough, readable, and without anything secret. */
  predicate Harmless(w: World, rules: seq<SecretRule>, candidate: Inventory, p: string)
    requires p in candidate
  {
    && candidate[p].size <= 1024 * 1024 && w.content(p).Some? && !w.sensitive(w.content(p).value)
    && forall rule | rule in rules :: !w.finds(rule.pattern, w.content(p).value)
  }

  predicate Protected(w: World, r: Rules, p: string) {
    exists pattern | pattern in r.protectedPaths :: w.matches(p, pattern)
  }

  ghost predicate Accepts(w: World, r: Rules, canonical: Inventory, candidate: Inventory, changes: seq<Change>,
                          observed: seq<Evidence>) {
    && (forall p | p in candidate :: candidate[p].kind != Symlink)
    && (forall p | Differs(canonical, candidate, p) :: !Protected(w, r, p))
    && (forall pattern | pattern in r.requiredPaths :: exists p | p in candidate :: w.matches(p, pattern))
    && |changes| <= r.maxChangedFiles && Bytes(changes) <= r.maxAddedBytes
    && (forall p | Read(canonical, candidate, p) :: Harmless(w, r.secretPatterns, candidate, p))
    && (forall e | e in observed && e.required :: e.status == Passed)
    && (forall c | c in r.validationCommands && c.required :: w.runs(c.name, c.command, c.timeoutMs) == Passed)
  }

  /** The five checks and the commands under their names, each passed by what it is named after. */
  ghost predicate Evidenced(w: World, r: Rules, canonical: Inventory, candidate: Inventory, changes: seq<Change>,
                            observed: seq<Evidence>, v: seq<Evidence>) {
    && |v| == 5 + |observed| + |r.validationCommands| && (forall i | 0 <= i < 5 :: v[i].required)
    && v[0].name == "path-safety" && v[1].name == "protected-paths" && v[2].name == "required-paths"
    && v[3].name == "change-limits" && v[4].name == "secret-patterns"
    && (v[0].status == Passed <==> forall p | p in candidate :: candidate[p].kind != Symlink)
    && (v[1].status == Passed <==> forall p | Differs(canonical, candidate, p) :: !Protected(w, r, p))
    && (v[2].status == Passed <==>
        forall pattern | pattern in r.requiredPaths :: exists p | p in candidate :: w.matches(p, pattern))
    && (v[3].status == Passed <==> |changes| <= r.maxChangedFiles && Bytes(changes) <= r.maxAddedBytes)
    && (v[4].status == Passed <==>
        forall p | Read(canonical, candidate, p) :: Harmless(w, r.secretPatterns, candidate, p))
    && (forall i | 0 <= i < |observed| :: v[5 + i] == observed[i])
    && forall i | 0 <= i < |r.validationCommands| ::
         var c := r.validationCommands[i];
         v[5 + |observed| + i] == Evidence("command:" + c.name, w.runs(c.name, c.command, c.timeoutMs), c.required)
  }

  /** What each of the five checks says of the two inventories. */
  lemma ChecksMeaning(w: World, r: Rules, canonical: Inventory, candidate: Inventory, x: Shown)
    requires Shows(canonical, candidate, x)
    ensures NoLinks(x) <==> forall p | p in candidate :: candidate[p].kind != Symlink
    ensures Untouched(w, r, x) <==> forall p | Differs(canonical, candidate, p) :: !Protected(w, r, p)
    ensures AllPresent(w, r, x) <==>
      forall pattern | pattern in r.requiredPaths :: exists p | p in candidate :: w.matches(p, pattern)
    ensures WithinLimits(r, x) <==> |x.changes| <= r.maxChangedFiles && x.totalAddedBytes <= r.maxAddedBytes
    ensures NoSecrets(w, r, x) <==>
      forall p | Read(canonical, candidate, p) :: Harmless(w, r.secretPatterns, candidate, p)
  {
    UntouchedMeaning(w, r, canonical, candidate, x);
    SecretsMeaning(w, r, canonical, candidate, x);
    assert AllPresent(w, r, x) <==> forall pattern | pattern in r.requiredPaths :: Present(w, pattern, x);
    hide Untouched, NoSecrets, Protected, Read, Harmless, Shows, Differs, Tells;
  }

  /** A contract accepts a Candidate exactly when it accepts what the two inventories say. */
  lemma AcceptanceMeaning(w: World, r: Rules, canonical: Inventory, candidate: Inventory, changes: seq<Change>,
                          observed: seq<Evidence>, v: seq<Evidence>)
    requires Elements(changes) == Changes(canonical, candidate)
    requires Listed(w, r, Shown(candidate, changes, Bytes(changes), observed), v)
    ensures AcceptedBy(w, r, Shown(candidate, changes, Bytes(changes), observed)) <==>
      Accepts(w, r, canonical, candidate, changes, observed)
    ensures Evidenced(w, r, canonical, candidate, changes, observed, v)
  {
    hide Changes, Bytes, Differs, Tells, Protected, Read, Harmless, NoLinks, Untouched, AllPresent, WithinLimits,
      NoSecrets;
    var x := Shown(candidate, changes, Bytes(changes), observed);
    ChangesMeaning(canonical, candidate);
    assert forall c :: c in changes <==> c in Elements(changes);
    ChecksMeaning(w, r, canonical, candidate, x);
  }

  /** The changes shown are the paths that differ. */
  ghost predicate Shows(canonical: Inventory, candidate: Inventory, x: Shown) {
    && x.candidate == candidate
    && (forall c | c in x.changes :: Differs(canonical, candidate, c.path) && Tells(canonical, candidate, c))
    && (forall p | Differs(canonical, candidate, p) :: exists c | c in x.changes :: c.path == p)
  }

  lemma UntouchedMeaning(w: World, r: Rules, canonical: Inventory, candidate: Inventory, x: Shown)
    requires Shows(canonical, candidate, x)
    ensures Untouched(w, r, x) <==> forall p | Differs(canonical, candidate, p) :: !Protected(w, r, p)
  {
    hide Differs, Tells;
  }

  lemma SecretsMeaning(w: World, r: Rules, canonical: Inventory, candidate: Inventory, x: Shown)
    requires Shows(canonical, candidate, x)
    ensures NoSecrets(w, r, x) <==>
      forall p | Read(canonical, candidate, p) :: Harmless(w, r.secretPatterns, candidate, p)
  {
    forall c | c in x.changes ensures Clean(w, r.secretPatterns, x, c) <==>
      (Read(canonical, candidate, c.path) ==> Harmless(w, r.secretPatterns, candidate, c.path))
    {
      assert Differs(canonical, candidate, c.path) && Tells(canonical, candidate, c);
    }
    hide Clean, Harmless, Differs, Tells;
    if NoSecrets(w, r, x) {
      forall p | Read(canonical, candidate, p) ensures Harmless(w, r.secretPatterns, candidate, p) {
        var c :| c in x.changes && c.path == p;
      }
    }
  }

  /** The whole validation on two inventories: the changes are the paths that differ, in order, once each, and every
    required piece of evidence passes exactly when the contract accepts them. */
  method ValidateInventories(less: (string, string) -> bool, w: World, r: Rules, canonical: Inventory,
                             candidate: Inventory,
                             observed: seq<Evidence>)
    returns (changes: seq<Change>, validations: seq<Evidence>)
    requires TotalOn(less, canonical.Keys + candidate.Keys)
    ensures forall i, j | 0 <= i < j < |changes| :: less(changes[i].path, changes[j].path)
    ensures forall c | c in changes :: Differs(canonical, candidate, c.path) && Tells(canonical, candidate, c)
    ensures forall p | Differs(canonical, candidate, p) :: exists c | c in changes :: c.path == p
    ensures (forall e | e in validations && e.required :: e.status == Passed) <==>
      Accepts(w, r, canonical, candidate, changes, observed)
    ensures Evidenced(w, r, canonical, candidate, changes, observed, validations)
  {
    changes, validations := ValidateOutcome(less, w, r, Some(canonical), Some(candidate), observed);
    ChangesMeaning(canonical, candidate);
    assert forall c :: c in changes <==> c in Elements(changes);
    AcceptanceMeaning(w, r, canonical, candidate, changes, observed, validations);
    hide Changes, AcceptedBy, Accepts, Differs, Tells, Listed, Evidenced;
  }

  /** Editing a protected file is refused, whatever else the Candidate does. */
  lemma EditRefused(w: World, r: Rules, canonical: Inventory, candidate: Inventory, changes: seq<Change>,
                    observed: seq<Evidence>, p: string)
    requires p in canonical && p in candidate && canonical[p].kind == File && canonical[p].hash != candidate[p].hash
    requires Protected(w, r, p)
    ensures !Accepts(w, r, canonical, candidate, changes, observed)
  {
    assert Differs(canonical, candidate, p);
  }

  /** So is a file, new or edited, with something secret in it. */
  lemma SecretRefused(w: World, r: Rules, canonical: Inventory, candidate: Inventory, changes: seq<Change>,
                      observed: seq<Evidence>, p: string, rule: SecretRule)
    requires p in candidate && candidate[p].kind == File && p != ".airlock/demo.sqlite"
    requires p !in canonical || canonical[p].hash != candidate[p].hash
    requires rule in r.secretPatterns && w.content(p).Some? && w.finds(rule.pattern, w.content(p).value)
    ensures !Accepts(w, r, canonical, candidate, changes, observed)
  {
    assert Read(canonical, candidate, p);
  }
}
