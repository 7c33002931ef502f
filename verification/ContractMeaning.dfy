/** The rules that an Outcome Contract may hold, spelled out. */
module ContractMeaning {
  import opened OutcomeContracts
  import opened Sorting

  // ---- Lengths ----

  function Utf16(s: string): seq<nat> {
    if s == "" then []
    else
      var c := s[0] as int;
      (if c < 0x1_0000 then [c] else [0xD800 + (c - 0x1_0000) / 0x400, 0xDC00 + (c - 0x1_0000) % 0x400]) + Utf16(s[1..])
  }

  lemma {:induction false} UnitsMeaning(s: string)
    ensures Units(s) == |Utf16(s)|
    decreases |s|
  {
    if s != "" { UnitsMeaning(s[1..]); }
  }

  // ---- Paths ----

  /** A segment `..` begins here. */
  predicate ParentAt(path: string, i: nat) {
    && i + 2 <= |path| && path[i] == '.' && path[i + 1] == '.'
    && (i > 0 ==> path[i - 1] == '/') && (i + 2 < |path| ==> path[i + 2] == '/')
  }

  function FirstSlash(path: string): (n: nat)
    ensures n <= |path| && (forall k | 0 <= k < n :: path[k] != '/') && (n < |path| ==> path[n] == '/')
  {
    if path == "" || path[0] == '/' then 0 else 1 + FirstSlash(path[1..])
  }

  lemma {:induction false} SegmentsUnfold(path: string)
    ensures var n := FirstSlash(path);
      Segments(path) == [path[..n]] + if n < |path| then Segments(path[n + 1..]) else []
    decreases |path|
  {
    if path != "" && path[0] != '/' {
      var t := path[1..];
      SegmentsUnfold(t);
      assert FirstSlash(t) < |t| ==> t[FirstSlash(t) + 1..] == path[FirstSlash(path) + 1..];
      assert [path[0]] + t[..FirstSlash(t)] == path[..FirstSlash(path)];
    } else if path != "" {
      assert path[..0] == "" && path[0 + 1..] == path[1..];
    }
  }

  lemma ParentBehind(path: string, i: nat)
    requires i > 0
    ensures var n := FirstSlash(path);
      ParentAt(path, i) <==> n < i && n < |path| && ParentAt(path[n + 1..], i - n - 1)
  {
    var n := FirstSlash(path);
    hide FirstSlash;
    if i <= n {
      assert path[i - 1] != '/';
    } else if n < |path| {
      var rest, m := path[n + 1..], i - n - 1;
      assert m + 2 <= |rest| ==> rest[m] == path[i] && rest[m + 1] == path[i + 1];
      assert m + 2 < |rest| ==> rest[m + 2] == path[i + 2];
      assert 0 < m <= |rest| ==> rest[m - 1] == path[i - 1];
    }
  }

  lemma {:induction false} ParentMeaning(path: string)
    ensures ".." in Segments(path) <==> exists i: nat :: ParentAt(path, i)
    decreases |path|
  {
    var n := FirstSlash(path);
    SegmentsUnfold(path);
    ParentFirst(path);
    if n < |path| {
      var rest := path[n + 1..];
      ParentMeaning(rest);
      hide ParentAt, Segments;
      if i: nat :| ParentAt(rest, i) { ParentBehind(path, i + n + 1); }
      if i: nat :| ParentAt(path, i) { if i > 0 { ParentBehind(path, i); } }
    } else {
      hide ParentAt, Segments;
      if i: nat :| ParentAt(path, i) { if i > 0 { ParentBehind(path, i); } }
    }
  }

  lemma ParentFirst(path: string)
    ensures path[..FirstSlash(path)] == ".." <==> ParentAt(path, 0)
  {
    var n, first := FirstSlash(path), path[..FirstSlash(path)];
    hide FirstSlash;
    if first == ".." { assert n == 2 && first[0] == path[0] && first[1] == path[1]; }
    if ParentAt(path, 0) { assert n == 2 && first == [path[0], path[1]]; }
  }

  /** A relative path that does not climb, of at most 240 code units. */
  ghost predicate Relative(path: string) {
    && 0 < |Utf16(path)| <= 240 && path[0] != '/' && (forall i | 0 <= i < |path| :: path[i] != '\\')
    && !exists i: nat :: ParentAt(path, i)
  }

  lemma SafePathMeaning(path: string)
    ensures SafePath(path) <==> Relative(path)
  {
    UnitsMeaning(path);
    ParentMeaning(path);
    UnitsBounds(path);
    hide ParentAt, Segments, Units, Utf16;
  }

  // ---- Names and texts ----

  /** Letters and digits of ASCII, and `_`, `.` and `-`. */
  predicate Lettered(c: char) {
    var n := c as int;
    97 <= n <= 122 || 65 <= n <= 90 || 48 <= n <= 57 || n in {95, 46, 45}
  }

  /** Something other than the white space of ECMAScript. */
  predicate Visible(c: char) {
    var n := c as int;
    !(9 <= n <= 13) && n !in {0x20, 0xA0, 0x1680, 0x2028, 0x2029, 0x202F, 0x205F, 0x3000, 0xFEFF} &&
    !(8192 <= n <= 8202)
  }

  lemma WhiteSpaceMeaning(c: char)
    ensures WhiteSpace(c) <==> !Visible(c)
  {
  }

  ghost predicate Named(name: string) { 0 < |name| <= 64 && forall i | 0 <= i < |name| :: Lettered(name[i]) }

  // ---- The whole contract ----

  /** What may be written down. */
  ghost predicate Writable(compiles: string -> bool, r: Rules) {
    && 1 <= r.maxChangedFiles <= 10000 && 0 <= r.maxAddedBytes <= 1024 * 1024 * 1024
    && |r.requiredPaths| <= 100 && |r.protectedPaths| <= 100
    && |r.secretPatterns| <= 50 && |r.validationCommands| <= 20
    && (forall p | p in r.requiredPaths :: Relative(p)) && (forall p | p in r.protectedPaths :: Relative(p))
    && (forall i, j | 0 <= i < j < |r.requiredPaths| :: r.requiredPaths[i] != r.requiredPaths[j])
    && (forall i, j | 0 <= i < j < |r.protectedPaths| :: r.protectedPaths[i] != r.protectedPaths[j])
    && (forall s | s in r.secretPatterns :: Named(s.name) && 0 < |Utf16(s.pattern)| <= 1000 && compiles(s.pattern))
    && (forall i, j | 0 <= i < j < |r.secretPatterns| :: r.secretPatterns[i].name != r.secretPatterns[j].name)
    && (forall c | c in r.validationCommands :: Runnable(c))
    && (forall i, j | 0 <= i < j < |r.validationCommands| ::
          r.validationCommands[i].name != r.validationCommands[j].name)
  }

  /** A command with a name, some text, and between one second and five minutes. */
  ghost predicate Runnable(c: Command) {
    && Named(c.name) && |Utf16(c.command)| <= 2000 && 1000 <= c.timeoutMs <= 5 * 60 * 1000
    && exists i :: 0 <= i < |c.command| && Visible(c.command[i])
  }

  lemma NamedMeaning(name: string)
    ensures RuleName(name) <==> Named(name)
  {
    assert forall c :: NameCharacter(c) <==> Lettered(c);
    hide NameCharacter, Lettered;
  }

  lemma RunnableMeaning(c: Command)
    ensures CommandOk(c) <==> Runnable(c)
  {
    NamedMeaning(c.name);
    UnitsMeaning(c.command);
    forall x ensures WhiteSpace(x) <==> !Visible(x) { WhiteSpaceMeaning(x); }
    hide RuleName, Named, WhiteSpace, Visible, Units, Utf16;
  }

  lemma NamesOnceMeaning(r: Rules)
    ensures Once(SecretNames(r.secretPatterns)) <==>
      forall i, j | 0 <= i < j < |r.secretPatterns| :: r.secretPatterns[i].name != r.secretPatterns[j].name
    ensures Once(CommandNames(r.validationCommands)) <==>
      forall i, j | 0 <= i < j < |r.validationCommands| :: r.validationCommands[i].name != r.validationCommands[j].name
  {
    var p, q := SecretNames(r.secretPatterns), CommandNames(r.validationCommands);
    assert forall i | 0 <= i < |p| :: p[i] == r.secretPatterns[i].name;
    assert forall i | 0 <= i < |q| :: q[i] == r.validationCommands[i].name;
  }

  lemma ValidMeaning(compiles: string -> bool, r: Rules)
    ensures Valid(compiles, r) <==> Writable(compiles, r)
  {
    NamesOnceMeaning(r);
    forall p ensures SafePath(p) <==> Relative(p) { SafePathMeaning(p); }
    forall c ensures CommandOk(c) <==> Runnable(c) { RunnableMeaning(c); }
    forall s: SecretRule ensures RuleName(s.name) <==> Named(s.name) { NamedMeaning(s.name); }
    forall s: SecretRule ensures 1 <= Units(s.pattern) <= 1000 <==> 0 < |Utf16(s.pattern)| <= 1000 {
      UnitsMeaning(s.pattern);
    }
    hide SafePath, Relative, CommandOk, Runnable, RuleName, Named, Units, Utf16, SecretNames, CommandNames;
  }
}
