/** Outcome Contracts: the rules a Candidate must meet, and which rules may be written down. */
module OutcomeContracts {
  import opened Sorting

  datatype SecretRule = SecretRule(name: string, pattern: string)

  datatype Command = Command(name: string, command: string, timeoutMs: int, required: bool)

  datatype Rules = Rules(
    requiredPaths: seq<string>,
    protectedPaths: seq<string>,
    maxChangedFiles: int,
    maxAddedBytes: int,
    secretPatterns: seq<SecretRule>,
    validationCommands: seq<Command>)

  datatype Contract = Contract(version: nat, rules: Rules)

  // ---- What validateOutcomeContractInput accepts ----

  const MAX_CHANGED_FILES := 10_000
  const MAX_ADDED_BYTES := 1_073_741_824
  const MAX_PATHS := 100
  const MAX_SECRETS := 50
  const MAX_COMMANDS := 20

  /** The length of a string as the source counts it, in UTF-16 code units. */
  function Units(s: string): nat { if s == "" then 0 else (if s[0] as int > 0xFFFF then 2 else 1) + Units(s[1..]) }

  lemma {:induction false} UnitsBounds(s: string)
    ensures |s| <= Units(s) <= 2 * |s|
    decreases |s|
  {
    if s != "" { UnitsBounds(s[1..]); }
  }

  function Segments(path: string): seq<string> {
    if path == "" then [""]
    else
      var rest := Segments(path[1..]);
      if path[0] == '/' then [""] + rest
      else if rest == [] then [[path[0]]]
      else [[path[0]] + rest[0]] + rest[1..]
  }

  predicate SafePath(path: string) {
    path != "" && path[0] != '/' && '\\' !in path && ".." !in Segments(path) && Units(path) <= 240
  }

  predicate NameCharacter(c: char) {
    'a' <= c <= 'z' || 'A' <= c <= 'Z' || '0' <= c <= '9' || c == '_' || c == '.' || c == '-'
  }

  predicate RuleName(name: string) { 1 <= |name| <= 64 && forall i | 0 <= i < |name| :: NameCharacter(name[i]) }

  predicate WhiteSpace(c: char) {
    || c == '\t' || c == '\n' || c == '\U{000B}' || c == '\U{000C}' || c == '\r' || c == ' '
    || c == '\U{00A0}' || c == '\U{1680}' || '\U{2000}' <= c <= '\U{200A}' || c == '\U{2028}' || c == '\U{2029}'
    || c == '\U{202F}' || c == '\U{205F}' || c == '\U{3000}' || c == '\U{FEFF}'
  }

  predicate SecretOk(compiles: string -> bool, rule: SecretRule) {
    RuleName(rule.name) && 1 <= Units(rule.pattern) <= 1_000 && compiles(rule.pattern)
  }

  predicate CommandOk(c: Command) {
    && RuleName(c.name)
    && (exists i | 0 <= i < |c.command| :: !WhiteSpace(c.command[i]))
    && Units(c.command) <= 2_000
    && 1_000 <= c.timeoutMs <= 300_000
  }

  predicate LimitsOk(r: Rules) {
    1 <= r.maxChangedFiles <= MAX_CHANGED_FILES && 0 <= r.maxAddedBytes <= MAX_ADDED_BYTES
  }

  predicate Fits(r: Rules) {
    && |r.requiredPaths| <= MAX_PATHS && |r.protectedPaths| <= MAX_PATHS
    && |r.secretPatterns| <= MAX_SECRETS && |r.validationCommands| <= MAX_COMMANDS
  }

  predicate PathsOk(paths: seq<string>) { Once(paths) && forall p | p in paths :: SafePath(p) }

  function SecretNames(rules: seq<SecretRule>): seq<string> {
    seq(|rules|, i requires 0 <= i < |rules| => rules[i].name)
  }

  function CommandNames(commands: seq<Command>): seq<string> {
    seq(|commands|, i requires 0 <= i < |commands| => commands[i].name)
  }

  predicate SecretsOk(compiles: string -> bool, rules: seq<SecretRule>) {
    Once(SecretNames(rules)) && forall rule | rule in rules :: SecretOk(compiles, rule)
  }

  predicate CommandsOk(commands: seq<Command>) {
    Once(CommandNames(commands)) && forall c | c in commands :: CommandOk(c)
  }

  /** The rules that may be written down. `compiles` says which text is a regular expression. */
  predicate Valid(compiles: string -> bool, r: Rules) {
    && LimitsOk(r) && Fits(r)
    && PathsOk(r.requiredPaths) && PathsOk(r.protectedPaths)
    && SecretsOk(compiles, r.secretPatterns) && CommandsOk(r.validationCommands)
  }

  // ---- The names form one list in the source ----

  function Tagged(tag: string, names: seq<string>): seq<string> {
    seq(|names|, i requires 0 <= i < |names| => tag + names[i])
  }

  lemma TaggedOnce(tag: string, names: seq<string>)
    ensures Once(Tagged(tag, names)) <==> Once(names)
  {
    var tagged := Tagged(tag, names);
    forall i, j | 0 <= i < j < |names| ensures tagged[i] == tagged[j] <==> names[i] == names[j] {
      assert tagged[i][|tag|..] == names[i] && tagged[j][|tag|..] == names[j];
    }
  }

  /** A secret rule and a command may share a name: the one list of tagged names repeats nothing exactly when each
    of its halves repeats nothing. */
  lemma NamesApart(secrets: seq<string>, commands: seq<string>)
    ensures Once(Tagged("secret:", secrets) + Tagged("command:", commands)) <==> Once(secrets) && Once(commands)
  {
    TaggedOnce("secret:", secrets);
    TaggedOnce("command:", commands);
    var left, right := Tagged("secret:", secrets), Tagged("command:", commands);
    var all := left + right;
    forall i, j | 0 <= i < |left| && 0 <= j < |right| ensures left[i] != right[j] {
      assert left[i][0] == 's' && right[j][0] == 'c';
    }
    forall i, j | 0 <= i < j < |right| ensures all[|left| + i] == right[i] && all[|left| + j] == right[j] {}
    if Once(left) && Once(right) {
      forall i, j | 0 <= i < j < |all| ensures all[i] != all[j] {
        if j >= |left| > i { assert left[i] != right[j - |left|]; }
      }
    }
    if Once(all) {
      forall i, j | 0 <= i < j < |left| ensures left[i] != left[j] { assert all[i] == left[i] && all[j] == left[j]; }
      forall i, j | 0 <= i < j < |right| ensures right[i] != right[j] {
        assert all[|left| + i] != all[|left| + j];
      }
    }
  }
}
