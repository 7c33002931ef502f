/** Assurance proposals and the integrity check that each goes through before it is returned.

  The operations are sorted by `localeCompare`, here `less`; the check compares their keys by code units, here `units`.
*/
module ProposalOrders {
  import opened AssuranceDerivation
  import opened AssuranceLaws
  import opened AssuranceOperations
  import opened AssuranceProposals
  import opened ContractStrengthening
  import opened Faults
  import opened OutcomeChecks
  import opened OutcomeContracts
  import opened Sorting
  import Utf8Order

  /** What DeriveOperations selects from a history. */
  ghost predicate Selection(less: (string, string) -> bool, plain: string -> bool, base: Rules, runs: seq<Run>,
                            ops: seq<Operation>) {
    && |ops| <= MAXIMUM_OPERATIONS && InOrder(KeyBefore(less), ops)
    && (forall op | op in ops :: Called(less, plain, base, runs, op))
    && (forall op | Called(less, plain, base, runs, op) && op !in ops ::
          |ops| == MAXIMUM_OPERATIONS && forall x | x in ops :: KeyBefore(less)(x, op))
  }

  /** The two orders say the same of every two operations selected. */
  predicate Agree(less: (string, string) -> bool, units: (string, string) -> bool, ops: seq<Operation>) {
    forall a, b | a in ops && b in ops :: KeyBefore(less)(a, b) <==> KeyBefore(units)(a, b)
  }

  datatype Proposal = Nothing | Proposed(operations: seq<Operation>) | Conflict

  /** deriveAssuranceProposal as far as the check of the operation order. It ends in a
    conflict exactly when the orders disagree on what was selected. */
  method DeriveProposal(less: (string, string) -> bool, units: (string, string) -> bool, plain: string -> bool,
                        base: Rules, allRuns: seq<Run>)
    returns (r: Proposal, selected: seq<Operation>)
    requires TotalOrder(less) && TotalOrder(units)
    ensures Selection(less, plain, base, Latest(less, allRuns), selected)
    ensures r == if selected == [] then Nothing else if Agree(less, units, selected) then Proposed(selected)
      else Conflict
  {
    var operations := DeriveOperations(less, plain, base, allRuns);
    selected := operations;
    hide Called, OperationKey, Agree, Latest, InOrder;
    if operations == [] {
      return Nothing, selected;
    }
    OrderedAgree(less, units, operations);
    var ordered := InUnitOrder(units, operations);
    return if ordered then Proposed(operations) else Conflict, selected;
  }

  /** The loop over the keys: is each above the one before it? */
  method InUnitOrder(units: (string, string) -> bool, operations: seq<Operation>) returns (ordered: bool)
    requires TotalOrder(units) && operations != []
    ensures ordered == InOrder(KeyBefore(units), operations)
  {
    hide OperationKey, InOrder, TotalOrder;
    FirstInOrder(KeyBefore(units), operations);
    for i := 1 to |operations|
      invariant InOrder(KeyBefore(units), operations[..i])
    {
      if !units(OperationKey(operations[i - 1]), OperationKey(operations[i])) {
        NotInOrder(KeyBefore(units), operations, i);
        return false;
      }
      OrderedMore(units, operations, i);
    }
    assert operations[..|operations|] == operations;
    return true;
  }

  lemma FirstInOrder<T>(less: (T, T) -> bool, q: seq<T>)
    requires q != []
    ensures InOrder(less, q[..1])
  {
  }

  lemma NotInOrder<T>(less: (T, T) -> bool, q: seq<T>, i: nat)
    requires 0 < i < |q| && !less(q[i - 1], q[i])
    ensures !InOrder(less, q)
  {
  }

  lemma OrderedMore(units: (string, string) -> bool, ops: seq<Operation>, i: nat)
    requires TotalOrder(units) && 0 < i < |ops| && InOrder(KeyBefore(units), ops[..i])
    requires KeyBefore(units)(ops[i - 1], ops[i])
    ensures InOrder(KeyBefore(units), ops[..i + 1])
  {
    hide OperationKey;
    forall k | 0 <= k < i ensures KeyBefore(units)(ops[k], ops[i]) {
      if k < i - 1 {
        assert KeyBefore(units)(ops[..i][k], ops[..i][i - 1]);
        Chained(units, OperationKey(ops[k]), OperationKey(ops[i - 1]), OperationKey(ops[i]));
      }
    }
  }

  /** What is in order by the one is in order by the other exactly if the two agree on it. */
  lemma OrderedAgree(less: (string, string) -> bool, units: (string, string) -> bool, ops: seq<Operation>)
    requires TotalOrder(less) && TotalOrder(units) && InOrder(KeyBefore(less), ops)
    ensures InOrder(KeyBefore(units), ops) <==> Agree(less, units, ops)
  {
    hide OperationKey;
    if InOrder(KeyBefore(units), ops) {
      forall a, b | a in ops && b in ops ensures KeyBefore(less)(a, b) <==> KeyBefore(units)(a, b) {
        var i := PlaceOf(ops, a);
        var j := PlaceOf(ops, b);
        assert i < j ==> KeyBefore(less)(a, b) && KeyBefore(units)(a, b);
        assert j < i ==> KeyBefore(less)(b, a) && KeyBefore(units)(b, a);
        OneWay(less, OperationKey(a), OperationKey(b));
        OneWay(units, OperationKey(a), OperationKey(b));
      }
    } else if Agree(less, units, ops) {
      forall i, j | 0 <= i < j < |ops| ensures KeyBefore(units)(ops[i], ops[j]) {
        assert ops[i] in ops && ops[j] in ops && KeyBefore(less)(ops[i], ops[j]);
      }
    }
  }

  // ---- Two paths, one of them in capitals ----

  /** A Run of its own lineage that was quarantined for deleting both paths. */
  function DeletingRun(base: Rules, id: string): Run {
    var files := [Change("B", Deleted, 0), Change("a", Deleted, 0)];
    Run(id, id, Quarantined, Some(Summary(files, 2, 0)), [], base)
  }

  function DeletingRuns(base: Rules): seq<Run> {
    [DeletingRun(base, "1"), DeletingRun(base, "2"), DeletingRun(base, "3")]
  }

  lemma {:induction false} SortMembers<T>(less: (T, T) -> bool, q: seq<T>)
    ensures Elements(Sort(less, q)) == Elements(q) && |Sort(less, q)| == |q|
    decreases |q|
  {
    if q != [] {
      SortMembers(less, q[1..]);
      InsertElements(less, q[0], Sort(less, q[1..]));
      ElementsPush(q[0], q[1..]);
      assert q == [q[0]] + q[1..];
    }
  }

  predicate BothPaths(run: Run) {
    run.disposition == Quarantined && run.validations == [] && DeletedPaths(run) == ["B", "a"]
  }

  /** The history calls for the two paths and for nothing else. */
  lemma DeletingCalls(less: (string, string) -> bool, plain: string -> bool, base: Rules, op: Operation)
    requires plain("B") && plain("a")
    ensures Called(less, plain, base, Latest(less, DeletingRuns(base)), op) <==>
      || (op.AddRequiredPath? && op.path in {"B", "a"} && op.path !in base.requiredPaths)
      || (op.AddProtectedPath? && op.path in {"B", "a"} && op.path !in base.protectedPaths)
  {
    var runs := Latest(less, DeletingRuns(base));
    LatestDeleting(less, base);
    hide Latest, Nameable;
    LetterNameable(plain, "B");
    LetterNameable(plain, "a");
    PathsDeleted(base, runs);
    NothingElse(less, base, runs);
  }

  lemma LetterNameable(plain: string -> bool, path: string)
    requires |path| == 1 && ('a' <= path[0] <= 'z' || 'A' <= path[0] <= 'Z') && plain(path)
    ensures Nameable(plain, path)
  {
    assert path == [path[0]] && path[1..] == "";
    assert Utf8Order.Utf8(path) == Utf8Order.Encode(path[0]) + [];
    var rest := Segments(path[1..]);
    assert rest == [""] && rest[1..] == [] && [path[0]] + rest[0] == [path[0]];
    assert Segments(path) == [[path[0]]] && |[path[0]]| != |".."|;
  }

  lemma LatestDeleting(less: (string, string) -> bool, base: Rules)
    ensures var runs := Latest(less, DeletingRuns(base));
      && (forall run | run in runs :: BothPaths(run))
      && forall id | id in {"1", "2", "3"} :: DeletingRun(base, id) in runs
  {
    var all := DeletingRuns(base);
    var runs := Latest(less, all);
    SortMembers(ById(less), all);
    forall run ensures run in runs <==> run in all {
      InElements(runs, run);
      InElements(all, run);
    }
    hide Latest;
    forall run | run in runs ensures BothPaths(run) { DeletesBoth(base, run.id); }
    assert all[0] in all && all[1] in all && all[2] in all;
  }

  lemma DeletesBoth(base: Rules, id: string)
    ensures BothPaths(DeletingRun(base, id))
  {
    var files := [Change("B", Deleted, 0), Change("a", Deleted, 0)];
    assert files[1..] == [Change("a", Deleted, 0)] && files[1..][1..] == [];
  }

  lemma PathsDeleted(base: Rules, runs: seq<Run>)
    requires forall run | run in runs :: BothPaths(run)
    requires forall id | id in {"1", "2", "3"} :: DeletingRun(base, id) in runs
    ensures forall path :: Supported(runs, DeletedPaths, path, 3) <==> path in {"B", "a"}
  {
    forall path ensures Supported(runs, DeletedPaths, path, 3) <==> path in {"B", "a"} {
      var roots := Lineages(runs, DeletedPaths, path);
      if path in {"B", "a"} {
        forall id | id in {"1", "2", "3"} ensures id in roots {
          assert BothPaths(DeletingRun(base, id)) && DeletingRun(base, id).rootRunId == id;
        }
        SubsetSize({"1", "2", "3"}, roots);
      } else {
        assert roots == {};
      }
    }
  }

  lemma NothingElse(less: (string, string) -> bool, base: Rules, runs: seq<Run>)
    requires forall run | run in runs :: BothPaths(run)
    ensures forall op :: !CommandCall(base, runs, op) && !SecretCall(base, runs, op)
    ensures forall op, metric :: !LimitCall(less, base, runs, metric, op)
  {
    forall name ensures Lineages(runs, OptionalFailures(base), name) == {} {}
    assert Lineages(runs, CatalogFailures(base), CATALOG[0].name) == {};
    forall metric ensures Overflows(metric, runs) == [] { NoOverflows(metric, runs); }
  }

  lemma {:induction false} NoOverflows(metric: Metric, runs: seq<Run>)
    requires forall run | run in runs :: BothPaths(run)
    ensures Overflows(metric, runs) == []
    decreases |runs|
  {
    if runs != [] {
      assert BothPaths(runs[0]);
      NoOverflows(metric, runs[1..]);
    }
  }

  /** Three lineages that deleted "B" and "a": whatever order puts "a" first where code units put "B" first, their
    proposal is refused. */
  lemma CapitalsRefused(less: (string, string) -> bool, units: (string, string) -> bool, plain: string -> bool,
                        base: Rules, selected: seq<Operation>)
    requires TotalOrder(less) && TotalOrder(units) && plain("B") && plain("a")
    requires "B" !in base.requiredPaths && "a" !in base.requiredPaths
    requires less("add-required-path:a", "add-required-path:B") && units("add-required-path:B", "add-required-path:a")
    requires Selection(less, plain, base, Latest(less, DeletingRuns(base)), selected)
    ensures selected != [] && !Agree(less, units, selected)
  {
    var a, b := AddRequiredPath("a"), AddRequiredPath("B");
    var runs := Latest(less, DeletingRuns(base));
    hide Latest, Called, TotalOrder;
    forall op ensures Called(less, plain, base, runs, op) <==>
      || (op.AddRequiredPath? && op.path in {"B", "a"} && op.path !in base.requiredPaths)
      || (op.AddProtectedPath? && op.path in {"B", "a"} && op.path !in base.protectedPaths)
    {
      DeletingCalls(less, plain, base, op);
    }
    var four := {a, b, AddProtectedPath("a"), AddProtectedPath("B")};
    assert Elements(selected) <= four;
    SubsetSize(Elements(selected), four);
    StrictOnce(less, selected);
    OnceSize(selected);
    assert a in selected && b in selected;
    assert OperationKey(a) == "add-required-path:a" && OperationKey(b) == "add-required-path:B";
    OneWay(units, OperationKey(b), OperationKey(a));
    assert KeyBefore(less)(a, b) && !KeyBefore(units)(a, b);
  }

  lemma StrictOnce(less: (string, string) -> bool, ops: seq<Operation>)
    requires TotalOrder(less) && InOrder(KeyBefore(less), ops)
    ensures Once(ops)
  {
    hide OperationKey;
    forall i, j | 0 <= i < j < |ops| ensures ops[i] != ops[j] {
      assert KeyBefore(less)(ops[i], ops[j]);
      OneWay(less, OperationKey(ops[i]), OperationKey(ops[j]));
    }
  }

  lemma OneWay(less: (string, string) -> bool, x: string, y: string)
    requires TotalOrder(less)
    ensures less(x, y) ==> !less(y, x) && x != y
    ensures !less(x, x)
  {
    if less(x, y) && less(y, x) { Chained(less, x, y, x); }
  }

  lemma Chained(less: (string, string) -> bool, x: string, y: string, z: string)
    requires TotalOrder(less) && less(x, y) && less(y, z)
    ensures less(x, z)
  {
  }
}
