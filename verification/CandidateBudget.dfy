/** Token reservations and the worker pool of a Candidate Set, from agent-service.ts.

  Workers interleave freely between awaits; reading and raising `nextIndex` is one step.
*/
module CandidateBudget {
  import opened Sorting

  // ---- Reservations ----

  /** candidateTokenAllowance for the competitor at `index` of `n`. */
  function Allowance(total: nat, n: nat, index: nat): nat
    requires index < n
  {
    total / n + if index < total % n then 1 else 0
  }

  /** The sum of the first `k` reservations. */
  function Reserved(total: nat, n: nat, k: nat): nat
    requires k <= n
  {
    if k == 0 then 0 else Reserved(total, n, k - 1) + Allowance(total, n, k - 1)
  }

  lemma {:induction false} ReservedClosed(total: nat, n: nat, k: nat)
    requires k <= n && 0 < n
    ensures Reserved(total, n, k) == k * (total / n) + if k < total % n then k else total % n
  {
    if k > 0 {
      ReservedClosed(total, n, k - 1);
    }
  }

  lemma Remainder(total: nat, n: nat)
    requires 0 < n
    ensures total % n < n && n * (total / n) + total % n == total
    ensures total >= n ==> total / n >= 1
  {
  }

  /** Reservations differ by at most one, sum to the budget, and are each at least one exactly
    when the budget has a token for every competitor. */
  lemma ReservationsFair(total: nat, n: nat)
    requires 0 < n
    ensures Reserved(total, n, n) == total
    ensures forall i, j | 0 <= i < n && 0 <= j < n :: Allowance(total, n, i) <= Allowance(total, n, j) + 1
    ensures (forall i | 0 <= i < n :: Allowance(total, n, i) >= 1) <==> total >= n
  {
    ReservedClosed(total, n, n);
    Remainder(total, n);
    if total < n {
      assert Allowance(total, n, n - 1) == 0;
    }
  }

  /** The aggregate of what competitors recorded; a competitor may have recorded nothing. */
  function Aggregate(tokens: map<nat, nat>, k: nat): nat {
    if k == 0 then 0 else Aggregate(tokens, k - 1) + if k - 1 in tokens then tokens[k - 1] else 0
  }

  lemma {:induction false} AggregateWithin(total: nat, n: nat, tokens: map<nat, nat>, k: nat)
    requires k <= n && forall i | i in tokens :: i < n ==> tokens[i] <= Allowance(total, n, i)
    ensures Aggregate(tokens, k) <= Reserved(total, n, k)
  {
    if k > 0 { AggregateWithin(total, n, tokens, k - 1); }
  }

  // ---- The pool ----

  datatype Worker = Idle | Busy(index: nat) | Stopped

  /** `claims` lists the competitors claimed, in order; `tokens` what finished ones recorded. */
  datatype Pool = Pool(next: nat, workers: seq<Worker>, claims: seq<nat>, done: set<nat>, tokens: map<nat, nat>)

  function Start(maxConcurrency: nat): Pool { Pool(0, seq(maxConcurrency, _ => Idle), [], {}, map[]) }

  /** An idle worker takes the next index, or stops when the competitors have run out. */
  ghost predicate Claims(n: nat, s: Pool, t: Pool, w: nat) {
    && w < |s.workers| && s.workers[w].Idle?
    && t == if s.next < n
      then s.(next := s.next + 1, workers := s.workers[w := Busy(s.next)], claims := s.claims + [s.next])
      else s.(next := s.next + 1, workers := s.workers[w := Stopped])
  }

  /** A busy worker finishes. A Runtime that used more than its reservation is not recorded. */
  ghost predicate Finishes(total: nat, n: nat, s: Pool, t: Pool, w: nat) {
    && w < |s.workers| && s.workers[w].Busy?
    && var i := s.workers[w].index;
      exists used: nat, recorded: bool ::
        (recorded ==> i < n && used <= Allowance(total, n, i)) && t == Finished(s, w, i, used, recorded)
  }

  function Finished(s: Pool, w: nat, i: nat, used: nat, recorded: bool): Pool
    requires w < |s.workers|
  {
    s.(workers := s.workers[w := Idle], done := s.done + {i}, tokens := if recorded then s.tokens[i := used]
    else s.tokens)
  }

  ghost predicate Step(total: nat, n: nat, s: Pool, t: Pool) {
    exists w :: Claims(n, s, t, w) || Finishes(total, n, s, t, w)
  }

  function InFlight(workers: seq<Worker>): set<nat> {
    set w | 0 <= w < |workers| && workers[w].Busy? :: workers[w].index
  }

  function Upto(k: nat): (r: set<nat>)
    ensures forall i: nat :: i in r <==> i < k
  {
    if k == 0 then {} else Upto(k - 1) + {k - 1}
  }

  function Claimed(n: nat, next: nat): nat { if next < n then next else n }

  ghost predicate Inv(total: nat, n: nat, s: Pool) {
    && s.claims == seq(Claimed(n, s.next), i => i)
    && (forall v, w | 0 <= v < w < |s.workers| && s.workers[v].Busy? && s.workers[w].Busy? ::
      s.workers[v].index != s.workers[w].index)
    && InFlight(s.workers) !! s.done && InFlight(s.workers) + s.done == Upto(Claimed(n, s.next))
    && (forall w | 0 <= w < |s.workers| && s.workers[w].Stopped? :: s.next > n)
    && (forall i | i in s.tokens :: i < n && s.tokens[i] <= Allowance(total, n, i))
  }

  lemma ClaimKeeps(total: nat, n: nat, s: Pool, t: Pool, w: nat)
    requires Inv(total, n, s) && Claims(n, s, t, w)
    ensures Inv(total, n, t)
  {
    if s.next < n {
      FlightSet(s.workers, w, Busy(s.next));
      assert InFlight(s.workers) - {} == InFlight(s.workers);
      forall v | 0 <= v < |s.workers| && s.workers[v].Busy? ensures s.workers[v].index != s.next {
        assert s.workers[v].index in InFlight(s.workers);
      }
      assert s.next !in s.done;
      assert Upto(s.next + 1) == Upto(s.next) + {s.next};
    } else {
      FlightSet(s.workers, w, Stopped);
    }
  }

  /** Replacing an idle worker adds what the new one is busy with. */
  lemma FlightSet(workers: seq<Worker>, w: nat, next: Worker)
    requires w < |workers| && workers[w].Idle?
    ensures InFlight(workers[w := next]) == InFlight(workers) + if next.Busy? then {next.index} else {}
  {
    var after := workers[w := next];
    assert after[w] == next;
    forall i | i in InFlight(workers) ensures i in InFlight(after) {
      var v :| 0 <= v < |workers| && workers[v].Busy? && workers[v].index == i;
      assert after[v] == workers[v];
    }
  }

  lemma FinishKeeps(total: nat, n: nat, s: Pool, t: Pool, w: nat)
    requires Inv(total, n, s) && Finishes(total, n, s, t, w)
    ensures Inv(total, n, t)
  {
    var i := s.workers[w].index;
    assert i in InFlight(s.workers);
    forall j | j in InFlight(s.workers) && j != i ensures j in InFlight(t.workers) {
      var v :| 0 <= v < |s.workers| && s.workers[v].Busy? && s.workers[v].index == j;
      assert t.workers[v] == s.workers[v];
    }
    forall j | j in InFlight(t.workers) ensures j in InFlight(s.workers) && j != i {
      var v :| 0 <= v < |t.workers| && t.workers[v].Busy? && t.workers[v].index == j;
      assert v != w && s.workers[v] == t.workers[v];
    }
    assert InFlight(t.workers) == InFlight(s.workers) - {i};
  }

  /** Whatever a competitor used within its reservation may be recorded when it finishes, and nothing recorded is
    lost. */
  lemma UseIsRecorded(total: nat, n: nat, s: Pool, w: nat, used: nat)
    requires Inv(total, n, s) && w < |s.workers| && s.workers[w].Busy? && s.workers[w].index < n
    requires used <= Allowance(total, n, s.workers[w].index)
    ensures exists t :: Finishes(total, n, s, t, w) && t.tokens == s.tokens[s.workers[w].index := used]
    ensures forall t | Finishes(total, n, s, t, w) :: s.tokens.Keys <= t.tokens.Keys && s.workers[w].index in t.done
  {
    var i := s.workers[w].index;
    assert i in InFlight(s.workers) && i in Upto(Claimed(n, s.next));
    var t := Finished(s, w, i, used, true);
    assert Finishes(total, n, s, t, w);
  }

  lemma StepKeeps(total: nat, n: nat, s: Pool, t: Pool)
    requires Inv(total, n, s) && Step(total, n, s, t)
    ensures Inv(total, n, t) && |t.workers| == |s.workers| && s.claims <= t.claims && s.done <= t.done
  {
    var w :| Claims(n, s, t, w) || Finishes(total, n, s, t, w);
    if Claims(n, s, t, w) { ClaimKeeps(total, n, s, t, w); } else { FinishKeeps(total, n, s, t, w); }
  }

  ghost predicate Run(total: nat, n: nat, maxConcurrency: nat, trace: seq<Pool>) {
    && trace != [] && trace[0] == Start(maxConcurrency)
    && forall i | 0 <= i < |trace| - 1 :: Step(total, n, trace[i], trace[i + 1])
  }

  lemma {:induction false} RunKeeps(total: nat, n: nat, maxConcurrency: nat, trace: seq<Pool>, i: nat)
    requires Run(total, n, maxConcurrency, trace) && i < |trace|
    ensures Inv(total, n, trace[i]) && |trace[i].workers| == maxConcurrency
  {
    if i == 0 {
      assert trace[0].claims == seq(0, k => k);
    } else {
      RunKeeps(total, n, maxConcurrency, trace, i - 1);
      assert Step(total, n, trace[i - 1], trace[i - 1 + 1]);
      StepKeeps(total, n, trace[i - 1], trace[i]);
    }
  }

  lemma {:induction false} FlightSize(workers: seq<Worker>)
    ensures |InFlight(workers)| <= |workers|
  {
    if workers != [] {
      var front, last := workers[..|workers| - 1], workers[|workers| - 1];
      FlightSize(front);
      forall i | i in InFlight(workers) ensures i in InFlight(front) || (last.Busy? && i == last.index) {
        var w :| 0 <= w < |workers| && workers[w].Busy? && workers[w].index == i;
        if w < |front| { assert front[w] == workers[w]; }
      }
      SubsetSize(InFlight(workers), InFlight(front) + if last.Busy? then {last.index} else {});
    }
  }

  /** Under every interleaving: each competitor is claimed once, in order, with at most
    `maxConcurrency` in flight, and the recorded tokens stay within the budget. */
  lemma EveryInterleaving(total: nat, n: nat, maxConcurrency: nat, trace: seq<Pool>, i: nat)
    requires Run(total, n, maxConcurrency, trace) && i < |trace| && 0 < n
    ensures |InFlight(trace[i].workers)| <= maxConcurrency
    ensures forall j, k | 0 <= j < k < |trace[i].claims| :: trace[i].claims[j] != trace[i].claims[k]
    ensures forall c | c in trace[i].claims :: c < n
    ensures Aggregate(trace[i].tokens, n) <= total
  {
    RunKeeps(total, n, maxConcurrency, trace, i);
    FlightSize(trace[i].workers);
    AggregateWithin(total, n, trace[i].tokens, n);
    ReservationsFair(total, n);
  }

  /** When every worker has stopped, every competitor was claimed exactly once and has finished. */
  lemma StoppedIsComplete(total: nat, n: nat, maxConcurrency: nat, trace: seq<Pool>, i: nat)
    requires Run(total, n, maxConcurrency, trace) && i < |trace| && 0 < maxConcurrency
    requires forall w | 0 <= w < |trace[i].workers| :: trace[i].workers[w].Stopped?
    ensures trace[i].done == Upto(n) && trace[i].claims == seq(n, k => k)
  {
    RunKeeps(total, n, maxConcurrency, trace, i);
    assert trace[i].workers[0].Stopped?;
    assert InFlight(trace[i].workers) == {};
  }
}
