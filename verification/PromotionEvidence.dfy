/** The provider events a Promotion journals, and what its recovery will be able to read in them.

  `before` and `after` are listed in the order in which the registry and the inspection of
  recovery evidence sort providers.
*/
module PromotionEvidence {
  import opened Faults
  import opened PromotionJournals
  import opened RecoveryTrail
  import E = RecoveryEvents
  import R = RecoveryNormaliser

  ghost predicate DistinctProviders(p: seq<ResourcePlan>) {
    forall i, j | 0 <= i < j < |p| :: p[i].provider != p[j].provider
  }

  function ProviderOf(q: ResourcePlan): E.Provider { E.Provider(q.provider, q.kind) }

  function Providers(plans: seq<ResourcePlan>): seq<E.Provider> {
    seq(|plans|, i requires 0 <= i < |plans| => ProviderOf(plans[i]))
  }

  /** The providers whose reports make an attempt whole, in order. */
  function Expected(plan: Plan): seq<E.Provider> { Providers(plan.before + plan.after) }

  lemma ExpectedDistinct(plan: Plan)
    requires DistinctProviders(plan.before + plan.after)
    ensures E.Distinct(Expected(plan)) && R.DistinctIds(Expected(plan))
    ensures |Expected(plan)| == |plan.before| + |plan.after|
  {
  }

  lemma ExpectedAt(plan: Plan, plans: seq<ResourcePlan>, i: nat)
    requires i < |plans| && Part(plan, plans)
    ensures plans == plan.before || plan.before == [] ==>
      i < |Expected(plan)| && Expected(plan)[i] == ProviderOf(plans[i])
    ensures Expected(plan) != []
    ensures plans != plan.before && plan.before != [] && DistinctProviders(plan.before + plan.after) ==>
      ProviderOf(plans[i]) != Expected(plan)[0]
  {
    var all := plan.before + plan.after;
    if plans == plan.before {
      assert all[i] == plans[i];
    } else {
      assert all[|plan.before| + i] == plans[i];
      if plan.before != [] && DistinctProviders(all) { assert all[0].provider != all[|plan.before| + i].provider; }
    }
  }

  predicate Part(plan: Plan, plans: seq<ResourcePlan>) { plans == plan.before || plans == plan.after }

  /** The registry has providers of one visibility only. */
  predicate Uniform(plan: Plan) { plan.before == [] || plan.after == [] }

  function Reported(q: ResourcePlan, stage: E.Stage, status: E.Status, detail: string): E.Event {
    E.Event(ProviderOf(q), stage, status, true, detail)
  }

  /** One more passed report. */
  predicate Adds(q: ResourcePlan, stage: E.Stage, before: E.Events, after: E.Events) {
    |after| == |before| + 1 && before <= after && E.PassedOn(ProviderOf(q), stage, after[|before|])
  }

  /** A passed report and, behind it, a failed one of the same call. */
  predicate AddsBoth(q: ResourcePlan, stage: E.Stage, before: E.Events, after: E.Events) {
    && |after| == |before| + 2 && before <= after && E.PassedOn(ProviderOf(q), stage, after[|before|])
    && after[|before| + 1] == Reported(q, stage, E.Failed, after[|before| + 1].detail)
  }

  /** A passed report for each of `plans`, in order. */
  predicate Extends(plans: seq<ResourcePlan>, stage: E.Stage, before: E.Events, after: E.Events) {
    before <= after && E.Pass(Providers(plans), stage, after[|before|..])
  }

  lemma ExtendsMore(plans: seq<ResourcePlan>, i: nat, stage: E.Stage, before: E.Events, now: E.Events, after: E.Events)
    requires i < |plans| && Extends(plans[..i], stage, before, now) && Adds(plans[i], stage, now, after)
    ensures Extends(plans[..i + 1], stage, before, after)
  {
    assert after == now + [after[|now|]];
    assert after[|before|..] == now[|before|..] + [after[|now|]];
    assert forall k | 0 <= k < i :: Providers(plans[..i])[k] == Providers(plans[..i + 1])[k];
  }

  lemma ExtendsNone(plans: seq<ResourcePlan>, stage: E.Stage, before: E.Events)
    ensures Extends(plans[..0], stage, before, before)
  {
  }

  lemma ExtendsLength(plans: seq<ResourcePlan>, stage: E.Stage, before: E.Events, after: E.Events)
    requires Extends(plans, stage, before, after)
    ensures |after| == |before| + |plans| && before <= after
  {
  }

  /** What the stages before the last record from a phase on: the passes over one visibility that are still to come. */
  predicate Stages(plan: Plan, phase: Phase, before: E.Events, after: E.Events)
    decreases 4 - Index(phase)
  {
    var b, a := |before| + |plan.before|, |before| + |plan.after|;
    match phase
    case Validated =>
      b <= |after| && Extends(plan.before, E.Promote, before, after[..b]) &&
      Stages(plan, VersionInstalled, after[..b], after)
    case VersionInstalled =>
      b <= |after| && Extends(plan.before, E.Reconcile, before, after[..b]) &&
      Stages(plan, CanonicalAdvanced, after[..b], after)
    case CanonicalAdvanced =>
      a <= |after| && Extends(plan.after, E.Promote, before, after[..a]) &&
      Extends(plan.after, E.Reconcile, after[..a], after)
    case _ => after == before
  }

  /** What a recovery records from a phase on: its stages, then one whole verification. */
  predicate Recorded(plan: Plan, phase: Phase, before: E.Events, after: E.Events) {
    var n := |plan.before + plan.after|;
    n <= |after| && Stages(plan, phase, before, after[..|after| - n]) &&
    Extends(plan.before + plan.after, E.Reconcile, after[..|after| - n], after)
  }

  lemma StagesFirst(plan: Plan, phase: Phase, before: E.Events, now: E.Events, after: E.Events)
    requires (phase == Validated && Extends(plan.before, E.Promote, before, now) &&
      Stages(plan, VersionInstalled, now, after))
          || (phase == VersionInstalled && Extends(plan.before, E.Reconcile, before, now) &&
            Stages(plan, CanonicalAdvanced, now, after))
          || (phase == CanonicalAdvanced && Extends(plan.after, E.Promote, before, now) &&
            Extends(plan.after, E.Reconcile, now, after))
    ensures Stages(plan, phase, before, after)
  {
    hide Extends;
    match phase {
      case Validated =>
        ExtendsLength(plan.before, E.Promote, before, now);
        StagesPrefix(plan, VersionInstalled, now, after);
      case VersionInstalled =>
        ExtendsLength(plan.before, E.Reconcile, before, now);
        StagesPrefix(plan, CanonicalAdvanced, now, after);
      case _ =>
        ExtendsLength(plan.after, E.Promote, before, now);
        ExtendsLength(plan.after, E.Reconcile, now, after);
    }
    assert after[..|now|] == now;
  }

  lemma StagesPrefix(plan: Plan, phase: Phase, before: E.Events, after: E.Events)
    requires phase in {VersionInstalled, CanonicalAdvanced}
    ensures Stages(plan, phase, before, after) ==> before <= after
  {
  }

  lemma RecordedLast(plan: Plan, phase: Phase, before: E.Events, now: E.Events, after: E.Events)
    requires Stages(plan, phase, before, now) && Extends(plan.before + plan.after, E.Reconcile, now, after)
    ensures Recorded(plan, phase, before, after)
  {
    hide Extends, Stages;
    ExtendsLength(plan.before + plan.after, E.Reconcile, now, after);
    assert after[..|after| - |plan.before + plan.after|] == now;
  }

  /** Provider evidence as a run and its recoveries leave it: its tidy reports can be read, and a registry
    of one visibility always reports its first provider first. */
  predicate Evidenced(plan: Plan, evidence: E.Events) {
    Expected(plan) != [] ==>
      && Known(Expected(plan), Trail(evidence))
      && (Uniform(plan) ==> StartsFirst(Expected(plan), Trail(evidence)))
  }

  /** Evidence that ends in no report of recovery. */
  lemma QuietEvidence(plan: Plan, evidence: E.Events)
    requires Trail(evidence) == []
    ensures Evidenced(plan, evidence)
  {
    if Expected(plan) != [] { assert E.Parse(Expected(plan), []).Some?; }
  }

  // ---- A pass over the providers of one visibility ----

  /** The reports of a pass start an attempt of the whole registry. */
  predicate Aligned(plan: Plan, plans: seq<ResourcePlan>) { plans == plan.before || plan.before == [] }

  /** `i` providers of the pass have been reported. */
  predicate InPass(plan: Plan, stage: E.Stage, plans: seq<ResourcePlan>, i: nat, evidence: E.Events)
    requires i <= |plans| && Part(plan, plans)
  {
    && Evidenced(plan, evidence)
    && (plans != [] ==>
        && |plans| <= |Expected(plan)|
        && if stage == E.Promote then i > 0 ==> Trail(evidence) == []
           else if Aligned(plan, plans) then Before(Expected(plan), Trail(evidence), i)
           else if i == 0 then Trail(evidence) == []
           else !StartsFirst(Expected(plan), Trail(evidence)))
  }

  /** A pass of promotions may start anywhere, one of reports wherever no reports but its own would be added to. */
  lemma PassStarts(plan: Plan, stage: E.Stage, plans: seq<ResourcePlan>, evidence: E.Events)
    requires Part(plan, plans) && Evidenced(plan, evidence)
    requires stage == E.Promote || Aligned(plan, plans) || plans == [] || Trail(evidence) == []
    ensures InPass(plan, stage, plans, 0, evidence)
  {
    if plans != [] { ExpectedAt(plan, plans, 0); }
  }

  lemma PassedKeeps(plan: Plan, stage: E.Stage, plans: seq<ResourcePlan>, i: nat, evidence: E.Events, detail: string)
    requires stage in {E.Promote, E.Reconcile} && DistinctProviders(plan.before + plan.after)
    requires i < |plans| && Part(plan, plans) && InPass(plan, stage, plans, i, evidence)
    ensures InPass(plan, stage, plans, i + 1, evidence + [Reported(plans[i], stage, E.Passed, detail)])
  {
    var p, e := Expected(plan), Reported(plans[i], stage, E.Passed, detail);
    TrailPush(evidence, e);
    ExpectedDistinct(plan);
    ExpectedAt(plan, plans, i);
    hide Known, Before, Trail, E.Distinct, R.DistinctIds, Expected, DistinctProviders;
    if stage == E.Promote {
      QuietEvidence(plan, evidence + [e]);
    } else if Aligned(plan, plans) {
      GoesOn(p, Trail(evidence), i, e);
      BeforeKnown(p, Trail(evidence) + [e], i + 1);
      StartKept(p, Trail(evidence), e, i);
    } else {
      OffKnown(p, Trail(evidence) + [e]);
    }
  }

  lemma FailedKeeps(plan: Plan, stage: E.Stage, plans: seq<ResourcePlan>, i: nat, evidence: E.Events, detail: string)
    requires stage in {E.Promote, E.Reconcile} && DistinctProviders(plan.before + plan.after)
    requires i < |plans| && Part(plan, plans) && InPass(plan, stage, plans, i, evidence)
    ensures Evidenced(plan, evidence + [Reported(plans[i], stage, E.Failed, detail)])
  {
    var p, e := Expected(plan), Reported(plans[i], stage, E.Failed, detail);
    TrailPush(evidence, e);
    ExpectedDistinct(plan);
    ExpectedAt(plan, plans, i);
    hide Known, Before, Trail, E.Distinct, R.DistinctIds, Expected, DistinctProviders;
    if stage == E.Promote {
      QuietEvidence(plan, evidence + [e]);
    } else if Aligned(plan, plans) {
      Breaks(p, Trail(evidence), i, e);
      StartKept(p, Trail(evidence), e, i);
    } else {
      OffKnown(p, Trail(evidence) + [e]);
    }
  }

  /** The failed report behind a passed one that could not be written. */
  lemma DoubledKeeps(plan: Plan, stage: E.Stage, plans: seq<ResourcePlan>, i: nat, evidence: E.Events, detail: string)
    requires stage in {E.Promote, E.Reconcile} && DistinctProviders(plan.before + plan.after)
    requires i < |plans| && Part(plan, plans) && InPass(plan, stage, plans, i + 1, evidence)
    ensures Evidenced(plan, evidence + [Reported(plans[i], stage, E.Failed, detail)])
  {
    var p, e := Expected(plan), Reported(plans[i], stage, E.Failed, detail);
    TrailPush(evidence, e);
    ExpectedDistinct(plan);
    ExpectedAt(plan, plans, i);
    hide Known, Before, Trail, E.Distinct, R.DistinctIds, Expected, DistinctProviders;
    if stage == E.Promote {
      QuietEvidence(plan, evidence + [e]);
    } else if Aligned(plan, plans) {
      Twice(p, Trail(evidence), i, e);
      BeforeNonEmpty(p, Trail(evidence), i + 1);
    } else {
      OffKnown(p, Trail(evidence) + [e]);
    }
  }

  lemma BeforeKnown(p: seq<E.Provider>, trail: E.Events, i: nat)
    requires p != [] && i <= |p| && Before(p, trail, i)
    ensures Known(p, trail)
  {
  }

  lemma BeforeNonEmpty(p: seq<E.Provider>, trail: E.Events, i: nat)
    requires p != [] && 0 < i <= |p| && Before(p, trail, i)
    ensures trail != []
  {
  }

  lemma StartKept(p: seq<E.Provider>, trail: E.Events, e: E.Event, i: nat)
    requires p != [] && i < |p| && Before(p, trail, i) && e.provider == p[i]
    ensures StartsFirst(p, trail) ==> StartsFirst(p, trail + [e])
  {
  }

  lemma OffKnown(p: seq<E.Provider>, trail: E.Events)
    requires p != [] && !StartsFirst(p, trail)
    ensures Known(p, trail)
  {
  }

  /** A whole verification may follow any evidence. */
  lemma VerifiedKeeps(plan: Plan, evidence: E.Events, verification: E.Events)
    requires DistinctProviders(plan.before + plan.after) && Evidenced(plan, evidence)
    requires E.Whole(Expected(plan), verification)
    ensures Evidenced(plan, evidence + verification)
  {
    var p := Expected(plan);
    ExpectedDistinct(plan);
    if p == [] {
      assert evidence + verification == evidence;
    } else {
      R.WholeReconciles(p, verification);
      TrailAppend(evidence, verification);
      WholeFollows(p, Trail(evidence), verification);
      WholeStarts(p, verification);
    }
  }

  lemma WholeStarts(p: seq<E.Provider>, xs: E.Events)
    requires p != [] && E.Whole(p, xs)
    ensures xs != [] && xs[0].provider == p[0]
  {
  }

  // ---- The immutable authority beside the journal ----

  /** What the immutable directory of decisions says of a promoted Run. */
  datatype Authority = Authority(events: E.Events, recovered: bool)

  /** The journal's transaction as recovery inspects it. */
  function Journaled(plan: Plan, t: Transaction): R.Transaction {
    R.Transaction(if t.status == RecoveryError then R.RecoveryError else R.Promoted, R.Promoted, true, t.recovered,
                  if t.recoveryError then E.Some("") else E.None, Expected(plan), t.evidence, "")
  }

  function Published(plan: Plan, a: Option<Authority>): E.Option<R.Transaction> {
    match a
    case None => E.None
    case Some(v) =>
      E.Some(R.Transaction(R.Promoted, R.Promoted, true, v.recovered, E.None, Expected(plan), v.events, ""))
  }

  /** A published authority is a completed Promotion, and all its providers are known. */
  lemma PublishedSettled(plan: Plan, a: Authority)
    ensures var t := Published(plan, Some(a)).value;
      && t.status.Promoted? && t.disposition.Promoted? && t.completedPhase && t.recoveryError.None?
      && t.recovered == a.recovered && t.events == a.events && |t.providers| == |plan.before| + |plan.after|
  {
  }

  /** The evidence ends with a whole verification. */
  predicate EndsWhole(plan: Plan, evidence: E.Events) {
    var n := |Expected(plan)|;
    n <= |evidence| && E.Whole(Expected(plan), evidence[|evidence| - n..])
  }

  /** A published decision is what the completed journal held then: the same, or all but one whole recovery. */
  ghost predicate AuthorityFits(plan: Plan, a: Option<Authority>, phase: Phase, t: Transaction) {
    a.Some? ==>
      && phase == Completed && a.value.events <= t.evidence
      && if a.value.recovered then t.recovered && t.evidence == a.value.events && EndsWhole(plan, t.evidence)
         else if t.recovered then E.Whole(Expected(plan), t.evidence[|a.value.events|..])
         else t.evidence == a.value.events
  }

  /** What the directory may record next: the same decision, or the recovery of an unrecovered one. */
  predicate MayPublish(plan: Plan, a: Option<Authority>, t: Transaction) {
    || a.None? || a.value == Authority(t.evidence, t.recovered)
    || (!a.value.recovered && t.recovered && a.value.events <= t.evidence &&
        R.CoversProviders(Expected(plan), t.evidence[|a.value.events|..]))
  }

  /** A completed journal may always be published beside what was published before. */
  lemma FittingPublishes(plan: Plan, a: Option<Authority>, phase: Phase, t: Transaction)
    requires DistinctProviders(plan.before + plan.after) && AuthorityFits(plan, a, phase, t)
    ensures MayPublish(plan, a, t)
    ensures phase == Completed && (t.recovered ==> EndsWhole(plan, t.evidence)) ==>
      AuthorityFits(plan, Some(Authority(t.evidence, t.recovered)), phase, t)
  {
    ExpectedDistinct(plan);
    if a.Some? && !a.value.recovered && t.recovered { R.WholeCovers(Expected(plan), t.evidence[|a.value.events|..]); }
  }

  // ---- Can a completed journal be read? ----

  /** What recovery makes of the evidence of a completed journal: only one already recovered is inspected. */
  function Prior(plan: Plan, t: Transaction, a: Option<Authority>): R.Result<R.Inspection> {
    if t.recovered then R.Inspect(Journaled(plan, t), Published(plan, a)) else R.Ok(R.Inspection(false, E.None))
  }

  /** The evidence that recovery keeps. */
  function KeptEvidence(t: Transaction, i: R.Inspection): E.Events {
    if i.normalized.Some? then i.normalized.value else t.evidence
  }

  /** With an authority the evidence is always readable, and nothing is added once it is whole. */
  lemma AuthorityReadable(plan: Plan, t: Transaction, a: Option<Authority>)
    requires DistinctProviders(plan.before + plan.after) && a.Some? && AuthorityFits(plan, a, Completed, t)
    ensures Prior(plan, t, a).Ok? && (t.recovered ==> Prior(plan, t, a) == R.Ok(R.Inspection(true, E.None)))
  {
    if t.recovered {
      var p, events := Expected(plan), a.value.events;
      var tail := t.evidence[|events|..];
      ExpectedDistinct(plan);
      assert events + tail == t.evidence;
      if p != [] { TailReadable(p, Journaled(plan, t), Published(plan, a).value, tail); }
    }
  }

  lemma VerifiedEnds(plan: Plan, evidence: E.Events, verification: E.Events)
    requires E.Whole(Expected(plan), verification)
    ensures EndsWhole(plan, evidence + verification)
  {
    var all := evidence + verification;
    R.WholeLength(Expected(plan), verification);
    assert all[|all| - |verification|..] == verification;
  }

  /** Evidence that needs no further verification ends with one. */
  lemma CompleteEnds(plan: Plan, t: Transaction, a: Option<Authority>)
    requires DistinctProviders(plan.before + plan.after) && AuthorityFits(plan, a, Completed, t)
    requires Prior(plan, t, a).Ok? && Prior(plan, t, a).value.complete
    ensures EndsWhole(plan, KeptEvidence(t, Prior(plan, t, a).value))
  {
    assert t.recovered;
    if a.Some? {
      AuthorityReadable(plan, t, a);
      AuthorityEnds(plan, t, a.value);
    } else {
      ExpectedDistinct(plan);
      hide E.Parse, E.Distinct, R.DistinctIds, Expected, DistinctProviders, EndsWhole, AuthorityFits, R.TrailingStart;
      if Expected(plan) == [] {
        NothingEnds(plan, t.evidence);
      } else {
        var start := R.TrailingStart(t.evidence);
        ParsedEnds(plan, t.evidence[..start], t.evidence[start..]);
      }
    }
  }

  lemma NothingEnds(plan: Plan, evidence: E.Events)
    requires Expected(plan) == []
    ensures EndsWhole(plan, evidence)
  {
  }

  lemma AuthorityEnds(plan: Plan, t: Transaction, a: Authority)
    requires AuthorityFits(plan, Some(a), Completed, t) && t.recovered
    ensures EndsWhole(plan, t.evidence)
  {
    if !a.recovered {
      assert t.evidence == a.events + t.evidence[|a.events|..];
      VerifiedEnds(plan, a.events, t.evidence[|a.events|..]);
    }
  }

  /** What the parser keeps of a trail that it finds complete ends with a whole attempt. */
  lemma ParsedEnds(plan: Plan, front: E.Events, trail: E.Events)
    requires Expected(plan) != [] && E.Distinct(Expected(plan)) && E.Parse(Expected(plan), trail).Some?
    requires E.Parse(Expected(plan), trail).value.lastComplete
    ensures EndsWhole(plan, front + E.Parse(Expected(plan), trail).value.complete)
  {
    hide *;
    var p := Expected(plan);
    var complete := E.Parse(p, trail).value.complete;
    E.KeptParses(p, trail);
    R.KeptBlocks(p, trail);
    var last := R.LastBlock(complete, |p|);
    R.WholeLength(p, last);
    BlockEnds(complete, |p|);
    var most := complete[..|complete| - |p|];
    assert front + complete == (front + most) + last;
    VerifiedEnds(plan, front + most, last);
  }

  lemma BlockEnds(complete: E.Events, n: nat)
    requires |R.LastBlock(complete, n)| == n
    ensures n <= |complete| && complete == complete[..|complete| - n] + R.LastBlock(complete, n)
  {
  }

  lemma TailReadable(p: seq<E.Provider>, t: R.Transaction, a: R.Transaction, tail: E.Events)
    requires p != [] && E.Distinct(p) && t.providers == p && t.events == a.events + tail
    requires if a.recovered then tail == [] else E.Whole(p, tail)
    ensures R.Inspect(t, E.Some(a)) == R.Ok(R.Inspection(true, E.None))
  {
    hide E.Parse, E.Whole, R.LastBlock, E.Distinct;
    assert t.events[|a.events|..] == tail && t.events[..|a.events|] == a.events;
    if a.recovered {
      R.NothingParses(p);
      assert R.Normalized(E.Some(a), [], |p|) == [];
    } else {
      E.OneAttempt(p, tail);
      WholeStarts(p, tail);
      LastIsAll(p, tail);
    }
  }

  lemma LastIsAll(p: seq<E.Provider>, tail: E.Events)
    requires E.Whole(p, tail)
    ensures R.LastBlock(tail, |p|) == tail
  {
    R.WholeLength(p, tail);
    R.ShortBlock(tail, |p|);
  }

  /** Without one it is readable exactly when its trailing reports are tidy. */
  lemma ReadableExactly(plan: Plan, t: Transaction)
    requires DistinctProviders(plan.before + plan.after) && Evidenced(plan, t.evidence) && t.recovered
    requires Expected(plan) != []
    ensures Prior(plan, t, None).Ok? <==> Tidy(Expected(plan), Trail(t.evidence))
  {
    var p := Expected(plan);
    ExpectedDistinct(plan);
    hide E.Parse, Tidy, E.Distinct, R.DistinctIds, Expected;
    if Trail(t.evidence) == [] {
      assert R.TrailingStart(t.evidence) == |t.evidence|;
      EmptyTidy(p);
    } else if E.Parse(p, Trail(t.evidence)).Some? {
      ParsedIsTidy(p, Trail(t.evidence));
    }
  }

  lemma EmptyTidy(p: seq<E.Provider>)
    requires p != []
    ensures Tidy(p, [])
  {
  }

  /** A registry of one visibility is readable exactly when no report was doubled. */
  lemma UniformReadable(plan: Plan, t: Transaction)
    requires DistinctProviders(plan.before + plan.after) && Evidenced(plan, t.evidence) && t.recovered
    requires Expected(plan) != [] && Uniform(plan)
    ensures Prior(plan, t, None).Ok? <==> !Doubled(Expected(plan), Trail(t.evidence))
  {
    ReadableExactly(plan, t);
  }

  /** The normal form of readable evidence is evidence again. */
  lemma KeptEvidenced(plan: Plan, t: Transaction)
    requires DistinctProviders(plan.before + plan.after) && Evidenced(plan, t.evidence) && Prior(plan, t, None).Ok?
    ensures Evidenced(plan, KeptEvidence(t, Prior(plan, t, None).value))
    ensures |KeptEvidence(t, Prior(plan, t, None).value)| <= |t.evidence|
  {
    var p := Expected(plan);
    ExpectedDistinct(plan);
    if t.recovered && p != [] && Trail(t.evidence) != [] {
      var start := R.TrailingStart(t.evidence);
      var complete := E.Parse(p, Trail(t.evidence)).value.complete;
      hide E.Parse, E.Distinct, R.DistinctIds, Expected, R.LastBlock;
      R.KeptBlocks(p, Trail(t.evidence));
      E.KeptParses(p, Trail(t.evidence));
      KeptShorter(p, Trail(t.evidence));
      R.TrailingAfter(t.evidence[..start], complete);
      var kept := t.evidence[..start] + complete;
      assert Trail(kept) == complete;
      if complete != [] { ParsedStarts(p, complete); }
    }
  }

  lemma ParsedStarts(p: seq<E.Provider>, xs: E.Events)
    requires p != [] && E.Distinct(p) && E.Parse(p, xs).Some?
    ensures StartsFirst(p, xs)
  {
    ParsedIsTidy(p, xs);
  }

  lemma {:induction false} KeptShorter(p: seq<E.Provider>, xs: E.Events)
    requires p != [] && E.Parse(p, xs).Some?
    ensures |E.Parse(p, xs).value.complete| + |E.Parse(p, xs).value.attempt| <= |xs|
    decreases |xs|
  {
    if xs != [] { KeptShorter(p, xs[..|xs| - 1]); }
  }
}
