/** A Run's whole life: one first run, then any number of restarts, with any faults. */
module PromotionLifecycle {
  import opened Faults
  import opened PromotionEvidence
  import opened PromotionJournals
  import opened PromotionWorld
  import opened PromotionRun
  import opened PromotionRecovery
  import opened AirlockRun
  import opened RecoveryTrail
  import E = RecoveryEvents
  import P = ReplayEquivalence
  import R = RecoveryNormaliser

  /** A completed transaction is offered to the directory of decisions, which may fail too. */
  method Publish(w: World, m: Mission, calm: bool) returns (o: Outcome<()>)
    requires Inv(m, w.Now(), w.journal.files) && m.plan.runId in w.journal.files
    requires PhaseOf(m, w.journal.files) == Completed
    requires var t := w.journal.files[m.plan.runId].transaction; t.recovered ==> EndsWhole(m.plan, t.evidence)
    modifies w`authority
    ensures Inv(m, w.Now(), w.journal.files) && (calm ==> o.Ok?)
    ensures o.Ok? ==> var t := w.journal.files[m.plan.runId].transaction;
      w.authority == Some(Authority(t.evidence, t.recovered))
  {
    var t := w.journal.files[m.plan.runId].transaction;
    InvAuthority(m, w.Now(), w.journal.files);
    PublishedInv(m, w.Now(), w.journal.files);
    hide Inv, MayPublish, AuthorityFits, DistinctProviders, EndsWhole;
    FittingPublishes(m.plan, w.authority, Completed, t);
    ghost var s := w.Now();
    o := w.RecordAuthority(m, t, calm);
    assert w.Now() == s || w.Now() == s.(authority := Some(Authority(t.evidence, t.recovered)));
  }

  lemma InvAuthority(m: Mission, s: Outside, files: Files)
    requires Inv(m, s, files) && m.plan.runId in files
    ensures DistinctProviders(m.plan.before + m.plan.after)
    ensures AuthorityFits(m.plan, s.authority, PhaseOf(m, files), files[m.plan.runId].transaction)
  {
  }

  lemma PublishedInv(m: Mission, s: Outside, files: Files)
    requires Inv(m, s, files) && m.plan.runId in files && PhaseOf(m, files) == Completed
    requires var t := files[m.plan.runId].transaction; t.recovered ==> EndsWhole(m.plan, t.evidence)
    ensures var t := files[m.plan.runId].transaction;
      Inv(m, s.(authority := Some(Authority(t.evidence, t.recovered))), files)
  {
    InvAuthority(m, s, files);
    FittingPublishes(m.plan, s.authority, Completed, files[m.plan.runId].transaction);
  }

  /** One restart; what returns is offered to the directory. */
  method Restart(w: World, m: Mission, scope: string, calm: bool) returns (o: Outcome<Transaction>)
    requires Inv(m, w.Now(), w.journal.files) && m.plan.runId in w.journal.files
    modifies w, w.journal
    ensures Stands(m, w.Now(), w.journal.files, PhaseOf(m, old(w.journal.files)))
    ensures o.Ok? ==> Final(m, o.value, w.receipts) && o.value.recovered && EndsWhole(m.plan, o.value.evidence)
    ensures o.Ok? && calm ==> w.authority == Some(Authority(o.value.evidence, true))
  {
    hide *;
    ghost var from := PhaseOf(m, w.journal.files);
    o := ReconcileAtStartup(w, m, scope, calm);
    if o.Ok? {
      StandsInv(m, w.Now(), w.journal.files, from);
      var p := Publish(w, m, calm);
      StandsAt(m, w.Now(), w.journal.files, from);
    }
  }

  /** Any number of restarts, each with any faults and any dispatcher. */
  method Restarts(w: World, m: Mission, scopes: seq<string>)
    requires Inv(m, w.Now(), w.journal.files) && m.plan.runId in w.journal.files
    modifies w, w.journal
    ensures Stands(m, w.Now(), w.journal.files, PhaseOf(m, old(w.journal.files)))
    ensures scopes == [] ==> w.journal.files == old(w.journal.files) && w.Now() == old(w.Now())
  {
    ghost var start := PhaseOf(m, w.journal.files);
    InvStands(m, w.Now(), w.journal.files, start);
    hide *;
    for n := 0 to |scopes|
      invariant Stands(m, w.Now(), w.journal.files, start)
      invariant n == 0 ==> w.journal.files == old(w.journal.files) && w.Now() == old(w.Now())
    {
      StandsInv(m, w.Now(), w.journal.files, start);
      StandsIndex(m, w.Now(), w.journal.files, start);
      ghost var from := PhaseOf(m, w.journal.files);
      var o := Restart(w, m, scopes[n], false);
      StandsIndex(m, w.Now(), w.journal.files, from);
      StandsInv(m, w.Now(), w.journal.files, from);
      InvStands(m, w.Now(), w.journal.files, start);
    }
  }

  /** What a reconcile returns is a replay of itself: it ends with a whole verification. */
  lemma RecoveredReplays(m: Mission, t: Transaction, receipts: map<string, string>)
    requires WellFormed(m) && Final(m, t, receipts) && t.recovered && EndsWhole(m.plan, t.evidence)
    ensures P.Replays(Journaled(m.plan, t), Journaled(m.plan, t))
  {
    var p, a := Expected(m.plan), Journaled(m.plan, t);
    ExpectedDistinct(m.plan);
    R.CountIds(p);
    P.WholeIsBatch(p, t.evidence[|t.evidence| - |p|..]);
    hide P.Replays, P.Batch, WellFormed;
    P.ReflexiveExactly(a);
  }

  /** After a first run that went wrong anywhere and any number of restarts that did too, the
    invariant holds, and effects exist only where Canonical has moved. */
  method Survive(w: World, m: Mission, verdict: Verdict, scopes: seq<string>) returns (end: End)
    requires Inv(m, w.Now(), w.journal.files) && m.plan.runId !in w.journal.files
    modifies w, w.journal
    ensures m.plan.runId in w.journal.files ==> Inv(m, w.Now(), w.journal.files)
    ensures w.receipts != map[] ==> w.canonical == m.plan.targetState
    ensures end.Terminal? ==> w.Now() == old(w.Now()) && m.plan.runId !in w.journal.files
  {
    end := Run(w, m, verdict, false);
    if m.plan.runId !in w.journal.files {
      return;
    }
    if end.Succeeded? {
      var p := Publish(w, m, false);
    }
    ghost var from := PhaseOf(m, w.journal.files);
    Restarts(w, m, scopes);
    StandsInv(m, w.Now(), w.journal.files, from);
    EffectsFollowCanonical(m, w.Now(), w.journal.files);
  }

  /** Recovery converges: from any journal at all, wherever the run or its recoveries stopped, and after any number of
    further restarts that go wrong, one restart in calm weather finishes the protocol exactly when it can, and finishes
    it as a run without faults would have. `before` and `outside` are the state that this last restart finds. */
  method Converge(w: World, m: Mission, scopes: seq<string>) returns (o: Outcome<Transaction>, ghost before: Files,
                  ghost outside: Outside)
    requires Inv(m, w.Now(), w.journal.files) && m.plan.runId in w.journal.files
    modifies w, w.journal
    ensures Stands(m, outside, before, PhaseOf(m, old(w.journal.files)))
    ensures scopes == [] ==> before == old(w.journal.files) && outside == old(w.Now())
    ensures Stands(m, w.Now(), w.journal.files, PhaseOf(m, before))
    ensures o.Ok? <==> CanFinish(m, outside, before, m.scope)
    ensures o.Ok? ==> PhaseOf(m, w.journal.files) == Completed && m.plan.runId in w.journal.files
    ensures o.Ok? ==>
      w.journal.files[m.plan.runId].transaction == o.value && Final(m, o.value, w.receipts) && o.value.recovered
    ensures o.Ok? ==>
      o.value.core.disposition == Some(Promoted) && o.value.core.canonicalAfter == Some(m.plan.targetState)
    ensures o.Ok? ==> o.value.core.delivered == |m.keys| && o.value.core.receipt
    ensures o.Ok? ==> w.canonical == m.plan.targetState && w.receipts.Keys == KeySet(m)
    ensures o.Ok? ==> Provides(w.providers, m.plan.before) && Provides(w.providers, m.plan.after)
  {
    ghost var start := PhaseOf(m, w.journal.files);
    hide *;
    Restarts(w, m, scopes);
    before, outside := w.journal.files, w.Now();
    StandsInv(m, outside, before, start);
    o := ReconcileAtStartup(w, m, m.scope, true);
    if o.Ok? {
      FinalNames(m, o.value, w.receipts);
      StandsInv(m, w.Now(), w.journal.files, PhaseOf(m, before));
      CompletedWorld(m, w.Now(), w.journal.files);
    }
  }

  lemma CompletedWorld(m: Mission, s: Outside, files: Files)
    requires Inv(m, s, files) && m.plan.runId in files && PhaseOf(m, files) == Completed
    ensures s.canonical == m.plan.targetState && s.receipts.Keys == KeySet(m)
    ensures Provides(s.providers, m.plan.before) && Provides(s.providers, m.plan.after)
  {
  }

  /** The fault-free run that recovery is compared with. */
  method RunUndisturbed(w: World, m: Mission) returns (end: End)
    requires Inv(m, w.Now(), w.journal.files) && m.plan.runId !in w.journal.files
    requires MayRun(m, w.Now())
    modifies w, w.journal
    ensures end.Succeeded? && Final(m, end.transaction, w.receipts) && w.canonical == m.plan.targetState
    ensures end.transaction.core.disposition == Some(Promoted)
    ensures end.transaction.core.canonicalAfter == Some(m.plan.targetState)
    ensures end.transaction.core.delivered == |m.keys| && end.transaction.core.receipt
  {
    end := Run(w, m, Passes, true);
    FinalNames(m, end.transaction, w.receipts);
  }
}
