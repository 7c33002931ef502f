# Agent Airlock: a verified model of its transactional core

Agent Airlock runs a coding agent against a copy of an Agent's state, the Candidate, and lets the result into
Canonical State only through a journaled Promotion. This project models that core in Dafny and proves what it is for:
that a Promotion can stop anywhere and still end as an undisturbed one would, that nothing outside happens before
Canonical has moved, that published decisions are never replaced, and that the small algorithms underneath compute what
their standards and documents say.

`dafny verify dfyconfig.toml` checks everything. The modules, in reading order:

- **Promotion.** `PromotionJournals` is the five-phase journal: a map of files that each operation replaces atomically.
  `RecoveryTrail` and `PromotionEvidence` say what the provider events that it collects can still be read as.
  `PromotionWorld` is what the journal protects (Canonical State, providers, receipts, the published decision) and the
  invariant that ties the two. `PromotionSteps` and `PromotionRun` are the run, step by step, `AirlockRun` its failure
  paths, `PromotionRecovery` the startup reconciliation, `PromotionLifecycle` whole lives of a Run, and
  `PromotionFailures` the journals that recovery cannot finish. `ResourceRegistries` is the admission of providers,
  `ResourceCoordinators` what is done with them, and reported, around the Promotion.
- **Terminal authority.** `RecoveryEvents` and `RecoveryNormaliser` read recovery evidence, `ReplayEquivalence` compares
  two recovered transactions, `AuthorityDirectory` is the append-only directory of decisions. `AuthorityMoves` and
  `ReplayMeaning` say which moves and which replays these allow, in terms of the events alone.
- **Competing Futures.** `Selection` ranks competitors and `SelectionMeaning` says who is ahead on raw measures,
  `CandidateBudget` is the worker pool with its token reservations, `CandidateDecisions` the decision of a set,
  `CandidateSets` its life with restarts.
- **Federation.** `Federated` holds the state of both sagas and its invariant, `FederatedCoordinators` the operations,
  `FederatedRuns` whole runs.
- **External actions.** `ExternalActions` is the local delivery store and the HTTP dispatcher.
- **Kernels.** `BigIntBits`, `KeccakFips`, `KeccakInverse`, `KeccakTables`, `Keccak`, `KeccakSponge`: Keccak-256 over
  unbounded integers against sections 3.2, 4 and 5.1 of FIPS 202. `JsonText`, `Utf8Order`, `StableJson`: canonical JSON.
  `Regex`, `GlobCompiler`, `GlobMeaning`: path patterns. `OutcomeContracts`, `ContractMeaning`, `OutcomeChecks`,
  `OutcomeMeaning`, `ContractStrengthening`, `AssuranceOperations`, `AssuranceLaws`, `AssuranceDerivation`,
  `AssuranceLimits`, `AssuranceProposals`, `AssuranceMeaning`, `ProposalOrders`: Outcome Contracts, their checks and how
  history strengthens them. `Faults` and `Sorting` are shared.

## Faults

Every durable write is one `rename` or `link`, so it happens or it does not. A step has a fate: it acts or not, and then
returns, throws, or never comes back because the process died. Methods take the weather as an argument: when it is not
`calm` each step may meet any fate, so one method contract covers every crash point, every thrown error and every
interleaving of the two; when it is calm the contract says when the method must succeed.

A module whose name ends in `Meaning`, and `AuthorityMoves`, states what the functions of the others compute a second
time, from raw fields, literal bounds and quantifiers, and proves the two alike.

## What is assumed

- Digests (SHA-256) are injective, so a digest is modelled by the data it is taken over.
- `WorkspaceManager`: installing a version is idempotent; advancing moves Canonical from the plan's source to its target,
  does nothing at the target, and throws elsewhere. Providers: promote is idempotent per plan and reconcile reports the
  installed version; prepare, quarantine and discard are idempotent. The HTTP receiver replays the receipt it first gave
  under an idempotency key. These are the contracts of `PromotionWorld.World`, `ResourceCoordinators.ResourceCoordinator`
  and `ExternalActions.Receiver`.
- The effect consumer of a Run refuses some of its keys or none (`PromotionWorld.World.refused`), the same ones as long
  as the Run lives: those that `ExternalActions` shows contradicted, or not postable. Two other assumed contracts are
  proved elsewhere in the project: `PromotionWorld.World.Dispatch` by the two dispatchers of `ExternalActions`, and
  `PromotionWorld.World.RecordAuthority` by `AuthorityDirectory.Directory.Record`.
- `localeCompare` is a total order of the strings it is given. `ResourceRegistries` asks less of it, that it ranks them
  with ties, and `ProposalOrders` keeps it apart from the order by code units that the same list is checked with.
- Strings are sequences of Unicode scalar values; lengths that the source bounds are counted in UTF-16 code units. Path
  patterns and the paths they are compared with are sequences of UTF-16 code units, lone surrogates included.
- A Run's plan names each provider once and lists each visibility in the order in which recovery evidence is expected.
  This is proved of every registry that its constructor admits, with no provider behind the manifest
  (`ResourceRegistries.AdmittedPlan`). The promotion modules take any such plan, with providers behind it or not.
- Timestamps, summaries and redacted text are opaque values that are only copied.

## What turned out false

Each of these is proved, with an input that fails and the exact condition under which the code does meet the property.

- **Recovery evidence that cannot be read.** A completed journal whose first recovery returned before its decision was
  published is inspected at the next restart without an authority. It is readable exactly when its trailing reports begin
  with the registry's first provider and report no other provider twice in a row (`PromotionEvidence.ReadableExactly`).
  In an admitted registry the first always holds, so it is readable exactly when no report was doubled
  (`ResourceRegistries.AdmittedReadable`): a provider passed its check, its report could not be written, and it was
  therefore reported as failed behind it. `PromotionFailures.DoubledJournal` is the input, by moves of the program: a run
  that stops at version-installed, a restart that doubles the report of any provider but the first, and one in calm
  weather that completes and stops before its decision is published. No later restart returns
  (`PromotionFailures.StaysWedged`). With a published decision the evidence is always readable
  (`PromotionEvidence.AuthorityReadable`).
- **The 256-event bound.** Recovery fails closed rather than drop provider evidence. It returns exactly when the events
  that the remaining stages record still fit (`PromotionRecovery.ReconcilePromotion`, condition `CanFinish`). A Run
  begins its Promotion with four reports a provider, six if its Candidate was sealed first
  (`AirlockRun.PrepareAndRun`, `AirlockRun.PromoteSealed`), and recovery from there needs three more. So there is room
  at `begin` exactly for registries of at most 36 providers, or 28 (`PromotionFailures.CollectedRoom`,
  `PromotionFailures.StopAtBegin`), where the journal admits 64. `PromotionFailures.CrowdedJournal` is the input: 37
  providers, whose undisturbed Run finishes and whose recovery from `begin` cannot.
- **Authority context.** `record` publishes before it rereads. After an admitted record the directory is readable exactly
  when the record shares the parent and Candidate Set digests of those before it (`AuthorityDirectory.ReadableExactly`);
  once it is not, it never is again (`AuthorityDirectory.AmbiguousForever`). `AuthorityDirectory.TwoParents` is the input.
- **Transfer pointers.** A federated import whose pointer write throws after its plan was written, and no restart before
  another import uses the same transfer identity, leaves two plans that no later startup can reconcile
  (`FederatedCoordinators.LostPointerWedges`). A restart in between repairs the pointer. Reconciliation succeeds exactly
  when no two plans share a transfer (`FederatedCoordinators.Receiver.ReconcileTransferPointers`).
- **Replay equivalence is not reflexive**: a transaction replays itself exactly when it has no providers or ends in a
  whole reconcile batch (`ReplayEquivalence.ReflexiveExactly`); `ReplayEquivalence.NotReflexive` is one that does not.
  Recovery makes no such transaction: what it returns always replays itself (`PromotionLifecycle.RecoveredReplays`).
- **`undefined` in arrays**: `stableJson` prints an array that holds `undefined` alone as an empty one
  (`StableJson.LoneUndefined`). Any two trees print alike exactly when they are equal as key-to-value maps once such
  arrays are emptied (`StableJson.PrintExactly`), and a tree shares its text with a different one that has no such array
  exactly when it has one itself (`StableJson.UndefinedItemIsLost`). In a longer array `undefined` keeps its place.
- **Line terminators**: a compiled `**` stops at one, the glob does not. On a given path the compiler keeps the meaning of
  every pattern exactly when the path has none (`GlobCompiler.CompilerPreservesMeaning`), and `**` alone tells
  (`GlobCompiler.LineTerminatorEscapes`).
- **Shadowed catalog rules**: an operation that `applyAssuranceOperations` accepts to add a catalog secret has it in the
  result exactly when no base rule of another pattern has its name (`AssuranceLaws.ShadowedCatalog`);
  `AssuranceLaws.ShadowingBase` gives a base and a list that applies where it is missing. This concerns lists put together
  freely. The one call that decides a proposal derives the list again from the same base, and a derived list is never
  shadowed (`AssuranceProposals.DerivedNeverShadowed`).
- **Proposal order**: the operations of a proposal are sorted by `localeCompare` and then checked by code units. The
  check passes exactly when the two orders agree on the operations selected (`ProposalOrders.DeriveProposal`); otherwise
  deriving the proposal ends in a conflict. `ProposalOrders.CapitalsRefused` is the input: three lineages that deleted
  the paths `B` and `a`.

## Model

| member | source | states |
|---|---|---|
| PromotionJournals.PromotionJournal.Begin | apps/server/src/promotion-journal.ts:120-177 | A Run begins once: any repeat is refused and changes nothing. What is written is valid, in the validated phase, under the plan and scope given and without a target; a write that fails leaves every file as it was; the transaction is kept but for its phase and two cleared flags |
| PromotionJournals.PromotionJournal.Advance | apps/server/src/promotion-journal.ts:179-229 | The journal moves exactly one phase forward with the transaction and target given and keeps its plan and scope; naming the phase it is in returns the stored record, whatever else is given, and writes nothing; every other jump is refused, and no target given keeps the one there is; a new phase takes the transaction given, its recovery error cleared, and the target given |
| PromotionJournals.PromotionJournal.UpdateTransaction | apps/server/src/promotion-journal.ts:262-283 | The transaction is replaced under an unchanged phase, plan, scope and target, if the record stays valid; no other file changes; all of the transaction given is written but its phase |
| PromotionJournals.PromotionJournal.RecordRecoveryError | apps/server/src/promotion-journal.ts:231-260 | A failed recovery is noted without moving the phase, the target, the plan or the scope; the transaction given is written as a recovery error, with the journal's own recovered flag |
| PromotionJournals.PromotionJournal.BindExternalActionScope | apps/server/src/promotion-journal.ts:285-320 | A dispatcher scope is bound once and nothing else changes; a later attempt must name the same scope |
| PromotionJournals.EveryWriteFollows | apps/server/src/promotion-journal.ts:120-320 | No operation, whatever its arguments, writes anything but a valid record of the same plan, the same bound scope and the same or the next phase; a first write is a validated one |
| PromotionWorld.EffectsFollowCanonical | apps/server/src/airlock-runner.ts:738-863 | In every reachable state a delivery receipt implies that Canonical is at this Run's target and the journal has recorded it, and receipts are only for the plan's intents |
| PromotionWorld.FinishedAlike | apps/server/src/airlock-runner.ts:2251-2275 | Two Runs of one mission that finished agree on disposition, canonical fields, versions, intents and their receipts, and each records the canonical advance once; only the recovered flag, the event log and the provider events may differ |
| PromotionWorld.FinalNames | apps/server/src/airlock-runner.ts:2226-2275 | What a finished Run says: promoted, completed, at the plan's target, its transition recorded, and under each effect's key the receipt that was given for it |
| PromotionSteps.FinalInstalled | apps/server/src/airlock-runner.ts:763-822 | A finished Run has seen every provider of its plan at the version planned, and no other provider |
| PromotionSteps.CompletedManifest | apps/server/src/promotion-journal.ts:179-229 | The record of a completed Promotion holds the manifest it advanced to: the target state, each provider at its planned version |
| PromotionWorld.World.InstallPromotion | apps/server/src/airlock-runner.ts:763-765 | Assumed contract: installing makes the target version present, again and again |
| PromotionWorld.World.AdvancePromotion | apps/server/src/airlock-runner.ts:778-782 | Assumed contract: Canonical goes from the plan's source to its target, stays at the target, and from elsewhere the call throws |
| PromotionWorld.World.PromoteProvider | apps/server/src/resource-coordinator.ts:853-896 | Assumed contract: promoting makes the provider's version the planned one and touches no other |
| PromotionWorld.World.ReconcileProvider | apps/server/src/resource-coordinator.ts:661-746 | Assumed contract: a provider is reported reconciled only at its planned version |
| PromotionWorld.World.Dispatch | apps/server/src/airlock-runner.ts:824-834 | Assumed contract, proved of the two dispatchers in ExternalActions: receipts only grow by keys asked for, keep what they answered, and on return cover every intent; without faults the call returns exactly when no intent is refused |
| PromotionWorld.World.RecordAuthority | apps/server/src/portable-decision-journal.ts:185-303 | Assumed contract, which AuthorityDirectory.Directory.Record keeps: a decision is recorded if none is, if it equals the one there is, or if it is the recovery of an unrecovered one; without faults nothing else fails |
| RecoveryTrail.ParsedIsTidy | apps/server/src/airlock-runner.ts:2399-2478 | Whatever trail the attempt parser accepts begins with the first provider and reports no other provider twice in a row |
| PromotionEvidence.PassedKeeps | apps/server/src/resource-coordinator.ts:1144-1187 | A passed report, written in the middle of a pass over one visibility, leaves evidence that can be read as far as its reports are tidy |
| PromotionEvidence.FailedKeeps | apps/server/src/resource-coordinator.ts:1144-1187 | So does the failed report of a provider that threw |
| PromotionEvidence.DoubledKeeps | apps/server/src/resource-coordinator.ts:1144-1187 | So does the failed report behind a passed one that could not be written |
| PromotionEvidence.VerifiedKeeps | apps/server/src/airlock-runner.ts:2080-2115 | And so does a whole verification behind any of them |
| PromotionEvidence.FittingPublishes | apps/server/src/portable-decision-journal.ts:1142-1184 | Whatever was published before, the decision of a completed journal may be published next, and still fits the journal |
| PromotionEvidence.AuthorityReadable | apps/server/src/airlock-runner.ts:2309-2397 | Beside a published decision the evidence of a completed journal is always readable, and is complete once recovered |
| PromotionEvidence.ReadableExactly | apps/server/src/airlock-runner.ts:2354-2397 | Without one, recovered evidence is readable exactly when its trailing reports are tidy |
| PromotionEvidence.PublishedSettled | apps/server/src/portable-decision-journal.ts:185-303 | An authority as recovery reads it is a completed Promotion with all its providers |
| PromotionEvidence.UniformReadable | apps/server/src/airlock-runner.ts:2354-2397 | In a registry of one visibility it is readable exactly when no report was doubled |
| PromotionSteps.PromoteVisible | apps/server/src/resource-coordinator.ts:853-896 | A pass over the providers of one visibility, crash at any provider included, leaves the journal's phase and the other providers' versions; on return all of them are at their planned versions, and what was recorded is one passed report of each, in order |
| PromotionSteps.ReconcileVisible | apps/server/src/resource-coordinator.ts:661-746 | Recovery's check of one visibility succeeds only if every provider is at its planned version, and records then one passed report of each, in order |
| PromotionSteps.Report | apps/server/src/resource-coordinator.ts:1144-1187 | A call that passed is reported once; if that report throws and the next does not, the evidence holds a passed and a failed report of one call, both journaled; any call leaves evidence that can be read as far as its reports are tidy |
| PromotionSteps.ProvidesKept | apps/server/src/resource-coordinator.ts:853-896 | Promoting one planned provider never undoes another |
| PromotionSteps.LiveAdvance | apps/server/src/airlock-runner.ts:2227-2249 | Recording the canonical advance twice is recording it once |
| PromotionSteps.AdvanceTo | apps/server/src/promotion-journal.ts:179-229 | Advancing the journal from a state that has reached the next phase keeps the invariant between journal and world, whether or not the write happened |
| PromotionRun.InstallStep | apps/server/src/airlock-runner.ts:749-776 | From validated, whatever fails, the phase is validated or version-installed and the invariant holds; on return the new version and every manifest provider are in place |
| PromotionRun.CanonicalStep | apps/server/src/airlock-runner.ts:778-800 | From version-installed, whatever fails, the phase is that or canonical-advanced; on return Canonical is at the target with one advance event |
| PromotionRun.EffectsStep | apps/server/src/airlock-runner.ts:803-850 | From canonical-advanced, whatever fails, the phase is that or effects-delivered; on return later providers are at their versions and every intent has its receipt |
| PromotionRun.CompleteStep | apps/server/src/airlock-runner.ts:851-863 | From effects-delivered, the journal completes with the final transaction or stays |
| PromotionRun.Promote | apps/server/src/airlock-runner.ts:738-863 | From begin to completed with a stop anywhere: the invariant holds, what returns is final and not marked recovered, and a Run whose journal never began touched nothing; what it returns names the promotion, the target as its after-state, and every effect delivered |
| AirlockRun.ReadJournalAfterFailure | apps/server/src/airlock-runner.ts:1598-1669 | A Run is told that it has no journal only if no phase and no sign of a canonical advance is recorded; a missing or unreadable journal otherwise becomes a recovery error, and is called promoted only if Canonical is at its target; with no faults it is told so exactly when there is no journal, no phase and no such sign |
| AirlockRun.AfterFailure | apps/server/src/airlock-runner.ts:864-1030 | A Run that has a journal is kept for recovery; only one that never began is ended, as quarantined, discarded or cancelled, with its before-state as its after-state; quarantined is the end of every failure but a cancellation and a preparation that cleaned up; the end is told with a receipt and an event, and nothing else of the transaction is changed |
| AirlockRun.Run | apps/server/src/airlock-runner.ts:414-1044 | Every path of a Run: ending quarantined, discarded or cancelled left Canonical, providers and receipts as they were, and discarded means that preparation failed and cleaned up; success means final at the target; a receipt implies that Canonical has moved; with no faults, room for the evidence and no refused effect a passing Run succeeds; a Run that ends after a runtime failure, a violated boundary, a failed validation or a preparation that could not clean up is quarantined, and only a cancelled one is cancelled; with no faults each of these ends so, and a deferred one is sealed |
| AirlockRun.PrepareAndRun | apps/server/src/airlock-runner.ts:414-1044 | A Run from its first provider call on: it is journaled only with exactly one passed report a provider of each of prepare, describe, validate and plan behind it; it ends discarded only when no provider holds anything of it, and succeeds or is sealed only with all of them prepared; without faults a passing Run of at most 51 providers succeeds; the same ends for the verdict it reached |
| AirlockRun.Collect | apps/server/src/airlock-runner.ts:475-730 | The provider calls before a Promotion, stopped anywhere: a Run gets to its Promotion only with every provider prepared and all four reports of each collected in order |
| AirlockRun.PromoteSealed | apps/server/src/airlock-runner.ts:1046-1352 | A sealed Candidate is promoted only with its checks reported once more, six reports a provider in all; a failure before begin leaves nothing, and what succeeds is final at the target |
| PromotionRecovery.VerifyJournalCanonical | apps/server/src/airlock-runner.ts:2130-2160 | From canonical-advanced on, verification finds Canonical at the target and leaves it there |
| PromotionRecovery.VerifyDeliveredEffects | apps/server/src/airlock-runner.ts:2175-2200 | Dispatching a finished Run's intents again creates no receipt |
| PromotionRecovery.RecoverInstalled | apps/server/src/airlock-runner.ts:1957-1986 | Recovery's canonical stage, stopped anywhere, keeps the invariant and never moves the phase back |
| PromotionRecovery.RecoverAdvanced | apps/server/src/airlock-runner.ts:1987-2059 | Recovery's effects stage, stopped anywhere, keeps the invariant; on return every intent has its one receipt |
| PromotionRecovery.RecoverDelivered | apps/server/src/airlock-runner.ts:2060-2079 | Recovery's last stage ends completed and final, or leaves effects-delivered |
| PromotionRecovery.RecoverCompleted | apps/server/src/airlock-runner.ts:2080-2128 | A completed journal is verified again and its evidence becomes what RecoveryNormaliser.Recover makes of the journal, the published decision and that verification; it stays completed and final, and without faults the call returns exactly when the evidence is readable and has room |
| PromotionRecovery.ReconcilePromotion | apps/server/src/airlock-runner.ts:1892-2128 | From any phase, with a stop at any step, the phase never goes back; a return means completed and final, marked recovered, with exactly the reports of the stages that were left and one whole verification added, which the evidence ends with; it returns only if, and without faults exactly if, the dispatcher scope is the journal's, no effect is refused, and the evidence is readable with room for what the phase still needs; what it returns names the promotion, the target as its after-state, and every effect delivered |
| PromotionRecovery.ReconcileAtStartup | apps/server/src/airlock-runner.ts:1826-1890 | A reconcile that throws has its error recorded without losing the phase or the invariant, and what returns is what a reconcile returns; a journal that cannot be read stays so |
| PromotionLifecycle.Survive | apps/server/src/airlock-runner.ts:1826-2128 | After a first run and any number of restarts, all stopped anywhere, with decisions published or not, the invariant holds and effects exist only where Canonical has moved; a terminal end means no journal and an untouched world |
| PromotionLifecycle.Restarts | apps/server/src/airlock-runner.ts:1826-2128 | Any number of restarts, with any dispatchers, faults and publications, keep the invariant and never move the phase back |
| PromotionLifecycle.Converge | apps/server/src/airlock-runner.ts:1892-2128 | From any journal, whatever run and recoveries left it and after any number of further restarts stopped anywhere, the phase has not gone back, and one restart without faults returns exactly when the state it finds can finish: then Canonical is at the target, every provider at its version, one receipt an intent, one advance event, the journal completed with the final transaction; the record then names the promotion and the target |
| PromotionLifecycle.RunUndisturbed | apps/server/src/airlock-runner.ts:738-863 | The fault-free run ends in the same final transaction that recovery reaches, whenever the bound leaves room and no effect is refused |
| PromotionLifecycle.RecoveredReplays | apps/server/src/agent-service.ts:5948-6025 | What a reconcile returns, whatever went before it, is a replay of itself |
| PromotionFailures.ReadableWhen | apps/server/src/airlock-runner.ts:2309-2397 | When a journal's evidence can be read, for every journal the invariant allows: always beside a published decision or before completion, otherwise exactly when its trail is tidy |
| PromotionFailures.BegunRoom | apps/server/src/airlock-runner.ts:1892-2128 | What begin writes leaves room exactly when three passes over the providers fit beside the evidence collected before it; begin itself takes at most 64 providers |
| PromotionFailures.CollectedRoom | apps/server/src/airlock-runner.ts:1892-2128 | Beside the reports that a Run has collected when it begins, recovery from there can finish exactly if no effect is refused and the registry has at most 36 providers, or 28 if the Candidate was sealed first |
| PromotionFailures.StopAtBegin | apps/server/src/airlock-runner.ts:475-745 | By moves: whatever registry of at most 64 providers is prepared, described, validated, planned and begun, and the process then dies, recovery can finish exactly if it has at most 36 |
| PromotionFailures.CrowdedJournal | apps/server/src/airlock-runner.ts:1892-2128 | A Run of 37 providers that may run undisturbed to its end and that no recovery from begin can finish |
| PromotionFailures.DoubledEvidence | apps/server/src/airlock-runner.ts:2399-2478 | The reports of a restart that doubled one, and of the whole restart behind it, are untidy after any promotions |
| PromotionFailures.RestartInterrupted | apps/server/src/airlock-runner.ts:1905-1986 | The moves of a restart whose check of a provider passes, whose report of it cannot be written and whose failed report can: the journal ends with both |
| PromotionFailures.DoubledJournal | apps/server/src/airlock-runner.ts:1826-2128 | For every registry with providers before the manifest only, and any of them but the first, as far as the events fit: a run that stops at version-installed and two restarts leave a completed journal that cannot be read |
| PromotionFailures.StaysWedged | apps/server/src/airlock-runner.ts:1826-2128 | No later restart of such a journal returns, in any weather and under any dispatcher, and none of them changes what can be read |
| ResourceCoordinators.ResourceCoordinator.PrepareAll | apps/server/src/resource-coordinator.ts:386-479 | Either every provider is prepared and reported once, in order, or the call throws; when it reports a completed cleanup no provider holds anything of this Run, not even one whose prepare acted before it failed |
| ResourceCoordinators.ResourceCoordinator.DescribeAndValidate | apps/server/src/resource-coordinator.ts:481-563 | On return each provider is reported described and validated, in turn and in order, and holds what it held |
| ResourceCoordinators.ResourceCoordinator.PlanAll | apps/server/src/resource-coordinator.ts:611-647 | On return each provider is reported planned, in order, and holds what it held; without faults it returns if the bound leaves room |
| ResourceRegistries.BuildRegistry | apps/server/src/resource-registry.ts:34-101 | The constructor admits exactly the registrations that are well formed, supported, required and eligible, with provider identifiers, kinds and environment names all distinct, and holds the same manifests in key order; the key is the kind, a NUL and the identifier |
| ResourceRegistries.FindDuplicates | apps/server/src/resource-registry.ts:75-99 | The loop with its three maps finds exactly whether two entries share an identifier, a kind or an environment name |
| ResourceRegistries.AdmittedExactly | apps/server/src/resource-registry.ts:34-135 | Spelled out in code points: which identifiers, claims and required flags are admitted, and that two registrations must differ in kind and in more than the separators of their identifiers |
| ResourceRegistries.EnvironmentsCollide | apps/server/src/resource-registry.ts:126-135 | Two identifiers collide in the Runtime's environment exactly when they differ in their separators alone |
| ResourceRegistries.AdmittedPlan | apps/server/src/resource-registry.ts:34-101 | A plan over an admitted registry has no provider behind the manifest, names each once, and lists them as the inspection of recovery evidence sorts them, ties of the collation included |
| ResourceRegistries.AdmittedReadable | apps/server/src/airlock-runner.ts:2309-2397 | Recovered evidence of an admitted registry is readable, without a published decision, exactly when no report was doubled |
| ResourceCoordinators.ResourceCoordinator.EndAll | apps/server/src/resource-coordinator.ts:748-851 | Quarantine and discard ask every provider of the scope whatever the others did; the results are those whose call passed, in order, among them any whose result could not be recorded, and each of these holds what it should; the error thrown is the first failure of either kind |
| RecoveryEvents.ParseAttempts | apps/server/src/airlock-runner.ts:2399-2478 | The attempt parser's loop, with its restart on the first provider, computes the parse of the specification |
| RecoveryEvents.HistoryParses | apps/server/src/airlock-runner.ts:2399-2478 | However whole, failed and abandoned attempts follow one another, the parser keeps exactly the whole ones, in order |
| RecoveryEvents.ParsedIsHistory | apps/server/src/airlock-runner.ts:2399-2478 | Whatever the parser accepts can be cut into such attempts |
| RecoveryEvents.ParserMeaning | apps/server/src/airlock-runner.ts:2399-2478 | The parser accepts exactly the event lists that have a history of attempts, and its answer is that history's |
| RecoveryEvents.KeptParses | apps/server/src/airlock-runner.ts:2354-2397 | Keeping is idempotent: what was kept parses to itself and counts as complete unless it is empty |
| RecoveryNormaliser.InspectCompletedPromotionRecovery | apps/server/src/airlock-runner.ts:2309-2397 | The inspection's branches over authority, recovered flag and trailing evidence compute the specification |
| RecoveryNormaliser.AssertPromotionRecoveryProviderEvents | apps/server/src/portable-decision-journal.ts:1186-1226 | The set-filling check accepts exactly one passed reconcile event for each provider, in any order |
| RecoveryNormaliser.RecoveryIsAccepted | apps/server/src/airlock-runner.ts:2080-2115 | Whatever complete, partial or failed attempts piled up after an unrecovered authority, recovery yields a transaction that the transition checker accepts with exactly one whole attempt, and it fails exactly when a first recovery would pass the event bound |
| RecoveryNormaliser.RecoveryIsStable | apps/server/src/airlock-runner.ts:2080-2115 | Further restarts, against the old authority or the recovered one, change nothing |
| RecoveryNormaliser.NormalizingIsStable | apps/server/src/airlock-runner.ts:2309-2397 | Normalising is idempotent and never turns complete evidence into incomplete |
| RecoveryNormaliser.MixedRegistry | apps/server/src/airlock-runner.ts:2354-2361 | A fact about the parser: without a terminal authority the trail of a first recovery is readable exactly when the plan has one visibility; an admitted registry has |
| RecoveryNormaliser.MixedRegistryWedges | apps/server/src/airlock-runner.ts:2354-2361 | A fact about the parser: a plan of both visibilities, which no admitted registry has, would be refused at the restart behind a first recovery whose authority was not recorded |
| ReplayEquivalence.IsExactPromotionReconciliationSequence | apps/server/src/agent-service.ts:6027-6072 | The nested loops accept exactly whole batches of one passed reconcile event a provider, and anything where there are no providers |
| ReplayEquivalence.IsEquivalentRecoveredPromotionReplay | apps/server/src/agent-service.ts:5948-6025 | The backward search succeeds exactly when some common prefix leaves two remainders, not both empty, that are whole batches |
| ReplayEquivalence.Symmetric | apps/server/src/agent-service.ts:5948-6025 | The relation is symmetric |
| ReplayEquivalence.Transitive | apps/server/src/agent-service.ts:5948-6025 | Between distinct transactions the relation is transitive, though each step may use another prefix |
| ReplayEquivalence.ReflexiveExactly | apps/server/src/agent-service.ts:5948-6025 | A transaction replays itself exactly when it has no providers or ends in a whole batch |
| ReplayEquivalence.NotReflexive | apps/server/src/agent-service.ts:5948-6025 | The least input, which recovery does not make: a recovered transaction with one provider and no events is no replay of itself |
| ReplayEquivalence.RecoveriesReplay | apps/server/src/agent-service.ts:5948-6025 | Two recoveries of one unrecovered authority, however they went, are replays of each other |
| ReplayMeaning.BatchesMeaning | apps/server/src/agent-service.ts:6027-6072 | Whole batches are verifications one after another, each with one passed report of every provider |
| ReplayMeaning.ReplaysMeaning | apps/server/src/agent-service.ts:5948-6025 | Two transactions replay each other exactly when they are completed recoveries that differ in nothing but their events, and these branch from a common beginning into verifications, not both into none |
| AuthorityDirectory.LegalEnds | apps/server/src/portable-decision-journal.ts:1124-1184 | A legal move is a real one and nothing may follow it |
| AuthorityDirectory.RecoveredIsLegal | apps/server/src/portable-decision-journal.ts:1142-1184 | What recovery makes of a published Promotion is a legal successor of it |
| AuthorityMoves.DiscardKindsMeaning | apps/server/src/portable-decision-journal.ts:1509-1524 | The provider kinds are read off exactly when the evidence names no identifier with two kinds, and then they are those it names |
| AuthorityMoves.DiscardEvidenceMeaning | apps/server/src/portable-decision-journal.ts:1437-1480 | The check of discard events passes exactly on none, or on one exact passed discard event from each provider that the evidence names |
| AuthorityMoves.DiscardIsLegal | apps/server/src/portable-decision-journal.ts:1360-1435 | Discarding is a legal move exactly over what is kept in quarantine with such events, and what it makes is terminal |
| AuthorityMoves.OnlyDiscards | apps/server/src/portable-decision-journal.ts:1360-1435 | Every legal move from a Quarantine is such a discard: one run event more, the place forgotten, nothing else changed but what is presented |
| AuthorityMoves.BadAnswersRefused | apps/server/src/portable-decision-journal.ts:1451-1480 | A failed, missing, doubled or foreign discard event makes the move illegal |
| AuthorityMoves.CoversMeaning | apps/server/src/portable-decision-journal.ts:1186-1226 | The check of recovery events passes exactly on one exact passed reconcile event from each provider listed |
| AuthorityMoves.RecoveryIsLegal | apps/server/src/portable-decision-journal.ts:1142-1184 | Marking a Promotion recovered is a legal move exactly if it was completed and not recovered, with such events added |
| AuthorityMoves.LegalMeaning | apps/server/src/portable-decision-journal.ts:1124-1184 | The legal moves are these two and no other |
| AuthorityMoves.FirstRecord | apps/server/src/portable-decision-journal.ts:185-240 | What may be recorded first: every settled decision that is promoted, quarantined, discarded or cancelled |
| AuthorityDirectory.SelectContextRichAuthority | apps/server/src/portable-decision-journal.ts:1107-1122 | Among the records of one decision, one that names a Candidate Set is chosen if there is any |
| AuthorityDirectory.ContextCheck | apps/server/src/portable-decision-journal.ts:1228-1249 | The check passes exactly when all records share one parent, and one Candidate Set where they name any |
| AuthorityDirectory.Follower | apps/server/src/portable-decision-journal.ts:434-472 | Of two decisions the later is the one the other may legally become, whichever order they are listed in |
| AuthorityDirectory.Directory.GroupByTransaction | apps/server/src/portable-decision-journal.ts:420-430 | The grouping loop yields each decision once with exactly its records |
| AuthorityDirectory.Directory.ReadUnambiguousTerminalAuthority | apps/server/src/portable-decision-journal.ts:382-473 | The reader returns the latest decision's context-richest record, None for an empty directory, and throws on too many records, two contexts, or decisions that no legal move connects |
| AuthorityDirectory.ReadsUnique | apps/server/src/portable-decision-journal.ts:382-473 | The answer depends on the set of records alone |
| AuthorityDirectory.Directory.PublishRecord | apps/server/src/portable-decision-journal.ts:783-827 | Linking a record under its digest adds it or does nothing, crash included, and never duplicates a name |
| AuthorityDirectory.Directory.Record | apps/server/src/portable-decision-journal.ts:185-303 | Nothing is added unless the directory read well and the new decision equals or may follow the latest; on return the record is there and decides; with no faults it returns exactly when the record is admitted and the directory then has room and one context, and an admitted record is always there afterwards |
| AuthorityDirectory.AdmittedDecides | apps/server/src/portable-decision-journal.ts:185-303 | An admitted record leaves one latest decision: the old one or its legal successor |
| AuthorityDirectory.StableBound | apps/server/src/portable-decision-journal.ts:382-473 | In a stable context a directory holds at most two decisions and four records, so the 32-record bound is never met |
| AuthorityDirectory.StableReads | apps/server/src/portable-decision-journal.ts:382-473 | In a stable context the directory is always readable |
| AuthorityDirectory.RunStaysStable | apps/server/src/portable-decision-journal.ts:185-303 | Over every run of record calls and crashes with a stable context, every reachable directory stays stable |
| AuthorityDirectory.SelectedMovesOnce | apps/server/src/portable-decision-journal.ts:1124-1184 | Over a whole run the selected decision moves at most once, and only legally |
| AuthorityDirectory.CoreAgrees | apps/server/src/portable-decision-journal.ts:1541-1559 | All authorities of a Run agree on the immutable core |
| AuthorityDirectory.ReadableExactly | apps/server/src/portable-decision-journal.ts:1228-1249 | After an admitted record the directory is readable exactly when the record's context agrees with the ones before it |
| AuthorityDirectory.AmbiguousForever | apps/server/src/portable-decision-journal.ts:1228-1249 | Once two contexts are published no later directory can be read |
| AuthorityDirectory.TwoParents | apps/server/src/portable-decision-journal.ts:1228-1249 | An input whose context changes: one decision under two parents is admitted twice and cannot be read afterwards |
| Selection.CompareEntries | apps/server/src/candidate-selection.ts:254-265 | The comparison loop decides by the first criterion that differs, then by identifier |
| Selection.CompareIsTotalOrder | apps/server/src/candidate-selection.ts:254-265 | On eligible entries, which all have full component vectors, the comparison is a strict total order |
| Selection.EligibleIsFull | apps/server/src/candidate-selection.ts:103-147 | An eligible entry has a component for every criterion |
| Selection.SelectCandidates | apps/server/src/candidate-selection.ts:90-171 | The loops that collect identifiers, push exclusions, filter, and rank what the comparison sorted compute the specified decision, or throw; sorting itself is the library's |
| Selection.OrderIndependent | apps/server/src/candidate-selection.ts:90-171 | Permuting the competitors gives the identical decision, hence the identical digest |
| Selection.WinnerIsLeast | apps/server/src/candidate-selection.ts:149-166 | The winner is the least eligible entry, and there is none exactly when nothing is eligible |
| Selection.RankCounts | apps/server/src/candidate-selection.ts:149-166 | An eligible entry's rank is one more than the number of eligible entries below it |
| Selection.ImprovingNeverWorsens | apps/server/src/candidate-selection.ts:149-166 | Replacing an entry by one that is nowhere worse never worsens its rank |
| Selection.BetterRanksNoWorse | apps/server/src/candidate-selection.ts:90-171 | Measured no worse on raw values (a quality at least as high, no more files, bytes, tokens or milliseconds) a competitor keeps its rank or gains |
| SelectionMeaning.BetterRanksFirst | apps/server/src/candidate-selection.ts:90-171 | Of two competitors alike on the criteria before one, the one with the higher quality there, or with fewer files, bytes, tokens or milliseconds, ranks first |
| SelectionMeaning.LessMeaning | apps/server/src/candidate-selection.ts:254-265 | The comparison puts one before the other exactly when it is ahead on raw measures at the first criterion that tells them apart, or has the lesser identifier |
| SelectionMeaning.DecisionMeaning | apps/server/src/candidate-selection.ts:149-166 | On raw measures: the winner is who may win and is ahead of everybody else who may |
| SelectionMeaning.SelectsExactly | apps/server/src/candidate-selection.ts:90-101 | A decision is made exactly for one to eight competitors with identifiers all different, under one to five different criteria, when nobody has more than 64 exclusions or a measure out of its bounds |
| SelectionMeaning.ScorecardMeaning | apps/server/src/candidate-selection.ts:103-166 | The scorecard has one entry a competitor, by identifier: whether it may win, its place in the order, and exactly its exclusions |
| CandidateBudget.ReservationsFair | apps/server/src/agent-service.ts:5839-5858 | Reserved allowances sum to the budget and differ by at most one, and each is at least one exactly when the budget has a token for every competitor |
| CandidateBudget.EveryInterleaving | apps/server/src/agent-service.ts:4618-4649 | Under every interleaving of the workers no competitor is claimed twice, at most maxConcurrency are in flight, and the recorded tokens never exceed the budget |
| CandidateBudget.StoppedIsComplete | apps/server/src/agent-service.ts:4618-4649 | When every worker has stopped, each competitor was claimed exactly once, in order, and has finished |
| CandidateBudget.UseIsRecorded | apps/server/src/agent-service.ts:4786-4975 | A competitor that finishes within its reservation may record exactly what it used, and nothing recorded is lost |
| CandidateSets.TokensNeverExclude | apps/server/src/candidate-selection.ts:177-190 | Evidence within the reservations sums to at most the token budget, so the aggregate token exclusion is never added |
| CandidateSets.PoolNeverExcludes | apps/server/src/candidate-selection.ts:177-190 | The tokens that any interleaving of the workers recorded never exclude anyone |
| CandidateDecisions.ReplayMeaning | apps/server/src/agent-service.ts:4501-4560 | The decision of a set in terms of its evidence, its budget and its cancellation |
| CandidateDecisions.NobodyWins | apps/server/src/candidate-selection.ts:177-196 | A cancelled set, and one over either budget, has a decision without a winner |
| CandidateDecisions.SomebodyWins | apps/server/src/candidate-selection.ts:90-196 | A set that is neither has a winner exactly when some competitor may win, and the winner is ahead of all who may |
| CandidateDecisions.ReasonsNamed | apps/server/src/candidate-selection.ts:173-197 | Each of the three reasons a set may give, by name, is given exactly when it holds |
| CandidateDecisions.DecidesExactly | apps/server/src/candidate-selection.ts:90-197 | A set has a decision exactly if selection accepts its competitors with one exclusion more each for the cancellation and for each budget exceeded |
| CandidateDecisions.SumAdds | apps/server/src/candidate-selection.ts:177-185 | What two groups of competitors sum to is the sum of theirs |
| CandidateSets.CandidateSet.EvaluateAll | apps/server/src/agent-service.ts:4786-4975 | Evaluation, stopped anywhere, seals or ends competitors, records no more tokens than were reserved, and leaves Canonical; on return nobody is left waiting |
| CandidateSets.CandidateSet.Normalize | apps/server/src/agent-service.ts:4462-4499 | After a restart a competitor that is sealed, or was already excluded, keeps its evidence; every other is excluded as interrupted, with nothing else changed; the evidence is then frozen |
| CandidateSets.InterruptedNeverWins | apps/server/src/agent-service.ts:4462-4499 | Whoever wins on evidence frozen by a restart has a sealed Run: an interrupted competitor never wins |
| CandidateSets.CandidateSet.Authorize | apps/server/src/agent-service.ts:4501-4560 | A published decision is reused; a new one is computed and published only if there is none; a new decision has no winner if the set was cancelled or is over a budget, otherwise one exactly when somebody may win, and the winner is ahead of all who may |
| CandidateSets.CandidateSet.PersistDecision | apps/server/src/agent-service.ts:4501-4584 | The mutable record follows the published decision, never the other way round; the same of the winner it records |
| CandidateSets.CandidateSet.PromoteWinner | apps/server/src/agent-service.ts:4977-5066 | Only the published winner is ever handed to Promotion, and only while selection replays |
| CandidateSets.CandidateSet.CleanupLosers | apps/server/src/agent-service.ts:5068-5227 | On return every competitor but the winner is terminal; the winner is untouched |
| CandidateSets.CandidateSet.CloseFailed | apps/server/src/agent-service.ts:5352-5378 | The failure paths end stale only for a stale source with every competitor terminal, and in recovery-error otherwise; without faults stale exactly so |
| CandidateSets.CandidateSet.Execute | apps/server/src/agent-service.ts:4618-4784 | The first run keeps the set's invariant wherever it stops; undisturbed it ends completed, stale or recovery-error; without faults, and with a token for everybody, it completes exactly when the source is still the admitted one and the decision over what was evaluated can be carried out; it is stale only if Canonical was moved, and without faults always then |
| CandidateSets.CandidateSet.ResumePromoting | apps/server/src/agent-service.ts:4354-4395 | An interrupted Promotion is found done, is carried on, or is refused; no runner-up is ever tried |
| CandidateSets.CandidateSet.Restart | apps/server/src/agent-service.ts:4299-4460 | A restart keeps the invariant wherever it stops and never replaces a published decision; undisturbed it completes the set, every competitor terminal, exactly when the state it finds allows it, and otherwise ends stale or in recovery-error; it becomes stale only if Canonical was moved, and without faults always if that was before a decision and no promotion journal is kept |
| CandidateSets.Live | apps/server/src/agent-service.ts:4299-4784 | Over a first run and any number of restarts, stopped anywhere, at most one competitor is handed to Promotion, it is the winner of the one published decision, and that publication never changes |
| Federated.OneCandidateRun | apps/server/src/federated-admission-journal.ts:537-656 | An import has at most one Candidate Run identity, by admission or by approval, never both |
| Federated.CompletedNamesCandidate | apps/server/src/federated-admission-journal.ts:379-423 | A completed admitted plan names a prepared Candidate; a completed plan that is not admitted has none of its own |
| Federated.DenialPreparesNothing | apps/server/src/federated-approval-journal.ts:414-493 | A denied import has no Candidate State at all |
| Federated.EntriesKept | apps/server/src/federated-admission-journal.ts:116-193 | What holds of every plan, record, pointer, decision and Candidate goes on holding as the state grows |
| Federated.LossKeeps | apps/server/src/federated-approval-journal.ts:283-322 | Losing an approval plan loses no decision and no Candidate |
| FederatedCoordinators.Receiver.Begin | apps/server/src/federated-admission-journal.ts:116-193 | An import begins once; beginning it again returns its plan, or throws and changes nothing if anything differs; the plan is written before the pointer, and either write may be lost |
| FederatedCoordinators.Receiver.Advance | apps/server/src/federated-admission-journal.ts:379-423 | A plan never goes back and its Candidate is never exchanged; it moves only to its record, its Candidate and its end in this order, or straight to the end where the record does not admit |
| FederatedCoordinators.Receiver.PublishRecord | apps/server/src/federated-admission-journal.ts:229-259 | The immutable record is published once; a later attempt returns the one there is |
| FederatedCoordinators.Receiver.EnsureCandidate | apps/server/src/federated-admission-journal.ts:615-648 | A Candidate is prepared only where there is none, so a retry finds the first one |
| FederatedCoordinators.Receiver.Admit | apps/server/src/federated-admission-journal.ts:537-656 | Stopped anywhere it keeps the invariant; what it returns is the import's one record, equal to the first, with a completed plan; without faults it returns exactly when the transfer is new or this import's, and nothing else was asked under it; a new transfer is admitted under the decision it was asked under; there is a Candidate exactly if that admits |
| FederatedCoordinators.Receiver.ReconcileTransferPointers | apps/server/src/federated-admission-journal.ts:484-508 | On return every plan has its pointer; undisturbed it succeeds exactly when no two plans were begun under one transfer identity |
| FederatedCoordinators.Receiver.BeginApproval | apps/server/src/federated-approval-journal.ts:109-183 | The first decision over a pending record is published; a different one throws and changes nothing, as does one over a record that does not await approval; a first decision is published as it was asked |
| FederatedCoordinators.Receiver.Decide | apps/server/src/federated-approval-journal.ts:414-493 | A return means that this decision stands and its plan is done; a different earlier decision makes it throw without any change; a denial prepares no Candidate; without faults it returns exactly when the admission awaits a decision, has none but this one, and an approval still finds its staged bundle; what stands is the choice, operator, reason and context asked for; an approval has its Candidate and a denial none |
| FederatedCoordinators.Receiver.ReconcileApprovals | apps/server/src/federated-approval-journal.ts:283-322 | A decision without a plan gets its initial plan again, and every other plan is left alone |
| FederatedCoordinators.LostPointerWedges | apps/server/src/federated-admission-journal.ts:116-193 | A begin whose pointer write throws and a second begin under the same transfer identity are possible calls, and from then on no state has clear transfers, so every reconciliation fails |
| FederatedRuns.Life | apps/server/src/federated-admission-journal.ts:484-656 | Over every interleaving of requests, policies, crashes, restarts and lost plans nothing immutable is replaced and an import keeps one Candidate Run at most |
| FederatedRuns.RetryAdmission | apps/server/src/federated-admission-journal.ts:537-656 | However much happens in between, and whatever policy is active by then, a retried import returns its first record or throws |
| FederatedRuns.RejectedForGood | apps/server/src/federated-admission-journal.ts:537-656 | An import first asked under a rejecting policy never has a Candidate, whatever happens later |
| FederatedRuns.DecideAgain | apps/server/src/federated-approval-journal.ts:414-493 | However much happens in between, a different second decision throws, and a denied import never gets a Candidate |
| FederatedRuns.LosePlanAndDecide | apps/server/src/federated-approval-journal.ts:414-493 | A finished plan that is lost and decided again, whatever happens in between, is the lost one: the same approval, done, with the same Candidate |
| ExternalActions.OwnReceiptFound | apps/server/src/external-actions.ts:302-312 | In a store that is unique by key and by Run and intent, the search finds exactly the intent's own receipt |
| ExternalActions.ServeOne | apps/server/src/external-actions.ts:280-312 | One intent yields the delivery that claims it or a new one, and is refused exactly when a delivery claims it without answering it |
| ExternalActions.LocalStore.Dispatch | apps/server/src/external-actions.ts:453-494 | A batch is recorded whole or not at all; receipts only grow, stay unique, match their intents and come back in intent order; without faults it returns exactly when neither the store nor the batch itself contradicts an intent, and otherwise nothing is written; each receipt is for that very action: key, Run, identifier, kind, destination, subject, payload and mode |
| ExternalActions.ServableMeaning | apps/server/src/external-actions.ts:280-312 | A batch is served exactly when every delivery with the key of an intent, or with its Run and identifier, is for that very action, and two intents that share a key or an identifier are one |
| ExternalActions.DispatchAgain | apps/server/src/external-actions.ts:453-494 | However many other batches, failures and crashes come between, dispatching again returns the first receipts in intent order |
| ExternalActions.ServedOnce | apps/server/src/external-actions.ts:302-312 | Served from a store and from any store it grew into, an intent has one receipt |
| ExternalActions.GrownKeys | apps/server/src/external-actions.ts:453-494 | A store gains only keys that were asked for, and each key keeps its receipt |
| ExternalActions.HttpDispatcher.Dispatch | apps/server/src/external-actions.ts:610-648 | Against a receiver that replays by key: partial batches keep the invariant, and what returns answers the intents in order; without faults it returns exactly when no intent is contradicted and each is recorded already or may be posted and is answered by what the receiver gave; the receiver is asked only for keys of intents to the allowed destination |
| ExternalActions.HttpDispatcher.ServedExactlyOnce | apps/server/src/external-actions.ts:610-648 | A batch that returned was carried out exactly once: each key occurs once among the receiver's effects, with the receipt returned |
| KeccakInverse.SpreadTwice | packages/portable-promotion-receipt/src/evm.ts:99-105 | Theta's action on column parities, squared, doubles its shifts: the step that makes theta invertible over 64-bit lanes |
| KeccakInverse.RhoInvertible | packages/portable-promotion-receipt/src/evm.ts:107-117 | Rotating back undoes rho, whatever the offsets |
| KeccakInverse.KeccakFInjective | packages/portable-promotion-receipt/src/evm.ts:88-130 | Theta, rho, pi, chi and iota of FIPS 202 are inverted through all 24 rounds, so distinct states have distinct images |
| KeccakFips.OffsetsFollowWalk | packages/portable-promotion-receipt/src/evm.ts:54-60 | The rotation offsets are those of the walk in section 3.2.2 of FIPS 202: step t meets (t + 1)(t + 2)/2, the 24 positions are distinct, and the walk closes |
| KeccakTables.RoundConstantsAreRegister | packages/portable-promotion-receipt/src/evm.ts:61-86 | The 24 constants are those that the shift register of section 3.2.5 generates |
| KeccakTables.RotationIsOffset | packages/portable-promotion-receipt/src/evm.ts:54-60 | The rotation table holds the standard's offsets |
| BigIntBits.MaskBits | packages/portable-promotion-receipt/src/evm.ts:53-53 | Masking with 2^n - 1 keeps exactly the low n bits of any integer, negative ones included |
| Keccak.RotateLeftBit | packages/portable-promotion-receipt/src/evm.ts:132-136 | On a 64-bit lane the shifts, the or and the mask make a rotation and stay below 2^64 |
| Keccak.ThetaStep | packages/portable-promotion-receipt/src/evm.ts:90-105 | The in-place loops are theta of section 3.2.1 |
| Keccak.MoveStep | packages/portable-promotion-receipt/src/evm.ts:107-117 | The move loop fills every lane once and is pi after rho, sections 3.2.2 and 3.2.3 |
| Keccak.ChiLaneBit | packages/portable-promotion-receipt/src/evm.ts:121-125 | The negative number that the complement makes is cut back: the lane is chi's, below 2^64 |
| Keccak.ChiStep | packages/portable-promotion-receipt/src/evm.ts:119-127 | The in-place loops are chi of section 3.2.4 |
| Keccak.KeccakF1600 | packages/portable-promotion-receipt/src/evm.ts:88-130 | The whole in-place permutation is Keccak-f[1600] of the standard, every lane below 2^64 throughout |
| Keccak.PermutationInjective | packages/portable-promotion-receipt/src/evm.ts:88-130 | The code's permutation never sends two states of 25 lanes to one state |
| KeccakSponge.ReadLane | packages/portable-promotion-receipt/src/evm.ts:138-144 | The loop reads the little-endian value of eight bytes |
| KeccakSponge.WriteLane | packages/portable-promotion-receipt/src/evm.ts:146-150 | The loop writes a lane's eight bytes and no others |
| KeccakSponge.ReadAfterWrite | packages/portable-promotion-receipt/src/evm.ts:138-150 | A lane written and read back is the lane |
| KeccakSponge.WriteAfterRead | packages/portable-promotion-receipt/src/evm.ts:138-150 | Eight bytes read as a lane and written are the bytes |
| KeccakSponge.PadMessage | packages/portable-promotion-receipt/src/evm.ts:34-38 | The buffer is the message padded, with both pad bits in one byte when they meet |
| KeccakSponge.PaddingIsPad | packages/portable-promotion-receipt/src/evm.ts:34-38 | The padding is pad10*1 of section 5.1 |
| KeccakSponge.PaddingInjective | packages/portable-promotion-receipt/src/evm.ts:34-38 | Two messages never put the same bits into the sponge, the one-byte 0x81 case included |
| KeccakSponge.AbsorbMessage | packages/portable-promotion-receipt/src/evm.ts:39-45 | The absorbing loops are those of the sponge, section 4, for every number of blocks |
| KeccakSponge.SqueezeDigest | packages/portable-promotion-receipt/src/evm.ts:46-50 | The digest is the first 256 bits of the state |
| KeccakSponge.Keccak256 | packages/portable-promotion-receipt/src/evm.ts:32-51 | For every message the 32 bytes are the sponge of FIPS 202 without suffix bits |
| JsonText.BodyScans | apps/server/src/candidate-selection.ts:281-295 | A quoted string scans back to itself, whatever follows it (section 7 of RFC 8259) |
| Utf8Order.TotalOrder | apps/server/src/candidate-selection.ts:267-269 | Comparing UTF-8 bytes is a strict total order on strings |
| Utf8Order.EncodeMeaning | apps/server/src/candidate-selection.ts:267-269 | The bytes of a character have the lengths, the shapes and the value of table 3 of RFC 3629 |
| StableJson.ParserUndoesPrinter | apps/server/src/candidate-selection.ts:281-295 | A parser recovers from the printed text the tree printed, keys sorted and undefined fields dropped |
| StableJson.PrintInjective | apps/server/src/candidate-selection.ts:281-295 | Where no array holds undefined alone, two trees print alike exactly when they are equal as key-to-value maps, undefined items of longer arrays included |
| StableJson.PrintExactly | apps/server/src/candidate-selection.ts:281-295 | Any two trees print alike exactly when they are equal as key-to-value maps once arrays that hold undefined alone are emptied |
| StableJson.UndefinedItemIsLost | apps/server/src/candidate-selection.ts:281-295 | A tree shares its text with a different tree free of such arrays exactly when it has such an array |
| StableJson.LoneUndefined | apps/server/src/candidate-selection.ts:281-295 | The least input: an array of undefined and an empty one print alike |
| GlobCompiler.GlobToRegExp | apps/server/src/outcome-validator.ts:530-553 | The loop over the pattern emits the text of its pieces, longest wildcard first |
| GlobCompiler.CompiledParses | apps/server/src/outcome-validator.ts:530-553 | Whatever code units the pattern holds, the emitted text parses to the expression of its pieces |
| GlobCompiler.CompilerPreservesMeaning | apps/server/src/outcome-validator.ts:523-553 | On a path, the emitted text of every pattern parses and accepts what the glob matches, exactly when the path has no line terminator |
| GlobCompiler.PlainMatchesItself | apps/server/src/outcome-validator.ts:523-553 | A pattern without wildcards accepts exactly itself |
| GlobCompiler.EveryPathMatchesItself | apps/server/src/outcome-validator.ts:523-553 | Every path matches itself used as a pattern |
| GlobCompiler.LineTerminatorEscapes | apps/server/src/outcome-validator.ts:523-553 | The glob of a double star matches every path, and its compiled text says the same exactly on paths of one line |
| GlobMeaning.GlobsMeaning | apps/server/src/outcome-validator.ts:530-553 | A path can be cut into the pieces of a pattern exactly when it matches the pattern read character by character |
| GlobMeaning.SourceSpelled | apps/server/src/outcome-validator.ts:530-553 | The text written for each piece, in code units |
| GlobMeaning.CompileGlob | apps/server/src/outcome-validator.ts:523-553 | The compiled text parses, and on paths of one line accepts what the pattern says |
| OutcomeContracts.NamesApart | apps/server/src/outcome-contract.ts:131-138 | The one list of tagged names repeats nothing exactly when the secret names and the command names each repeat nothing |
| ContractMeaning.ParentMeaning | apps/server/src/outcome-contract.ts:85-97 | A path has a segment of two dots exactly when two dots stand in it between slashes or ends |
| ContractMeaning.ValidMeaning | apps/server/src/outcome-contract.ts:66-145 | What a contract may hold, spelled out: its bounds, relative paths of at most 240 UTF-16 units, names, patterns and commands |
| OutcomeChecks.DescribeChanges | apps/server/src/outcome-validator.ts:476-514 | The loop reports exactly the paths that differ, once each and in order, with the bytes the Candidate adds there; the evidence list is cut at 200 |
| OutcomeChecks.NoChangesMeansSame | apps/server/src/outcome-validator.ts:476-514 | Nothing is reported exactly when the Candidate holds what Canonical holds |
| OutcomeMeaning.ChangesMeaning | apps/server/src/outcome-validator.ts:476-514 | A path is reported exactly when it is in one inventory only, or in both with another kind, hash or link target and not a directory in both; the report says which, with the size of the file now there |
| OutcomeChecks.ValidateSecrets | apps/server/src/outcome-validator.ts:328-364 | The scan passes exactly when every changed file is small enough, readable, and free of control-plane values and configured secrets |
| OutcomeChecks.Validate | apps/server/src/outcome-validator.ts:111-326 | Every required piece of evidence passes exactly when the contract accepts the Candidate; the five checks come first under their names, then what was observed, then the commands |
| OutcomeChecks.ValidateOutcome | apps/server/src/outcome-validator.ts:82-326 | The same from the two inventories on; when one of them cannot be taken the only evidence is a required error and nothing is accepted |
| OutcomeMeaning.AcceptanceMeaning | apps/server/src/outcome-validator.ts:111-326 | What a contract accepts, and what each named piece of evidence says, in terms of the two inventories |
| OutcomeMeaning.ValidateInventories | apps/server/src/outcome-validator.ts:82-326 | The whole validation of two inventories: the changes are the paths that differ, and every required piece of evidence passes exactly when the contract accepts them |
| OutcomeMeaning.EditRefused | apps/server/src/outcome-validator.ts:142-161 | A Candidate that changed the content of a protected file is not accepted, whatever else it holds |
| OutcomeMeaning.SecretRefused | apps/server/src/outcome-validator.ts:328-364 | Nor is one with a configured secret in a file that is new or changed |
| ContractStrengthening.AssertMonotonicStrengthening | apps/server/src/assurance.ts:573-627 | The loops accept exactly the contracts that keep every rule of the base and add something |
| ContractStrengthening.KeepingRefines | apps/server/src/assurance.ts:573-627 | A contract that keeps another's rules accepts no Candidate that the other turns away |
| ContractStrengthening.StrongerIrreflexive | apps/server/src/assurance.ts:573-627 | No contract is stronger than itself |
| ContractStrengthening.StrongerTransitive | apps/server/src/assurance.ts:573-627 | What one strengthening asks for no later one gives back |
| AssuranceOperations.ApplyAssuranceOperations | apps/server/src/assurance.ts:500-571 | The loop over operations, the sorting, the validation and the monotonicity check compute the specified contract or refusal |
| AssuranceOperations.RefusalsMeaning | apps/server/src/assurance.ts:526-560 | A list is refused for a reference exactly when one of its references fails against the base, whatever earlier operations did |
| AssuranceMeaning.RefusedFor | apps/server/src/assurance.ts:526-560 | A list is refused by its first operation that refers to no catalog rule, or to no command of that name, text and limit, and for that reason |
| AssuranceMeaning.AppliedHolds | apps/server/src/assurance.ts:500-571 | The result is one version on and holds exactly what the base held and what was asked for, in order |
| AssuranceLaws.AppliesExactly | apps/server/src/assurance.ts:500-627 | A list applies exactly when its references hold, each operation is sound, the rule counts have room, and something is new |
| AssuranceLaws.OrderIrrelevant | apps/server/src/assurance.ts:500-571 | Two lists of the same operations, in any order and with any repetitions, give the same contract or both fail |
| AssuranceLaws.StrengthenedRefines | apps/server/src/assurance.ts:500-627 | A Candidate that passes every required check under the strengthened contract passes them under the base |
| AssuranceLaws.StrengthenedAccepts | apps/server/src/assurance.ts:500-571 | The strengthened contract accepts exactly the Candidates that the base accepts and that meet every operation |
| AssuranceLaws.ShadowedCatalog | apps/server/src/assurance.ts:527-544 | A list that adds the catalog rule has it in its result exactly when no base rule of another pattern carries its name |
| AssuranceLaws.ShadowingBase | apps/server/src/assurance.ts:527-544 | A base rule of that name, and a list put together freely that applies without the catalog rule in the result |
| AssuranceDerivation.Tally | apps/server/src/assurance.ts:76-89 | The nested maps hold, for each key, exactly the lineages whose Runs speak for it |
| AssuranceMeaning.DeletesMeaning | apps/server/src/assurance.ts:76-89 | A Run speaks for a path exactly when it was quarantined and a change of it deleted the path |
| AssuranceMeaning.FailsOptionalMeaning | apps/server/src/assurance.ts:133-171 | A Run speaks for a command exactly when all that was required of it passed and it failed the optional command, then the same text and limit as now |
| AssuranceMeaning.CatalogMeaning | apps/server/src/assurance.ts:216-245 | A Run speaks for the catalog secret exactly when its evidence of that name failed and the base has no rule of the name |
| AssuranceDerivation.PathOperations | apps/server/src/assurance.ts:90-131 | Path rules are proposed exactly for nameable paths that three lineages deleted and that the base does not name |
| AssuranceDerivation.CommandOperations | apps/server/src/assurance.ts:133-214 | A command is proposed as required exactly when three lineages failed it as the same optional command |
| AssuranceDerivation.CatalogOperations | apps/server/src/assurance.ts:216-288 | A catalog secret is proposed exactly when two lineages leaked it and no base rule has its name |
| AssuranceDerivation.LimitOperation | apps/server/src/assurance.ts:290-376 | The loops propose a lower limit exactly where the first overflowing and the first promoted Runs of the lineages call for one |
| AssuranceMeaning.PathCallMeaning | apps/server/src/assurance.ts:90-131 | A path rule is called for exactly by three lineages that deleted the path, if it may be named and is not in the base |
| AssuranceMeaning.CommandCallMeaning | apps/server/src/assurance.ts:133-214 | A command is called for exactly by three lineages that failed it as the first optional one of its name |
| AssuranceMeaning.SecretCallMeaning | apps/server/src/assurance.ts:216-288 | The catalog secret is called for exactly by two lineages in which a private key was found, if the base has no rule of its name |
| AssuranceMeaning.FilesCallMeaning | apps/server/src/assurance.ts:290-376 | A lower number of files is called for by two lineages that exceeded their own and three others promoted within theirs; it is the most that these changed |
| AssuranceMeaning.BytesCallMeaning | apps/server/src/assurance.ts:290-376 | The same of added bytes |
| AssuranceLimits.LimitCallMeaning | apps/server/src/assurance.ts:290-376 | Said of lineages: at least two overflowed, at least three others than the two earliest of these were promoted, and the new limit is the least that these three or more needed, below the base's |
| AssuranceLimits.ListingIrrelevant | apps/server/src/assurance.ts:290-376 | The order in which the history is listed does not matter |
| AssuranceProposals.DeriveOperations | apps/server/src/assurance.ts:56-388 | The proposal is the first ten operations, by key, of those the history calls for, in strict order of their keys |
| AssuranceMeaning.ProposeFromHistory | apps/server/src/assurance.ts:56-388 | Of the last 200 Runs of a history: up to ten of the operations that they speak for, the first by key |
| AssuranceProposals.CalledIsDerived | apps/server/src/assurance.ts:56-388 | Whatever a history calls for is sound, refers to something the base has, and asks for something new |
| AssuranceProposals.DerivedListsApply | apps/server/src/assurance.ts:500-627 | Every list of derived operations applies exactly when the rule counts have room, and the result is strictly stronger |
| AssuranceProposals.DerivedNeverShadowed | apps/server/src/agent-service.ts:1810-1845 | A derived list that adds the catalog rule has it in its result, whatever the base |
| ProposalOrders.DeriveProposal | apps/server/src/assurance.ts:378-458 | The first ten operations by one order pass the check by the other exactly when the two agree on every two of them; otherwise deriving the proposal fails |
| ProposalOrders.CapitalsRefused | apps/server/src/assurance.ts:378-458 | Three lineages that deleted the paths B and a have a proposal that is refused, under any collation that puts a first |
| AssuranceProposals.RoomForProposal | apps/server/src/assurance.ts:500-571 | A base with ten paths to spare in each list and one secret rule has room for any proposal |

## Left out

- HTTP routes, configuration, agent and container processes and the web interface: plumbing around the core.
- File-system details below one atomic publish or replace: modes, inode pinning, symbolic-link checks, directory syncs.
- SHA-256, Ed25519, Merkle proofs and the transparency log: digests are injective values here, signatures are absent.
- Redaction, byte-size bounds on persisted evidence, exact-key schema checks and error texts.
- PromotionJournals.PromotionJournal.Begin: the model keeps the fields that later operations read; the schema-2 legacy record shapes and their upgrade are not modelled, beyond the unbound dispatcher scope.
- AuthorityDirectory.Directory.Record: receipts, lineage documents and the byte form of a record are one opaque value each; the publication of Candidate Set decisions is modelled in CandidateSets and the Discard clean-up records are not modelled.
- CandidateSets.CandidateSet.EvaluateAll: a competitor's evaluation is one stored step, taken in listing order; the workers' interleavings are in CandidateBudget, and a Run that is sealed before its competitor is stored counts as still under way, as startup treats it.
- CandidateSets.CandidateSet.EndInterrupted: startup ends every Run under way; how its Candidate is retained, and the loser policy, are not modelled.
- CandidateSets.CandidateSet.PromoteSealed: Promotion is used by the contract that the promotion modules prove, not by its steps.
- CandidateBudget.EveryInterleaving: workers interleave at their awaits, which is where JavaScript can switch them; cancellation before a claim is not part of the pool.
- PromotionWorld.World.RecordAuthority: publication is one optional step after a run or a reconcile that returned; other callers of the directory are not modelled.
- PromotionSteps.PromoteVisible: a plan has no providers of the third visibility, best-effort; the registry admits none.
- ResourceRegistries.BuildRegistry: the schema of a manifest beyond its identifiers and claims, and the parsing of its initial version, are one given verdict a registration.
- AirlockRun.Run: whenever it is not calm a failing step may throw or lose the process; which of the two a failed step reports is not stated, here or of the steps.
- AirlockRun.Collect: what the provider calls compute (evidence, validations, plans) and the checks between them are inputs; a Candidate that fails validation goes on to its end without the reports of its quarantine.
- ExternalActions.LocalStore.Dispatch: the consumer scope and the parser's schema checks are left out; its two uniqueness rules are the store's invariant.
- FederatedCoordinators.Receiver.Admit: the policy verdict and bundle verification are inputs; staged bundles are a set of import identities, and the truncation of a Run identity to 48 characters is taken to be injective.
- OutcomeChecks.Validate: path patterns, secret patterns, file contents and the sandbox are functions of a World value, the same for the contracts compared; the catalog observation and the structural validators are one given list of evidence.
- AssuranceDerivation.Tally: a tally keeps the lineages that speak for a key; which Run of a lineage is cited, the citations themselves and the historical simulation are not modelled.
- Regex: only the syntax that the glob compiler can emit is parsed.
- Repair lineages, SQLite inspection, agent deletion and the receipt format: repeats of the patterns above or not part of the core.
