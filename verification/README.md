# Verified model of the coding harness

A Dafny model of the TypeScript engineering harness under `coding-harness/`: the delivery lifecycle with its
durable records, the integration of private candidates, the candidate transaction with its sealed evidence, the
locks and custody files around them, and the two stream decoders. `dafny verify dfyconfig.toml` checks it.

How the parts fit together:

- **Delivery lifecycle.** `Records` holds the stored data, `Workflow` the pure decisions (what is ready, what comes
  next). `Lifecycle` gives every operation as a plan: the durable writes it makes, in order, and its outcome. A run is
  a list of happenings: an operation cut after any number of its writes, a cohort admitted, an outcome settled, or
  interference by the outside world. `LifecycleInvariant`, `LifecycleSteps`, `LifecycleSaves` and `LifecycleClaims` carry
  one inductive invariant over all of that; `LifecycleTheorems`, `LifecycleCustody`, `LifecycleReturns`,
  `LifecycleCrash` and `LifecycleOrder` state what follows. `DeliveryHarness` is the same object with mutable fields: each method is proved
  to make exactly the writes of its plan, and `Operate` and `Advance` carry the laws.
- **Runs from end to end.** `Advance` and `Runner` bound the check loop and the outcome loop, `RunnerChurn` says exactly
  when the bound needs its extra term, `RunnerToil` that it is attained. `Scenario` drives one candidate from `begin` to a passing verdict,
  `Composition` joins candidate harnesses to the canonical one, and `Counterexamples` holds failing runs that start from
  an initial state.
- **Integration.** `Integration` is the guarded merge and which orders of it are accepted, `IntegrationApply` the loop that
  replaces files one at a time, `Paths` and `Reservations` the overlap and reservation guards, `DeliveryPool` the cohort.
- **Candidate transaction.** `CandidateTransaction` and `CandidateExecution` are the loop, as a function of its replies
  and as an object; `CandidateEvidence` the sealing and the strict parser; `CandidateLaws`, `CandidateGates`,
  `CandidateAgreement`, `CandidateOrders` and `CandidateRereview` the laws.
- **Locks and custody.** `OperationLock` and `ApiDispatch` are state machines over the file operations of interleaving
  processes that may crash between any two of them; `ApiDispatchDoubt` says which calls may still dispatch in doubt.
- **Decoders.** `Text` states once what "split on newline" means; `NativeStream` and `NativeStderr` are the two classes,
  and `NativeStreamLaws` the laws of the stdout stream.

A digest is modelled by the value it digests, so equal digests mean equal values. A source snapshot is a map from
paths to contents, a commit is its tree with its parents. What commands, executors, model hosts and other processes do
is an arbitrary input.

## Model

| member | source | states |
|---|---|---|
| LifecycleTheorems.CompletedIsCheckedAndReviewed | coding-harness/src/delivery-runtime.ts:321-398 | In every run, with crashes and interference anywhere, a complete record has a commit on its base whose tree is the base with the scope replaced by one source; at that source the latest result of every declared check passed with no later start, and an accepted independent review cites exactly the accepted implementation (or the preserved candidate) and those checks; outside the scope the source is as it began. |
| LifecycleTheorems.FinishUsesTheTreeItSees | coding-harness/src/delivery-runtime.ts:380-398 | A finish that succeeds was called on the finished source, with the commit as head, and every declared check was valid there and then. |
| LifecycleTheorems.EveryReviewIsGrounded | coding-harness/src/delivery-runtime.ts:321-372 | In every run, a review result, accepted or not, is only recorded for a source at which its cited implementation was accepted (for an integrated run: citing the preserved candidate), and cites a passed result of every declared check there. |
| LifecycleTheorems.EveryWorkflowKeepsItsBooks | coding-harness/src/delivery-workflow.ts:42-82 | In every reachable workflow request i has attempt i + 1, ids are distinct, at most one request is neither answered nor invalidated, and none is both. |
| LifecycleTheorems.IntegratedRunsAreNeverReauthored | coding-harness/src/delivery-integration-review.ts:74-127 | In every run an integrated record keeps the candidate's task and handoffs; its requests, results and invalidations extend the candidate's; only reviews are appended, none when no review is needed; and the workflow check of the source guard always holds. |
| LifecycleTheorems.SourceGuardDependsOnTheTreeOnly | coding-harness/src/delivery-integration.ts:187-201 | For every reachable integrated record the source guard holds exactly when the integration is prepared and the tree is the merged one. |
| LifecycleTheorems.IntegratedTreeIsTheReviewedTree | coding-harness/src/delivery-integration.ts:132-159 | Without owner revalidation a prepared integration's tree agrees with the reviewed candidate on scope and re-pinned reads, equals it entirely when reads were undeclared, and equals the canonical tree outside the scope. |
| LifecycleTheorems.NextReturnsAStableRequest | coding-harness/src/delivery-runtime.ts:298-309 | In every reachable state a native request that `next` returns rests only on checks with unchanged environment and logs, and asking again returns the same request and writes the same record. |
| LifecycleTheorems.CandidatesStartFromTheAcceptedCommit | coding-harness/src/delivery-candidate.ts:111-150 | In every run, a candidate admitted beside a claimed run starts from the tree of the head commit, not from the half-integrated working tree. |
| WorkflowLaws.NextIsStable | coding-harness/src/delivery-workflow.ts:38-82 | Whenever the pure decision returns a native request, deciding again on the decided record returns the same decision: implementation, review and integration review alike. |
| LifecycleCustody.CustodyHolds | coding-harness/src/delivery-cohort-custody.ts:19-39 | Over every run, crashes included: unsettled reservations stay pairwise apart and the claimed run safe beside them throughout, if and only if no claim lost to a crash is taken again beside a reservation it meets. |
| LifecycleCustody.StepIsSafeExactly | coding-harness/src/delivery-runtime.ts:127-144 | The same for one step from any durable safe state: it stays safe if and only if the step does not retake an unsafe claim. |
| LifecycleCustody.CrashFreeCustodyHolds | coding-harness/src/delivery-candidate.ts:31-48 | In every run without crashes custody is safe throughout: no claimed direct run coexists with an unsettled reservation, and a claimed integration meets no unsettled reservation's mutations, reads or resources. |
| LifecycleCustody.CrashFreeClaimsAreExact | coding-harness/src/delivery-runtime.ts:83-93 | In every run without crashes the claim names a run exactly when it is active or awaits its handoff. |
| LifecycleCustody.EveryRunIsDurable | coding-harness/src/delivery-runtime.ts:76-93 | In every run, wherever it crashes, every record is sound and keyed by its id, and the claim names an existing record. |
| LifecycleClaims.ReconcileRestores | coding-harness/src/delivery-runtime.ts:454-476 | Whatever crashes did to the claim, a successful reconcile makes it name the run exactly when the run is live, changes only that record, and touches no other run's claim. |
| LifecycleCrash.CutIntegrationResumes | coding-harness/src/delivery-integration.ts:202-234 | An integration that would succeed may be cut after any write: integrating again succeeds with the same outcome and leaves exactly the recorded tree. |
| LifecycleCrash.AnyNumberOfCutsResumes | coding-harness/src/delivery-runtime.ts:127-144 | The same after any number of cut attempts, each cut anywhere. |
| LifecycleCrash.FinalMismatchNeverHappens | coding-harness/src/delivery-integration.ts:222-234 | In no reachable state, whatever crashes and interference led there, does an integration fail its final comparison. |
| LifecycleOrder.NextIsReadyExactly | coding-harness/src/delivery-integration.ts:115-176 | However far siblings have been integrated, committed and finished, in whatever order, one more that meets the guards of custody, reservations, identity and review passes preparation if and only if it changes something and none before it changed a path it may write or effectively reads. |
| LifecycleOrder.SettledOrderIsCompatible | coding-harness/src/delivery-integration.ts:137-153 | Siblings that have settled one after another each changed something, and none touched one after it. |
| LifecycleOrder.HistoriesAgree | coding-harness/src/delivery-integration.ts:132-159 | Any two runs that integrate, commit and finish the same siblings in two orders end with the same working tree, which is the tree of both heads; nothing is assumed of the siblings but their common base. |
| LifecycleOrder.SettlesAsFolded | coding-harness/src/delivery-integration.ts:144-159 | The tree and accounted commit history reached through the lifecycle are those of folding the guarded merge over the siblings. |
| OperationLaws.PlanIsLawful | coding-harness/src/delivery-runtime.ts:76-144 | Every complete operation keeps records sound and identified, an exact claim exact, and custody safe unless it retakes a lost unsafe claim. |
| OperationLaws.FinishResult | coding-harness/src/delivery-runtime.ts:380-398 | After a finish the claim is gone, the tree is untouched, and the record is complete with this commit and this source. |
| OperationLaws.IntegrateResult | coding-harness/src/delivery-integration.ts:202-234 | After an integrate the run is claimed and prepared, and the canonical tree is exactly the recorded merged tree. |
| OperationLaws.CheckResult | coding-harness/src/delivery-runtime.ts:233-281 | After a check its result is the newest of the record, counts exactly when it passed, and passed exactly when the command succeeded and left source and head as they were. |
| OperationLaws.SubmitResult | coding-harness/src/delivery-runtime.ts:321-372 | A submit appends exactly one result to an open request of this source and changes nothing else of the workflow; an accepted review met every review guard. |
| Harness.DeliveryHarness.Operate | coding-harness/src/delivery-runtime.ts:100-480 | On the object with mutable fields, any operation makes exactly the writes of its plan, keeps the laws of `PlanIsLawful`, and keeps its own promise: what `next`, check, submit, finish, reconcile and integrate state above. |
| Harness.DeliveryHarness.Advance | coding-harness/src/delivery-runtime.ts:310-320 | For every durable state, direct or integrated record, and every behaviour of the commands, the loop ends, never with a check still asked for, after at most as many checks as did not count at the start. |
| Advancing.CheckTurn | coding-harness/src/delivery-runtime.ts:310-320 | If `next` asks for another check after one has run, that one succeeded, left source and head alone, and exactly one check fewer is missing. |
| Advancing.ValidAfterCheck | coding-harness/src/delivery-runtime.ts:266-281 | After a check of an unchanged source the counting checks are the earlier ones, and this one exactly when it passed. |
| NextTransition.NextWorkflowAction | coding-harness/src/delivery-workflow.ts:38-82 | The step-by-step decision for a run authored here returns what the pure decision says, of which `NextIsStable` and the run theorems hold. |
| NextTransition.NextIntegrationAction | coding-harness/src/delivery-integration-review.ts:98-127 | The same for an integrated run. |
| NextTransition.CollectValid | coding-harness/src/delivery-runtime.ts:266-281 | The loop collects exactly the declared checks whose latest result counts for the source. |
| Prerequisites.References | coding-harness/src/delivery-runtime.ts:203-216 | The loop over a set that grows while it is visited ends, with exactly the digests reachable from the request through recorded results. |
| Prerequisites.RestsOnIsLeastClosed | coding-harness/src/delivery-runtime.ts:203-216 | Those digests are the least set that holds the request's own prerequisites and is closed under the prerequisites of recorded results. |
| Prerequisites.AssertPrerequisites | coding-harness/src/delivery-runtime.ts:203-216 | The request is allowed exactly when every recorded check it transitively rests on has unchanged environment and logs. |
| Runner.RunDeliveryOutcome | coding-harness/src/delivery-runner.ts:84-147 | When from turn `quietFrom` on no check changes the source, the loop ends, with at most 3 * limit + 6 executor calls and two more for each earlier check that changed it; it reports success only on a true verdict. |
| Runner.CallsAreBounded | coding-harness/src/delivery-runner.ts:84-147 | After any number of turns, whatever commands, executors and fallbacks do: calls made and calls still possible are at most 3 * limit + 6, and two more for each check whose command changed the source. |
| RunnerChurn.BudgetHoldsExactlyForQuietChecks | coding-harness/src/delivery-workflow.ts:52-71 | Check by check: after a check of an attested source, the calls the next action leaves possible stay within a review and the repairs left if and only if the command left the files as they were; otherwise the implementation is asked for again, not as a repair. |
| RunnerToil.BoundIsAttained | coding-harness/src/delivery-runner.ts:84-147 | The bound is tight: for every limit, from any run just bound on the API, a planning refusal, failing API calls and refusing reviews make exactly 3 * limit + 6 executor calls with no check that changes the source. |
| Counterexamples.BoundIsReached | coding-harness/src/delivery-runner.ts:84-147 | Such a run is reached from a candidate harness that began with nothing. |
| RunnerChurn.CallsAreUnbounded | coding-harness/src/delivery-runner.ts:84-147 | With a check that rewrites its scope each time it runs, for every number there are turns with that many more executor calls, no repair used and the loop still going. |
| Counterexamples.UnboundedCallsAreReachable | coding-harness/src/delivery-runner.ts:84-147 | Such a state is reached from a candidate harness that began with nothing. |
| Counterexamples.CustodyIsLost | coding-harness/src/delivery-runtime.ts:127-144 | From an initial canonical state and a candidate authored in its own harness, a crash between save and claim, an admitted cohort and a second integrate end with the integration claimed beside a reservation that mutates its scope. |
| Scenario.VerifiedIsAuthored | coding-harness/src/delivery-runtime.ts:100-379 | The guards can all be met: one candidate is begun, implemented, checked, reviewed and verified, starting from nothing. |
| Scenario.VerifiedIsValid | coding-harness/src/delivery-integration.ts:52-70 | That candidate passes the validation an integration puts it through. |
| Composition.ComposedIsPossible | coding-harness/src/delivery-integration.ts:52-70 | Runs whose integrated candidates were authored in candidate harnesses satisfy the hypothesis of every run theorem: nothing further is assumed of a candidate's record. |
| Integration.OrderIntegratesExactly | coding-harness/src/delivery-integration.ts:132-159 | For any candidates of one base and any order: every one is accepted in turn if and only if each changes something and none changes a path that one after it may write or effectively reads. The tree then holds every candidate's changes and the base elsewhere, and each commit holds exactly one candidate's changes. |
| Integration.EveryOrderIntegratesExactly | coding-harness/src/delivery-integration.ts:132-159 | Every order of all or some candidates is accepted if and only if each changes something and none touches another. |
| Integration.OrderDoesNotMatter | coding-harness/src/delivery-integration.ts:132-159 | Any two accepted orders of the same candidates give the same tree, without further hypothesis. |
| Integration.IndependentScopesHold | coding-harness/src/delivery-integration.ts:145-159 | When none touches another, the resulting tree holds the whole scope of every candidate integrated. |
| Integration.DisjointOrdersExactly | coding-harness/src/delivery-lineage.ts:8-14 | For candidates whose scopes avoid each other's scopes and what each other reads of the base: every order is accepted if and only if none creates an input of another, that is, a path the base lacks and the other requires by pattern, or any path the base lacks when the other declared no reads. |
| Integration.MergedTreeIsTheReviewedTree | coding-harness/src/delivery-candidate.ts:50-74 | Without revalidation the merged tree is the candidate's own on scope and reads, entirely so when inputs were undeclared, and untouched outside the scope. |
| Integration.MergeFiles | coding-harness/src/delivery-integration.ts:145-159 | The loop that fills the merged file table computes the merge: scoped paths as in the candidate, removed where it removed them, all others as before. |
| Integration.CreatedInputBreaksOrder | coding-harness/src/delivery-lineage.ts:8-14 | Disjointness from the read sets of the base alone is not enough: a sibling that creates a required input is accepted after the other, not before it. |
| IntegrationApply.ResumeConverges | coding-harness/src/delivery-integration.ts:202-234 | After any number of apply loops cut anywhere the input check still passes and one full pass ends exactly at the recorded tree. |
| IntegrationApply.ScopeResumable | coding-harness/src/delivery-integration.ts:202-234 | The guard loop accepts exactly the trees in which every scoped file has its value from before or after. |
| Paths.OverlapIsSegmentPrefix | coding-harness/src/contracts.ts:473-476 | For every two strings, overlap holds exactly when one list of slash-separated segments is a prefix of the other. |
| Paths.OverlapIsSharedSubtree | coding-harness/src/delivery-cohort-custody.ts:11-13 | Two paths overlap exactly when some path lies in both subtrees. |
| Reservations.AdmissionGap | coding-harness/src/delivery-candidate.ts:31-48 | A task admitted beside an integration whose scope is not live runtime conflicts under the integration's own guard exactly when it is no private snapshot and the scope holds a required input. |
| DeliveryPool.Admit | coding-harness/src/delivery-pool.ts:51-70 | The loops admit a cohort exactly when its tasks are pairwise apart and every candidate and reservation guard passes. |
| DeliveryPool.Pool.Settle | coding-harness/src/delivery-pool.ts:71-82 | Settling an outcome changes one row of the reservation file: dropped, or kept with its candidate's directory while that candidate has an operation. |
| DeliveryPool.Pool.Drain | coding-harness/src/delivery-pool.ts:120-123 | Once every task has settled, the file holds exactly the tasks whose candidate had an operation when they settled, each with that candidate's directory. |
| DeliveryPool.RetainedRowReturns | coding-harness/src/delivery-cohort-custody.ts:19-25 | From every initial canonical state, without a crash and with each outcome settled once, a run of possible happenings ends with two reservations in force that conflict, its last happening bringing one back. |
| LifecycleReturns.ReservationsHold | coding-harness/src/delivery-cohort-custody.ts:19-32 | Over every run in which each outcome settles once, crashes included: reservations in force are pairwise apart throughout, if and only if no candidate that takes up an operation again brings back a retained row that conflicts with another one in force. |
| LifecycleReturns.StepKeepsApartExactly | coding-harness/src/delivery-cohort-custody.ts:19-32 | The same for one step from any state whose reservations in force are apart. |
| DeliveryPool.UnsettledSettlesOnce | coding-harness/src/delivery-pool.ts:76-82 | A task the pool has not settled has no retained row, so a pool settles each outcome once. |
| OperationLock.NoStartWhileAChildMayLive | coding-harness/src/delivery-workspace.ts:70-138 | Over every disciplined interleaving of processes and crashes, an operation starts only when no process group of an earlier operation can be alive. |
| OperationLock.LosingTrackIsExact | coding-harness/src/delivery-process.ts:38-107 | From any state that keeps the invariant: after a step, some continuation that loses track of nothing starts an operation beside a living group, if and only if the step itself lost track of a child that may live. |
| OperationLock.OneCommandIsEnough | coding-harness/src/delivery-process.ts:38-107 | When every operation runs at most one command and every running record is written, no step loses track, over every interleaving and crash. |
| OperationLock.OneCommandEachIsFenced | coding-harness/src/delivery-workspace.ts:70-138 | Under those two conditions no operation ever starts beside a living group. |
| OperationLock.DisciplineIsExact | coding-harness/src/delivery-process.ts:38-107 | A step keeps the invariant of the lock if and only if it does not lose track of a child that may live. |
| OperationLock.OneOperationAtATime | coding-harness/src/delivery-workspace.ts:70-105 | At most one process is inside the protocol. |
| OperationLock.RecoveryIsSafe | coding-harness/src/delivery-workspace.ts:120-138 | Recovery removes a lock only when its owner is dead and no child group can be alive. |
| OperationLock.UncertainStartStaysHeld | coding-harness/src/delivery-workspace.ts:120-138 | After a crash between the starting and the running record, no step of any process ever removes that lock. |
| OperationLock.FailedWriteReachesABadStart | coding-harness/src/delivery-process.ts:42-46 | From the initial state, a failed write of the running record lets the next operation start while the child group lives. |
| OperationLock.SecondCommandReachesABadStart | coding-harness/src/delivery-process.ts:83-92 | From the initial state, a second command under an unconfirmed lock lets the next operation start while the first command's group lives. |
| ApiDispatch.AtMostOneFetch | coding-harness/src/delivery-api.ts:126-129 | Over every interleaving of processes and crashes, no two fetches are issued for one task and stage request. |
| ApiDispatch.DoubtHoldsLaterCalls | coding-harness/src/delivery-api.ts:101-118 | A call that starts its scan once a completion is unknown, or a reserved request's owner has died, never holds custody and never fetches, whatever happens in between. |
| ApiDispatch.DoubtArises | coding-harness/src/delivery-api.ts:194-197 | A lost answer, and the crash of a process that holds a reservation, each put the directory in doubt. |
| ApiDispatch.DispatchAfterDoubt | coding-harness/src/delivery-api.ts:101-129 | The scan is not a lock: from the initial state, a call that scanned before an answer was lost still fetches afterwards. |
| DispatchInDoubt.DispatchesExactly | coding-harness/src/delivery-api.ts:101-129 | In every reachable state in doubt, a call has a continuation in which it comes to fetch if and only if it holds its reservation, or is past its scan with its file still free, or is scanning with its file free, no hold, no replay and no blocking file left to read. |
| DispatchInDoubt.DoubtStopsFetchesExactly | coding-harness/src/delivery-api.ts:101-129 | In every reachable state in doubt, nothing more is ever fetched, whatever happens, if and only if no call is in one of those places. |
| CandidateLaws.TransactionKeepsBooks | coding-harness/src/candidate.ts:185-424 | For every script of replies the loop ends within `maxRepairs` + 1 recorded patches, never on a missing, duplicate or mismatched pending draft, and a passing end has every draft reset and chained. |
| CandidateGates.PassingRunMetEveryGate | coding-harness/src/candidate.ts:185-346 | A passing end was built, verified three times, mutated and accepted by both hosts, all in the last attempt and on the admitted identity. |
| CandidateGates.TransactionCommandsNameTheirTrees | coding-harness/src/candidate.ts:426-472 | Every recorded command ran on its own attempt's tree: a superseded one on the tree its repair replaced, the last on the admitted tree. |
| CandidateAgreement.ProducerAndParserAgree | coding-harness/src/candidate-transaction-evidence-v1.ts:207-319 | With evidence in expectation order, sealing a passing end always succeeds, and the strict parser returns the sealed transitions unchanged exactly when no earlier attempt reviewed the final tree. |
| CandidateAgreement.PassingRunConcludes | coding-harness/src/candidate-finish.ts:35-151 | For every script of replies whose gates all pass: the outcome passes exactly when the final tree is fresh, with evidence that chains through the patch history and uses each repair once; otherwise a passing receipt is followed by a failing one. |
| CandidateOrders.RolesBoundInAnyOrder | coding-harness/src/candidate-transaction-evidence-v1.ts:207-243 | For a bound listing in any order, the role check holds exactly when the final tree is fresh and its two reviews are listed last, in either order. |
| CandidateOrders.AcceptedOrdersExactly | coding-harness/src/candidate-transaction-evidence-v1.ts:62-100 | In any order the sealed transitions parse to themselves, and evidence is created exactly under that condition; otherwise it is refused for its roles. |
| CandidateOrders.PassingRunEndsInAnyOrder | coding-harness/src/candidate-finish.ts:35-151 | For every script of replies whose gates all pass, the outcome passes exactly when the runtime evidence binds, the final tree is fresh and its reviews are listed last. |
| CandidateRereview.PassingReceiptThenFailure | coding-harness/src/candidate-finish.ts:35-151 | One repair that re-admits the tree already reviewed passes every gate and ends failed, with a passing receipt before the failing one. |
| CandidateEvidence.AcceptedEvidenceIsUnchanged | coding-harness/src/candidate-transaction-evidence-v1.ts:101-153 | Whatever the strict parser accepts it returns unchanged. |
| CandidateEvidence.AcceptedTransitionsChain | coding-harness/src/candidate-transaction-evidence-v1.ts:244-319 | Every accepted list is a gap-free chain through the receipt's patch history, one transition for each counted repair. |
| CandidateEvidence.AcceptedTransitionsUseEachRepairOnce | coding-harness/src/candidate-transaction-evidence-v1.ts:244-319 | Every accepted list uses each repair invocation of the evidence in exactly one transition, and nothing else. |
| CandidateEvidence.SealCandidateRepairTransitions | coding-harness/src/candidate-repair-transition.ts:121-168 | The sealing loop with its growing set of used ids returns what the recursive specification does, of which the agreement laws hold. |
| CandidateEvidence.ParseTransitions | coding-harness/src/candidate-transaction-evidence-v1.ts:244-319 | The same for the parsing loop. |
| CandidateExecution.Transaction.Execute | coding-harness/src/candidate.ts:113-357 | On the object with mutable fields: execution ends within its budget and never on its own bookkeeping; a passing outcome met every gate and carries chained evidence; a run whose gates all pass is accepted exactly when its evidence suffices. |
| Text.FramingLosesNothing | coding-harness/src/delivery-native-stream.ts:34-52 | Complete lines and the rest put together are the text, and no piece holds a newline. |
| NativeStream.Drain | coding-harness/src/delivery-native-stream.ts:34-59 | For every chunking, counters, final value and failure are those of splitting the whole text on newline, dropping lines over the limit and folding the rest. |
| NativeStream.PendingIsBounded | coding-harness/src/delivery-native-stream.ts:34-52 | What is held between chunks never exceeds the frame limit, and its recorded size is its real size. |
| NativeStreamLaws.EveryStreamIsAccounted | coding-harness/src/delivery-native-stream.ts:63-83 | Every decoded stream keeps the item table within its bound, counts each tool start and completion exactly once, and (for Codex) conserves bytes between items and counters. |
| NativeStreamLaws.FirstResultWins | coding-harness/src/delivery-native-stream.ts:84-155 | Over every whole Claude stream the final value is the first result row's; a stream without failure has exactly one and dropped no line; such a stream fails only by a full item table. |
| NativeStderr.Drain | coding-harness/src/delivery-native-stderr.ts:23-64 | For every chunking the output is the tail of the log obtained by folding the complete lines of the whole text. |
| NativeStderr.OnlyShowableLinesAreReleased | coding-harness/src/delivery-native-stderr.ts:51-61 | Text enters the log exactly from lines before which no key block is open and which open none; every other entry is a fixed marker. |
| NativeStderr.LastLineIsGuarded | coding-harness/src/delivery-native-stderr.ts:43-50 | The unterminated last line is shown under the same rule, and a key block still open is always reported last. |
| NativeStderr.TailBounded | coding-harness/src/delivery-native-stderr.ts:62-64 | The tail is a suffix, and is within its limit if and only if the limit is positive or nothing was logged. |

## Findings

Properties that fail, each with its input and the exact condition under which the code meets it.

| property | failing input | holds exactly when |
|---|---|---|
| The claimed run is safe beside every unsettled reservation | A crash between save and claim of an integration, a cohort admitted meanwhile, then `integrate` again: it claims before its reservation guard (`Counterexamples.CustodyIsLost`) | no lost claim is retaken beside a reservation it meets (`LifecycleCustody.CustodyHolds`); crash-free runs always |
| No operation starts while an earlier child group may live | A second command under a lock left unconfirmed (`OperationLock.SecondCommandReachesABadStart`) | no step loses track of a child that may live (`OperationLock.LosingTrackIsExact`); one command per operation and no failed record are enough (`OperationLock.OneCommandIsEnough`) |
| The same | The write of the running record fails and the cleanup unlinks the lock (`OperationLock.FailedWriteReachesABadStart`) | as above |
| A transaction appends one final receipt | A repair that re-admits a tree reviewed before: a passing receipt, then a failing one (`CandidateRereview.PassingReceiptThenFailure`) | the evidence binds, the final tree is fresh and its reviews are listed last (`CandidateOrders.PassingRunEndsInAnyOrder`) |
| Reservations in force never conflict | A row retained for a candidate without an operation stops counting, a conflicting cohort is admitted, the candidate starts an operation again (`DeliveryPool.RetainedRowReturns`) | no candidate that takes up an operation again brings back a row that conflicts with another one in force (`LifecycleReturns.ReservationsHold`, step by step `LifecycleReturns.StepKeepsApartExactly`) |
| Integration order does not matter for siblings disjoint from the base's read sets | One sibling creates a required input (`Integration.CreatedInputBreaksOrder`) | no sibling creates an input of another (`Integration.DisjointOrdersExactly`); for any candidates at all, none touches another (`Integration.EveryOrderIntegratesExactly`) |
| After every check, at most a review and the repairs left are still to be called for | A check that rewrites a scoped file whenever it runs; the loop then has no bound at all (`RunnerChurn.CallsAreUnbounded`, `Counterexamples.UnboundedCallsAreReachable`) | for each check, exactly when its command leaves the files as they were (`RunnerChurn.BudgetHoldsExactlyForQuietChecks`); over the whole loop, each check that changes the source adds at most two calls to 3 * limit + 6 (`Runner.CallsAreBounded`), and without one that many are reached (`RunnerToil.BoundIsAttained`) |
| Admission beside an integration is the integration's own guard | A task in a shared checkout beside a scope with a required input (`Reservations.AdmissionGap`) | the task is a private snapshot or the scope holds no required input |
| No fetch follows a doubtful completion | A call that scanned before the answer was lost (`ApiDispatch.DispatchAfterDoubt`) | no call holds its reservation, is past its scan with its file free, or is scanning with nothing left to stop it (`DispatchInDoubt.DoubtStopsFetchesExactly`) |
| The stderr tail is bounded by its limit | A limit of zero: the last zero bytes are taken as everything (`NativeStderr.TailBounded`) | the limit is positive or nothing was logged |

## Left out

- Character decoding across chunk boundaries, JSON parsing and line redaction: decoded text, a parser and a redaction function are arbitrary inputs.
- The format of digests (hexadecimal, length) and of records: a digest is the value it digests, so the parsers' format checks have no counterpart.
- Files, Git, `flock`, `/proc`, signals and child processes: abstract state with arbitrary crash, exit and interference steps. Paths that are a file in one tree and a directory in another are not told apart.
- Timestamps, summaries, feedback texts and observations: nothing decides on them.
- Merge commits: in the walk over accepted commits a merge accounts for no paths.
- Outcome receipts of candidates (`coding-harness/src/delivery-integration.ts:97-103`), learning, policies, metering and cost: one-branch checks and accounting beside the protocols.
- The pause that `runDeliveryOutcome` makes after its loop ends without success, its receipt, and its progress reports.
- Failing writes other than the running record of the operation lock; a crash is modelled instead.
- `OperationLock` and `ApiDispatch` are state machines over steps rather than classes: their subject is the interleaving of processes, which a sequential object does not show.
- Concurrency inside one harness object: the operation lock serialises its operations, and that is what `OperationLock` proves.
- Native runtime evidence other than identity, operation, host, tree and patch: network, filesystem and credential records are not part of this model.
- Architecture plans, prompts and the text of proposals: arbitrary replies.
- `Lifecycle` directory order: `findIntegratedRun` takes the first record in an arbitrary fixed order of names.
- LifecycleOrder.HistoriesAgree: siblings are integrated without owner revalidation, the case in which commit history is consulted.
