/** The transaction object, and what executing it promises. */
module CandidateExecution {
  import opened Basics
  import opened CandidateEvidence
  import opened CandidateTransaction
  import opened CandidateLaws
  import opened CandidateAgreement
  import opened CandidateGates
  import opened CandidateOrders

  function Ended(ctx: Context, implementation: Patch): Ending {
    Run(ctx, Start(ctx, implementation), implementation).1
  }

  /** Architecture reviews of both hosts, runtime evidence and a working cleanup. */
  ghost predicate EvidenceAtHand(ctx: Context) {
    DualHost(ctx.architectures) && ctx.runtime.Some? && ctx.cleanup
  }

  /** The evidence binds to the expectations, its two final reviews are listed last, and no earlier attempt
      reviewed the final tree. */
  ghost predicate EvidenceSuffices(ctx: Context, end: State)
    requires ctx.runtime.Some?
  {
    && Bound(ctx.runtime.value, end.invocations) && FinalTreeIsFresh(end)
    && ReviewsListedLast(ctx.runtime.value, end.invocations)
  }

  /** Evidence that was accepted chains and uses each repair once, in whatever order the runtime listed it. */
  lemma AcceptedOutcomeIsSealed(ctx: Context, end: State, ending: Ending)
    requires Conclude(ctx, end, ending).status == Pass
    ensures var outcome := Conclude(ctx, end, ending);
            && ending.Passed? && ctx.runtime.Some? && outcome.evidence.Some?
            && Chain(outcome.evidence.value.transitions, end.patches)
            && UsesEachRepairOnce(outcome.evidence.value.transitions, ctx.runtime.value)
  {
    var evidence, receipt := Conclude(ctx, end, ending).evidence.value, ReceiptOf(ctx, end, Pass, ctx.runtime);
    var input := Evidence(receipt, ctx.runtime.value, ctx.runtime.value,
                          Seal(end.drafts, ctx.runtime.value).value, Seal(end.drafts, ctx.runtime.value).value);
    AcceptedEvidenceIsUnchanged(input, receipt);
    AcceptedTransitionsChain(input, receipt);
    AcceptedTransitionsUseEachRepairOnce(input, receipt);
  }

  lemma ExecutionKeepsLaws(ctx: Context, implementation: Patch)
    requires ctx.maxRepairs <= MAX_ATTEMPT
    ensures var (end, ending) := Run(ctx, Start(ctx, implementation), implementation);
            var outcome := Conclude(ctx, end, ending);
            && |end.patches| <= ctx.maxRepairs + 1 && Traced(end)
            && (ending.Failed? ==> !Stuck(ending.error))
            && (outcome.status == Pass ==>
                  && EveryGateMet(ctx.replies(end.repairCount), end) && outcome.evidence.Some?
                  && Chain(outcome.evidence.value.transitions, end.patches)
                  && UsesEachRepairOnce(outcome.evidence.value.transitions, ctx.runtime.value))
            && (ending.Passed? && EvidenceAtHand(ctx) ==> (outcome.status == Pass <==> EvidenceSuffices(ctx, end)))
  {
    var (end, ending) := Run(ctx, Start(ctx, implementation), implementation);
    TransactionKeepsBooks(ctx, implementation);
    TransactionCommandsNameTheirTrees(ctx, implementation);
    if ending.Passed? {
      PassingRunMetEveryGate(ctx, Start(ctx, implementation), implementation);
      if EvidenceAtHand(ctx) {
        PassingRunEndsInAnyOrder(ctx, implementation);
      }
    }
    if Conclude(ctx, end, ending).status == Pass {
      AcceptedOutcomeIsSealed(ctx, end, ending);
    }
  }

  class Transaction {
    const ctx: Context
    var patches: seq<string>
    var drafts: seq<Draft>
    var repairCount: nat
    var invocations: seq<Expectation>
    var admission: Option<Admit>
    var commands: seq<Command>
    var receipts: seq<Receipt>
    var executed: bool

    function View(): State reads this {
      State(patches, drafts, repairCount, invocations, admission, commands)
    }

    constructor (ctx: Context)
      ensures this.ctx == ctx && !executed && receipts == []
    {
      this.ctx := ctx;
      patches, drafts, repairCount, invocations, admission, commands := [], [], 0, [], None, [];
      receipts, executed := [], false;
    }

    /** `execute`, from the implementation reply on: it ends within its budget, never on its own bookkeeping.
        A passing outcome met every gate in its last attempt and carries evidence that chains through the patch
        history and uses each repair once; with runtime evidence in whatever order, a run whose gates all pass
        is accepted exactly when the evidence suffices. */
    method Execute(implementation: Patch) returns (outcome: Outcome)
      requires !executed && receipts == [] && ctx.maxRepairs <= MAX_ATTEMPT
      modifies this
      ensures executed && receipts == outcome.receipts && |patches| <= ctx.maxRepairs + 1
      ensures outcome == Conclude(ctx, View(), Ended(ctx, implementation))
      ensures Ended(ctx, implementation).Failed? ==> !Stuck(Ended(ctx, implementation).error)
      ensures outcome.status == Pass ==>
                && EveryGateMet(ctx.replies(repairCount), View()) && outcome.evidence.Some?
                && Chain(outcome.evidence.value.transitions, patches)
                && UsesEachRepairOnce(outcome.evidence.value.transitions, ctx.runtime.value)
      ensures Ended(ctx, implementation).Passed? && EvidenceAtHand(ctx) ==>
                (outcome.status == Pass <==> EvidenceSuffices(ctx, View()))
      ensures Traced(View())
    {
      ExecutionKeepsLaws(ctx, implementation);
      outcome := Attempts(implementation);
    }

    /** The loop: attempts until one ends, then `finish`. */
    method Attempts(implementation: Patch) returns (outcome: Outcome)
      requires !executed && receipts == []
      modifies this
      ensures executed && receipts == outcome.receipts
      ensures var (end, ending) := Run(ctx, Start(ctx, implementation), implementation);
              View() == end && outcome == Conclude(ctx, end, ending)
    {
      executed := true;
      patches, drafts, repairCount, admission, commands := [], [], 0, None, [];
      invocations := ArchitectureExpectations(ctx);
      invocations := invocations
        + [Expect(implementation.author, Implementation, ctx.evaluator.tree, Some(implementation.payload))];
      var patch := implementation;
      while true
        invariant executed && receipts == [] && repairCount <= ctx.maxRepairs
        invariant Run(ctx, View(), patch) == Run(ctx, Start(ctx, implementation), implementation)
        decreases ctx.maxRepairs - repairCount
      {
        ghost var head := View();
        RetriesOnlyWithinBudget(ctx, ctx.replies(repairCount), head, patch);
        var ending, repaired := AttemptOnce(patch);
        if ending.Some? {
          outcome := Finish(ending.value);
          return;
        }
        patch := repaired;
      }
    }

    /** One pass of the loop: an ending, or a repaired patch to try next. */
    method AttemptOnce(patch: Patch) returns (ending: Option<Ending>, repaired: Patch)
      modifies this`patches, this`drafts, this`repairCount, this`invocations, this`admission, this`commands
      ensures var next := Attempt(ctx, ctx.replies(old(repairCount)), old(View()), patch);
              if ending.Some? then next == Done(View(), ending.value) else next == Again(View(), repaired)
    {
      var r := ctx.replies(repairCount);
      repaired := patch;
      if r.aborted {
        return Some(Failed(Aborted)), patch;
      }
      admission := None;
      if r.reset != ctx.evaluator {
        return Some(Failed(StaleIdentity)), patch;
      }
      patches := patches + [patch.payload];
      var completed := CompleteReset(drafts, repairCount, r.reset, patch.payload);
      if completed.Failure? {
        return Some(Failed(completed.error)), patch;
      }
      drafts := completed.value;
      match r.admission
      case AdmitThrew =>
        return Some(Failed(OperationFailed)), patch;
      case Refused(code, repairReset) =>
        if repairReset != ctx.evaluator {
          return Some(Failed(StaleIdentity)), patch;
        }
        ending, repaired := TryRepair(r, patch, [code], PatchAdmission, Some(repairReset));
      case Admitted(candidate, patchDigest) =>
        if patchDigest != patch.payload {
          return Some(Failed(PatchBindingMismatch)), patch;
        }
        if candidate.tree == ctx.evaluator.tree {
          return Some(Failed(TreeUnchanged)), patch;
        }
        admission := Some(Admit(candidate, patchDigest));
        if r.admissionFailures != [] {
          ending, repaired := TryRepair(r, patch, r.admissionFailures, AdmissionValidation, None);
        } else {
          ending, repaired := BuildAndReview(r, patch, candidate);
        }
    }

    method BuildAndReview(r: Replies, patch: Patch, candidate: Identity)
      returns (ending: Option<Ending>, repaired: Patch)
      modifies this`drafts, this`repairCount, this`invocations, this`commands
      ensures var next := BuildStage(ctx, r, old(View()), patch, candidate);
              if ending.Some? then next == Done(View(), ending.value) else next == Again(View(), repaired)
    {
      if r.build.BuildThrew? {
        return Some(Failed(OperationFailed)), patch;
      }
      var problem := BuildProblem(r.build.record, View(), candidate);
      if problem.Some? {
        return Some(Failed(problem.value)), patch;
      }
      commands := commands + r.build.record.commands;
      if r.build.BuildRefused? {
        ending, repaired := TryRepair(r, patch, r.build.reasons, Build, None);
        return;
      }
      if r.verifiers.None? || |r.verifiers.value| != 3 {
        return Some(Failed(OperationFailed)), patch;
      }
      if exists i | 0 <= i < 3 :: r.verifiers.value[i].candidate != candidate {
        return Some(Failed(StaleIdentity)), patch;
      }
      var failures := VerifierFailures(r.verifiers.value);
      if failures != [] {
        ending, repaired := TryRepair(r, patch, failures, Verification, None);
        return;
      }
      problem := MutationProblem(r.mutation, View(), candidate.tree);
      if problem.Some? {
        return Some(Failed(problem.value)), patch;
      }
      commands := commands + r.mutation.value.commands;
      if !r.mutation.value.passed {
        return Some(Failed(GateFailed)), patch;
      }
      ending, repaired := ReviewBoth(r, patch, candidate);
    }

    method ReviewBoth(r: Replies, patch: Patch, candidate: Identity) returns (ending: Option<Ending>, repaired: Patch)
      modifies this`drafts, this`repairCount, this`invocations
      ensures var next := ReviewStage(ctx, r, old(View()), patch, candidate);
              if ending.Some? then next == Done(View(), ending.value) else next == Again(View(), repaired)
    {
      if r.reviews.None? {
        return Some(Failed(OperationFailed)), patch;
      }
      var reviews := r.reviews.value;
      if !Independent(patch.author, reviews) {
        return Some(Failed(NotIndependent)), patch;
      }
      if reviews[0].candidate != candidate {
        return Some(Failed(StaleIdentity)), patch;
      }
      invocations := invocations + [ReviewExpectation(reviews[0], candidate.tree)];
      if reviews[1].candidate != candidate {
        return Some(Failed(StaleIdentity)), patch;
      }
      invocations := invocations + [ReviewExpectation(reviews[1], candidate.tree)];
      var failures := ReviewFailures(reviews);
      if failures != [] {
        ending, repaired := TryRepair(r, patch, failures, ReviewTrigger, None);
        return;
      }
      if !r.externalGates {
        return Some(Failed(GateFailed)), patch;
      }
      if r.finalFailures != [] {
        ending, repaired := TryRepair(r, patch, r.finalFailures, FinalAdmission, None);
        return;
      }
      if admission.None? || admission.value.patchDigest != patch.payload {
        return Some(Failed(PatchBindingMismatch)), patch;
      }
      return Some(Passed), patch;
    }

    method TryRepair(r: Replies, patch: Patch, reasons: seq<string>, trigger: Trigger, repairReset: Option<Identity>)
      returns (ending: Option<Ending>, repaired: Patch)
      modifies this`drafts, this`repairCount, this`invocations
      ensures var next := RepairOrFail(ctx, r, old(View()), patch, reasons, trigger, repairReset);
              if ending.Some? then next == Done(View(), ending.value) else next == Again(View(), repaired)
    {
      if r.abortedBeforeRepair {
        return Some(Failed(Aborted)), patch;
      }
      if repairCount >= ctx.maxRepairs {
        return Some(Failed(BudgetExhausted)), patch;
      }
      var fromAttempt := repairCount;
      var source := if admission.Some? then admission.value.candidate else ctx.evaluator;
      if r.repair.None? {
        return Some(Failed(OperationFailed)), patch;
      }
      repaired := r.repair.value;
      invocations := invocations + [Expect(repaired.author, Repair, source.tree, Some(repaired.payload))];
      if r.abortedAfterRepair {
        return Some(Failed(Aborted)), repaired;
      }
      var draft := CreateDraft(fromAttempt, PhaseFor(trigger), trigger, patch.payload, repaired.payload, source,
                               repairReset, reasons, repaired.author);
      if draft.Failure? {
        return Some(Failed(draft.error)), repaired;
      }
      drafts := drafts + [draft.value];
      repairCount := fromAttempt + 1;
      return None, repaired;
    }

    /** `finish`; a thrown evidence creation falls into the catch block and finishes once more. */
    method Finish(ending: Ending) returns (outcome: Outcome)
      requires receipts == []
      modifies this`receipts
      ensures outcome == Conclude(ctx, View(), ending) && receipts == outcome.receipts
    {
      var status := if ending.Passed? then Pass else if ending.error.Aborted? then Cancelled else Fail;
      var native: Option<seq<Native>>, transitions: seq<Transition> := None, [];
      if ctx.runtime.None? {
        status := if ctx.trusted then Fail else Gated;
      } else if ending.Passed? {
        if !Bound(ctx.runtime.value, invocations) {
          status := Fail;
        } else {
          native := ctx.runtime;
          var sealed := SealCandidateRepairTransitions(drafts, ctx.runtime.value);
          if sealed.Failure? {
            status := Fail;
          } else {
            transitions := sealed.value;
          }
        }
      }
      if !ctx.cleanup {
        status := Fail;
      }
      var receipt := ReceiptOf(ctx, View(), status, native);
      receipts := receipts + [receipt];
      if !status.Pass? || native.None? {
        return Outcome(status, receipts, None);
      }
      var evidence := CreateEvidence(receipt, native.value, transitions);
      if evidence.Success? {
        return Outcome(Pass, receipts, Some(evidence.value));
      }
      receipts := receipts + [ReceiptOf(ctx, View(), Fail, native)];
      return Outcome(Fail, receipts, None);
    }
  }
}
