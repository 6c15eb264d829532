/** The candidate transaction: reset, admit, build, verify, mutate and review, repairing on refusal, then
    conclude with sealed evidence. Every operation's reply is an arbitrary input. */
module CandidateTransaction {
  import opened Basics
  import opened CandidateEvidence

  // ----- Arbitrary replies of the operations, one record per attempt -----

  datatype Command = Command(attempt: int, tree: string)
  datatype Admission =
    | AdmitThrew
    | Refused(code: string, repairReset: Identity)
    | Admitted(candidate: Identity, patchDigest: string)
  datatype BuildReply =
    | BuildThrew
    | Built(record: BuildRecord)
    | BuildRefused(record: BuildRecord, reasons: seq<string>)
  datatype BuildRecord = BuildRecord(candidate: Identity, commands: seq<Command>, artifacts: nat)
  datatype Verifier = Verifier(candidate: Identity, passed: bool, reasons: seq<string>)
  datatype MutationReply = Mutation(commands: seq<Command>, digests: nat, passed: bool)
  datatype ReviewReply = ReviewReply(host: Host, id: string, candidate: Identity, accepted: bool, reasons: seq<string>)
  datatype Patch = Patch(payload: string, author: string)

  datatype Replies = Replies(
    aborted: bool,
    reset: Identity,
    admission: Admission,
    admissionFailures: seq<string>,
    build: BuildReply,
    verifiers: Option<seq<Verifier>>,
    mutation: Option<MutationReply>,
    reviews: Option<seq<ReviewReply>>,
    externalGates: bool,
    finalFailures: seq<string>,
    abortedBeforeRepair: bool,
    repair: Option<Patch>,
    abortedAfterRepair: bool)

  /** The run's fixed inputs; `runtime` and `cleanup` are the replies used when concluding. */
  datatype Context = Context(
    evaluator: Identity,
    maxRepairs: nat,
    architectures: seq<(string, Host)>,
    replies: nat -> Replies,
    runtime: Option<seq<Native>>,
    trusted: bool,
    cleanup: bool)

  datatype Admit = Admit(candidate: Identity, patchDigest: string)
  datatype State = State(
    patches: seq<string>,
    drafts: seq<Draft>,
    repairCount: nat,
    invocations: seq<Expectation>,
    admission: Option<Admit>,
    commands: seq<Command>)

  datatype Ending = Passed | Failed(error: Error)
  datatype Next = Again(state: State, patch: Patch) | Done(end: State, ending: Ending)

  // ----- One attempt -----

  function Expect(id: string, operation: Operation, tree: string, patch: Option<string>): Expectation {
    Expectation(id, operation, tree, None, patch)
  }

  function RepairOrFail(ctx: Context, r: Replies, st: State, patch: Patch, reasons: seq<string>, trigger: Trigger,
                        repairReset: Option<Identity>): Next {
    var source := if st.admission.Some? then st.admission.value.candidate else ctx.evaluator;
    if r.abortedBeforeRepair then Done(st, Failed(Aborted))
    else if st.repairCount >= ctx.maxRepairs then Done(st, Failed(BudgetExhausted))
    else if r.repair.None? then Done(st, Failed(OperationFailed))
    else
      var repaired := r.repair.value;
      var pushed := st.(invocations := st.invocations
                                       + [Expect(repaired.author, Repair, source.tree, Some(repaired.payload))]);
      var draft := CreateDraft(st.repairCount, PhaseFor(trigger), trigger, patch.payload, repaired.payload, source,
                               repairReset, reasons, repaired.author);
      if r.abortedAfterRepair then Done(pushed, Failed(Aborted))
      else if draft.Failure? then Done(pushed, Failed(draft.error))
      else Again(pushed.(drafts := st.drafts + [draft.value], repairCount := st.repairCount + 1), repaired)
  }

  predicate CommandsBound(commands: seq<Command>, attempt: nat, tree: string) {
    forall i | 0 <= i < |commands| :: commands[i] == Command(attempt, tree)
  }

  /** `#recordBuild`: identity, non-empty evidence, and every command bound to this attempt and tree. */
  function BuildProblem(record: BuildRecord, st: State, candidate: Identity): Option<Error> {
    if record.candidate != candidate then Some(StaleIdentity)
    else if record.commands == [] || record.artifacts == 0 then Some(GateFailed)
    else if !CommandsBound(record.commands, st.repairCount, candidate.tree) then Some(GateFailed)
    else None
  }

  function MutationProblem(mutation: Option<MutationReply>, st: State, tree: string): Option<Error> {
    if mutation.None? then Some(OperationFailed)
    else if mutation.value.commands == [] || mutation.value.digests == 0 then Some(GateFailed)
    else if !CommandsBound(mutation.value.commands, st.repairCount, tree) then Some(GateFailed)
    else None
  }

  function VerifierFailures(verifiers: seq<Verifier>): seq<string> {
    if verifiers == [] then []
    else
      var last := verifiers[|verifiers| - 1];
      VerifierFailures(verifiers[..|verifiers| - 1])
      + if last.passed then []
        else if last.reasons == [] then ["HARNESS_VERIFIER_REJECTED_WITHOUT_REASON"] else last.reasons
  }

  function ReviewFailures(reviews: seq<ReviewReply>): seq<string> {
    if reviews == [] then []
    else
      var last := reviews[|reviews| - 1];
      ReviewFailures(reviews[..|reviews| - 1])
      + if last.accepted then []
        else if last.reasons == [] then ["HARNESS_REVIEW_REJECTED_WITHOUT_REASON"] else last.reasons
  }

  /** `assertIndependentReviewEvidence`: one review per host, distinct invocations, none the author's. */
  predicate Independent(author: string, reviews: seq<ReviewReply>) {
    && author != ""
    && |reviews| == 2
    && reviews[0].id != "" && reviews[1].id != ""
    && reviews[0].id != author && reviews[1].id != author && reviews[0].id != reviews[1].id
    && reviews[0].host != reviews[1].host
  }

  function ReviewExpectation(review: ReviewReply, tree: string): Expectation {
    Expectation(review.id, Review, tree, Some(review.host), None)
  }

  /** From review on, given a verified build of `candidate`. */
  function ReviewStage(ctx: Context, r: Replies, st: State, patch: Patch, candidate: Identity): Next {
    if r.reviews.None? then Done(st, Failed(OperationFailed))
    else if !Independent(patch.author, r.reviews.value) then Done(st, Failed(NotIndependent))
    else
      var reviews := r.reviews.value;
      if reviews[0].candidate != candidate then Done(st, Failed(StaleIdentity))
      else
        var one := st.(invocations := st.invocations + [ReviewExpectation(reviews[0], candidate.tree)]);
        if reviews[1].candidate != candidate then Done(one, Failed(StaleIdentity))
        else
          var both := one.(invocations := one.invocations + [ReviewExpectation(reviews[1], candidate.tree)]);
          if ReviewFailures(reviews) != [] then
            RepairOrFail(ctx, r, both, patch, ReviewFailures(reviews), ReviewTrigger, None)
          else if !r.externalGates then Done(both, Failed(GateFailed))
          else if r.finalFailures != [] then RepairOrFail(ctx, r, both, patch, r.finalFailures, FinalAdmission, None)
          else if both.admission.None? || both.admission.value.patchDigest != patch.payload
          then Done(both, Failed(PatchBindingMismatch))
          else Done(both, Passed)
  }

  /** From verification on, given a recorded build of `candidate`. */
  function VerifyStage(ctx: Context, r: Replies, st: State, patch: Patch, candidate: Identity): Next {
    if r.verifiers.None? || |r.verifiers.value| != 3 then Done(st, Failed(OperationFailed))
    else if exists i | 0 <= i < 3 :: r.verifiers.value[i].candidate != candidate then Done(st, Failed(StaleIdentity))
    else if VerifierFailures(r.verifiers.value) != [] then
      RepairOrFail(ctx, r, st, patch, VerifierFailures(r.verifiers.value), Verification, None)
    else
      var problem := MutationProblem(r.mutation, st, candidate.tree);
      if problem.Some? then Done(st, Failed(problem.value))
      else
        var mutated := st.(commands := st.commands + r.mutation.value.commands);
        if !r.mutation.value.passed then Done(mutated, Failed(GateFailed))
        else ReviewStage(ctx, r, mutated, patch, candidate)
  }

  /** From the build on, given an admitted patch. */
  function BuildStage(ctx: Context, r: Replies, st: State, patch: Patch, candidate: Identity): Next {
    if r.build.BuildThrew? then Done(st, Failed(OperationFailed))
    else
      var problem := BuildProblem(r.build.record, st, candidate);
      if problem.Some? then Done(st, Failed(problem.value))
      else
        var built := st.(commands := st.commands + r.build.record.commands);
        if r.build.BuildRefused? then RepairOrFail(ctx, r, built, patch, r.build.reasons, Build, None)
        else VerifyStage(ctx, r, built, patch, candidate)
  }

  function Attempt(ctx: Context, r: Replies, head: State, patch: Patch): Next {
    var st := head.(admission := None);
    if r.aborted then Done(head, Failed(Aborted))
    else if r.reset != ctx.evaluator then Done(st, Failed(StaleIdentity))
    else
      var recorded := st.(patches := st.patches + [patch.payload]);
      var completed := CompleteReset(st.drafts, st.repairCount, r.reset, patch.payload);
      if completed.Failure? then Done(recorded, Failed(completed.error))
      else
        var ready := recorded.(drafts := completed.value);
        match r.admission
        case AdmitThrew => Done(ready, Failed(OperationFailed))
        case Refused(code, repairReset) =>
          if repairReset != ctx.evaluator then Done(ready, Failed(StaleIdentity))
          else RepairOrFail(ctx, r, ready, patch, [code], PatchAdmission, Some(repairReset))
        case Admitted(candidate, patchDigest) =>
          if patchDigest != patch.payload then Done(ready, Failed(PatchBindingMismatch))
          else if candidate.tree == ctx.evaluator.tree then Done(ready, Failed(TreeUnchanged))
          else
            var admitted := ready.(admission := Some(Admit(candidate, patchDigest)));
            if r.admissionFailures != [] then
              RepairOrFail(ctx, r, admitted, patch, r.admissionFailures, AdmissionValidation, None)
            else BuildStage(ctx, r, admitted, patch, candidate)
  }

  lemma RetriesOnlyWithinBudget(ctx: Context, r: Replies, st: State, patch: Patch)
    ensures var next := Attempt(ctx, r, st, patch);
            next.Again? ==> next.state.repairCount == st.repairCount + 1 <= ctx.maxRepairs
  {
  }

  function Run(ctx: Context, st: State, patch: Patch): (result: (State, Ending))
    requires st.repairCount <= ctx.maxRepairs
    decreases ctx.maxRepairs - st.repairCount
  {
    RetriesOnlyWithinBudget(ctx, ctx.replies(st.repairCount), st, patch);
    match Attempt(ctx, ctx.replies(st.repairCount), st, patch)
    case Again(state, repaired) => Run(ctx, state, repaired)
    case Done(end, ending) => (end, ending)
  }

  predicate DualHost(architectures: seq<(string, Host)>) {
    && (exists k | 0 <= k < |architectures| :: architectures[k].1 == Codex)
    && (exists k | 0 <= k < |architectures| :: architectures[k].1 == Claude)
  }

  function ArchitectureExpectations(ctx: Context): seq<Expectation> {
    seq(|ctx.architectures|, i requires 0 <= i < |ctx.architectures| =>
      Expectation(ctx.architectures[i].0, Architecture, ctx.evaluator.tree, Some(ctx.architectures[i].1), None))
  }

  /** The state when the loop starts: architecture and implementation invocations are recorded. */
  function Start(ctx: Context, patch: Patch): State {
    State([], [], 0,
          ArchitectureExpectations(ctx)
            + [Expect(patch.author, Implementation, ctx.evaluator.tree, Some(patch.payload))],
          None, [])
  }

  // ----- Concluding -----

  predicate Matches(n: Native, e: Expectation) {
    && n.id == e.id && n.operation == e.operation && n.tree == e.tree && n.patch == e.patch
    && (e.host.Some? ==> n.host == e.host.value)
  }

  /** Binding the runtime's invocations to the expectations, by id, in any order. */
  predicate Bound(native: seq<Native>, expected: seq<Expectation>) {
    && native != [] && |native| == |expected| && DistinctIds(native)
    && (forall i, j | 0 <= i < j < |expected| :: expected[i].id != expected[j].id)
    && (exists i | 0 <= i < |native| :: native[i].host == Codex)
    && (exists i | 0 <= i < |native| :: native[i].host == Claude)
    && (forall i | 0 <= i < |native| :: exists j | 0 <= j < |expected| :: Matches(native[i], expected[j]))
  }

  function ReceiptOf(ctx: Context, st: State, status: Status, native: Option<seq<Native>>): Receipt {
    Receipt(status, st.repairCount, st.patches, ctx.evaluator,
            if st.admission.Some? then st.admission.value.candidate else ctx.evaluator, native)
  }

  datatype Outcome = Outcome(status: Status, receipts: seq<Receipt>, evidence: Option<Evidence>)

  /** A refused conclusion: the status requested, unless the runtime or the cleanup failed. */
  function FailureStatus(ctx: Context, requested: Status): Status {
    if !ctx.cleanup then Fail
    else if ctx.runtime.None? then (if ctx.trusted then Fail else Gated)
    else requested
  }

  /** `finish` as `execute` calls it, including the second call its own catch block makes when creating
      the evidence throws after the passing receipt was already appended. */
  function Conclude(ctx: Context, st: State, ending: Ending): Outcome {
    match ending
    case Failed(error) =>
      var status := FailureStatus(ctx, if error.Aborted? then Cancelled else Fail);
      Outcome(status, [ReceiptOf(ctx, st, status, None)], None)
    case Passed =>
      if ctx.runtime.None? then
        var status := FailureStatus(ctx, Fail);
        Outcome(status, [ReceiptOf(ctx, st, status, None)], None)
      else if !Bound(ctx.runtime.value, st.invocations) then Outcome(Fail, [ReceiptOf(ctx, st, Fail, None)], None)
      else
        var native := ctx.runtime.value;
        var sealed := Seal(st.drafts, native);
        if sealed.Failure? || !ctx.cleanup then Outcome(Fail, [ReceiptOf(ctx, st, Fail, Some(native))], None)
        else
          var receipt := ReceiptOf(ctx, st, Pass, Some(native));
          var evidence := CreateEvidence(receipt, native, sealed.value);
          if evidence.Success? then Outcome(Pass, [receipt], Some(evidence.value))
          else Outcome(Fail, [receipt, ReceiptOf(ctx, st, Fail, Some(native))], None)
  }
}
