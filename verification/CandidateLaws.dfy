/** Laws of the candidate transaction over every run: repair bookkeeping, and agreement between the
    producer of sealed transitions and the strict parser. */
module CandidateLaws {
  import opened Basics
  import opened CandidateEvidence
  import opened CandidateTransaction

  predicate IsRepairing(e: Expectation) {
    e.operation.Repair?
  }

  predicate IsImplementing(e: Expectation) {
    e.operation.Implementation?
  }

  predicate IsArchitecture(e: Expectation) {
    e.operation.Architecture?
  }

  // ----- The loop invariant -----

  /** Draft `k` records the step from patch `k` to `replacement`, in the shape the parser will demand. */
  ghost predicate DraftOk(ctx: Context, d: Draft, k: nat, source: string, replacement: string) {
    && d.fromAttempt == k && d.toAttempt == k + 1
    && d.phase == PhaseFor(d.trigger) && d.disposition == DispositionFor(d.trigger)
    && d.sourcePatch == source && d.replacementPatch == replacement && source != replacement
    && d.reasons != []
    && (if d.trigger.PatchAdmission? then d.sourceCandidate == ctx.evaluator && d.repairReset == Some(ctx.evaluator)
        else d.sourceCandidate.tree != ctx.evaluator.tree && d.repairReset.None?)
  }

  function RepairExpectation(d: Draft): Expectation {
    Expect(d.invocationId, Repair, d.sourceCandidate.tree, Some(d.replacementPatch))
  }

  /** Patch `k` of the history, `patch` being the one about to be recorded. */
  function PatchAt(st: State, patch: Patch, k: nat): string {
    if k < |st.patches| then st.patches[k] else patch.payload
  }

  /** Drafts and invocations of a state whose patch history is `st.patches`, then `patch`. */
  ghost predicate Booked(ctx: Context, st: State, patch: Patch) {
    && |st.drafts| == st.repairCount <= ctx.maxRepairs
    && (forall k | 0 <= k < |st.drafts| ::
          DraftOk(ctx, st.drafts[k], k, PatchAt(st, patch, k), PatchAt(st, patch, k + 1)))
    && Select(st.invocations, IsRepairing) == Repairs(st.drafts)
    && Select(st.invocations, IsArchitecture) == ArchitectureExpectations(ctx)
    && (exists id :: Select(st.invocations, IsImplementing)
                  == [Expect(id, Implementation, ctx.evaluator.tree, Some(PatchAt(st, patch, 0)))])
  }

  function Repairs(drafts: seq<Draft>): seq<Expectation> {
    seq(|drafts|, k requires 0 <= k < |drafts| => RepairExpectation(drafts[k]))
  }

  ghost predicate ResetsFilled(ctx: Context, drafts: seq<Draft>, count: nat) {
    count <= |drafts| && forall k | 0 <= k < count :: drafts[k].reset == Some(ctx.evaluator)
  }

  /** At the head of the loop: only the newest draft awaits its reset, and it awaits this patch. */
  ghost predicate AtHead(ctx: Context, st: State, patch: Patch) {
    && Booked(ctx, st, patch)
    && |st.patches| == st.repairCount
    && (st.drafts != [] ==>
          ResetsFilled(ctx, st.drafts, |st.drafts| - 1) && st.drafts[|st.drafts| - 1].reset.None?)
  }

  /** Once the attempt's patch is recorded: one more patch than repairs, every reset filled. */
  ghost predicate Underway(ctx: Context, st: State, patch: Patch) {
    && Booked(ctx, st, patch)
    && |st.patches| == st.repairCount + 1 && st.patches[st.repairCount] == patch.payload
    && ResetsFilled(ctx, st.drafts, |st.drafts|)
    && (st.admission.Some? ==> st.admission.value.candidate.tree != ctx.evaluator.tree)
  }

  lemma SelectSnoc<T>(items: seq<T>, item: T, keep: T -> bool)
    ensures Select(items + [item], keep) == Select(items, keep) + if keep(item) then [item] else []
  {
    assert (items + [item])[..|items|] == items;
  }

  lemma {:induction false} SelectNone<T>(items: seq<T>, keep: T -> bool)
    requires forall k | 0 <= k < |items| :: !keep(items[k])
    ensures Select(items, keep) == []
  {
    if items != [] {
      SelectNone(items[..|items| - 1], keep);
    }
  }

  lemma {:induction false} SelectAll<T>(items: seq<T>, keep: T -> bool)
    requires forall k | 0 <= k < |items| :: keep(items[k])
    ensures Select(items, keep) == items
  {
    if items != [] {
      SelectAll(items[..|items| - 1], keep);
    }
  }

  lemma StartIsAtHead(ctx: Context, patch: Patch)
    ensures AtHead(ctx, Start(ctx, patch), patch)
  {
    var architectures := ArchitectureExpectations(ctx);
    var last := Expect(patch.author, Implementation, ctx.evaluator.tree, Some(patch.payload));
    SelectSnoc(architectures, last, IsRepairing);
    SelectSnoc(architectures, last, IsArchitecture);
    SelectSnoc(architectures, last, IsImplementing);
    SelectNone(architectures, IsRepairing);
    SelectNone(architectures, IsImplementing);
    SelectAll(architectures, IsArchitecture);
    assert Select(architectures + [last], IsImplementing)
        == [Expect(patch.author, Implementation, ctx.evaluator.tree, Some(PatchAt(Start(ctx, patch), patch, 0)))];
  }

  // ----- The reset of the newest draft always completes -----

  lemma {:induction false} NothingPending(drafts: seq<Draft>, attempt: int)
    requires forall k | 0 <= k < |drafts| :: !Pending(drafts[k], attempt)
    ensures PendingAt(drafts, attempt) == []
  {
    if drafts != [] {
      NothingPending(drafts[..|drafts| - 1], attempt);
    }
  }

  /** The pending-missing, pending-duplicate and replacement errors are unreachable. */
  lemma ResetAlwaysCompletes(ctx: Context, st: State, patch: Patch)
    requires AtHead(ctx, st, patch)
    ensures var completed := CompleteReset(st.drafts, st.repairCount, ctx.evaluator, patch.payload);
            && completed.Success?
            && |completed.value| == |st.drafts|
            && ResetsFilled(ctx, completed.value, |st.drafts|)
            && forall k | 0 <= k < |st.drafts| ::
                 completed.value[k] == st.drafts[k].(reset := Some(ctx.evaluator))
  {
    if st.drafts != [] {
      var last := |st.drafts| - 1;
      var front := st.drafts[..last];
      assert forall k | 0 <= k < last :: front[k] == st.drafts[k] && !Pending(st.drafts[k], st.repairCount);
      NothingPending(front, st.repairCount);
      assert DraftOk(ctx, st.drafts[last], last, PatchAt(st, patch, last), PatchAt(st, patch, last + 1));
      assert PendingAt(st.drafts, st.repairCount) == [last];
    }
  }

  lemma RecordKeepsBooks(ctx: Context, head: State, patch: Patch)
    requires AtHead(ctx, head, patch)
    ensures var drafts := CompleteReset(head.drafts, head.repairCount, ctx.evaluator, patch.payload);
            drafts.Success?
            && Underway(ctx, head.(admission := None, patches := head.patches + [patch.payload],
                                   drafts := drafts.value), patch)
  {
    ResetAlwaysCompletes(ctx, head, patch);
    var drafts := CompleteReset(head.drafts, head.repairCount, ctx.evaluator, patch.payload).value;
    var st := head.(admission := None, patches := head.patches + [patch.payload], drafts := drafts);
    assert forall k :: PatchAt(st, patch, k) == PatchAt(head, patch, k);
    forall k | 0 <= k < |drafts|
      ensures DraftOk(ctx, drafts[k], k, PatchAt(st, patch, k), PatchAt(st, patch, k + 1))
    {
      assert DraftOk(ctx, head.drafts[k], k, PatchAt(head, patch, k), PatchAt(head, patch, k + 1));
    }
    assert Repairs(drafts) == Repairs(head.drafts);
  }

  // ----- Every outcome of an attempt keeps the books -----

  /** Errors that would mean the repair bookkeeping lost track. */
  predicate Stuck(error: Error) {
    error.PendingMissing? || error.PendingDuplicate? || error.ReplacementMismatch? || error.AttemptInvalid?
    || error.PhaseInvalid? || error.RepairResetRequired? || error.RepairResetUnexpected? || error.RepairResetMismatch?
  }

  /** A passing end: the last two invocations are the two hosts' reviews of the admitted tree. */
  ghost predicate Passing(ctx: Context, st: State, patch: Patch) {
    && Underway(ctx, st, patch)
    && st.admission.Some? && st.admission.value.patchDigest == patch.payload
    && |st.invocations| >= 2
    && var n, tree := |st.invocations|, st.admission.value.candidate.tree;
       exists one: ReviewReply, two: ReviewReply | one.host != two.host ::
         st.invocations[n - 2] == ReviewExpectation(one, tree) && st.invocations[n - 1] == ReviewExpectation(two, tree)
  }

  ghost predicate Kept(ctx: Context, next: Next, patch: Patch) {
    match next
    case Again(state, repaired) => AtHead(ctx, state, repaired)
    case Done(end, Failed(error)) => !Stuck(error) && |end.patches| <= end.repairCount + 1
      && |end.drafts| == end.repairCount
    case Done(end, Passed) => Passing(ctx, end, patch)
  }

  lemma RepairKeepsDrafts(ctx: Context, st: State, patch: Patch, now: State, repaired: Patch)
    requires Underway(ctx, st, patch) && now.patches == st.patches
    requires |now.drafts| == |st.drafts| + 1 && now.drafts[..|st.drafts|] == st.drafts
    requires DraftOk(ctx, now.drafts[|st.drafts|], |st.drafts|, patch.payload, repaired.payload)
    ensures forall k | 0 <= k < |now.drafts| ::
              DraftOk(ctx, now.drafts[k], k, PatchAt(now, repaired, k), PatchAt(now, repaired, k + 1))
  {
    forall k | 0 <= k < |st.drafts|
      ensures DraftOk(ctx, now.drafts[k], k, PatchAt(now, repaired, k), PatchAt(now, repaired, k + 1))
    {
      assert now.drafts[k] == st.drafts[k];
      assert DraftOk(ctx, st.drafts[k], k, PatchAt(st, patch, k), PatchAt(st, patch, k + 1));
    }
  }

  lemma RepairKeepsBooks(ctx: Context, r: Replies, st: State, patch: Patch, reasons: seq<string>, trigger: Trigger)
    requires Underway(ctx, st, patch) && ctx.maxRepairs <= MAX_ATTEMPT
    requires trigger.PatchAdmission? <==> st.admission.None?
    ensures Kept(ctx, RepairOrFail(ctx, r, st, patch, reasons, trigger,
                                   if trigger.PatchAdmission? then Some(ctx.evaluator) else None), patch)
  {
    var next := RepairOrFail(ctx, r, st, patch, reasons, trigger,
                             if trigger.PatchAdmission? then Some(ctx.evaluator) else None);
    if next.Again? {
      var repaired := next.patch;
      var d := next.state.drafts[|st.drafts|];
      SelectSnoc(st.invocations, RepairExpectation(d), IsRepairing);
      SelectSnoc(st.invocations, RepairExpectation(d), IsArchitecture);
      SelectSnoc(st.invocations, RepairExpectation(d), IsImplementing);
      assert Repairs(next.state.drafts) == Repairs(st.drafts) + [RepairExpectation(d)];
      RepairKeepsDrafts(ctx, st, patch, next.state, repaired);
      assert PatchAt(next.state, repaired, 0) == PatchAt(st, patch, 0);
    }
  }

  /** Recording a review changes no repair, implementation or architecture invocation. */
  lemma ReviewKeepsBooks(ctx: Context, st: State, patch: Patch, review: ReviewReply, tree: string)
    requires Underway(ctx, st, patch)
    ensures Underway(ctx, st.(invocations := st.invocations + [ReviewExpectation(review, tree)]), patch)
  {
    var e := ReviewExpectation(review, tree);
    SelectSnoc(st.invocations, e, IsRepairing);
    SelectSnoc(st.invocations, e, IsArchitecture);
    SelectSnoc(st.invocations, e, IsImplementing);
    var after := st.(invocations := st.invocations + [e]);
    assert forall k :: PatchAt(after, patch, k) == PatchAt(st, patch, k);
    assert forall k | 0 <= k < |st.drafts| ::
        DraftOk(ctx, st.drafts[k], k, PatchAt(st, patch, k), PatchAt(st, patch, k + 1));
  }

  lemma BothReviewsKeepBooks(ctx: Context, st: State, one: State, both: State, patch: Patch,
                             reviews: seq<ReviewReply>, tree: string)
    requires Underway(ctx, st, patch) && |reviews| == 2
    requires one == st.(invocations := st.invocations + [ReviewExpectation(reviews[0], tree)])
    requires both == one.(invocations := one.invocations + [ReviewExpectation(reviews[1], tree)])
    ensures Underway(ctx, both, patch)
  {
    ReviewKeepsBooks(ctx, st, patch, reviews[0], tree);
    ReviewKeepsBooks(ctx, one, patch, reviews[1], tree);
  }

  lemma ReviewStageKept(ctx: Context, r: Replies, st: State, patch: Patch, candidate: Identity)
    requires Underway(ctx, st, patch) && ctx.maxRepairs <= MAX_ATTEMPT
    requires st.admission.Some? && st.admission.value.candidate == candidate
    ensures Kept(ctx, ReviewStage(ctx, r, st, patch, candidate), patch)
  {
    if r.reviews.Some? && Independent(patch.author, r.reviews.value) {
      var reviews := r.reviews.value;
      var one := st.(invocations := st.invocations + [ReviewExpectation(reviews[0], candidate.tree)]);
      var both := one.(invocations := one.invocations + [ReviewExpectation(reviews[1], candidate.tree)]);
      BothReviewsKeepBooks(ctx, st, one, both, patch, reviews, candidate.tree);
      RepairKeepsBooks(ctx, r, both, patch, ReviewFailures(reviews), ReviewTrigger);
      RepairKeepsBooks(ctx, r, both, patch, r.finalFailures, FinalAdmission);
    }
  }

  lemma CommandsKeepBooks(ctx: Context, st: State, patch: Patch, commands: seq<Command>)
    requires Underway(ctx, st, patch)
    ensures Underway(ctx, st.(commands := commands), patch)
  {
    var after := st.(commands := commands);
    assert forall k :: PatchAt(after, patch, k) == PatchAt(st, patch, k);
    assert forall k | 0 <= k < |st.drafts| ::
        DraftOk(ctx, st.drafts[k], k, PatchAt(st, patch, k), PatchAt(st, patch, k + 1));
  }

  lemma VerifyStageKept(ctx: Context, r: Replies, st: State, patch: Patch, candidate: Identity)
    requires Underway(ctx, st, patch) && ctx.maxRepairs <= MAX_ATTEMPT
    requires st.admission.Some? && st.admission.value.candidate == candidate
    ensures Kept(ctx, VerifyStage(ctx, r, st, patch, candidate), patch)
  {
    if r.verifiers.Some? {
      RepairKeepsBooks(ctx, r, st, patch, VerifierFailures(r.verifiers.value), Verification);
    }
    if r.mutation.Some? {
      var mutated := st.(commands := st.commands + r.mutation.value.commands);
      CommandsKeepBooks(ctx, st, patch, mutated.commands);
      ReviewStageKept(ctx, r, mutated, patch, candidate);
    }
  }

  lemma BuildStageKept(ctx: Context, r: Replies, st: State, patch: Patch, candidate: Identity)
    requires Underway(ctx, st, patch) && ctx.maxRepairs <= MAX_ATTEMPT
    requires st.admission.Some? && st.admission.value.candidate == candidate
    ensures Kept(ctx, BuildStage(ctx, r, st, patch, candidate), patch)
  {
    if !r.build.BuildThrew? {
      var built := st.(commands := st.commands + r.build.record.commands);
      CommandsKeepBooks(ctx, st, patch, built.commands);
      if r.build.BuildRefused? {
        RepairKeepsBooks(ctx, r, built, patch, r.build.reasons, Build);
      } else {
        VerifyStageKept(ctx, r, built, patch, candidate);
      }
    }
  }

  lemma AdmissionKeepsBooks(ctx: Context, st: State, patch: Patch, admit: Admit)
    requires Underway(ctx, st, patch) && admit.candidate.tree != ctx.evaluator.tree
    ensures Underway(ctx, st.(admission := Some(admit)), patch)
  {
    var after := st.(admission := Some(admit));
    assert forall k :: PatchAt(after, patch, k) == PatchAt(st, patch, k);
    assert forall k | 0 <= k < |st.drafts| ::
        DraftOk(ctx, st.drafts[k], k, PatchAt(st, patch, k), PatchAt(st, patch, k + 1));
  }

  lemma AttemptKept(ctx: Context, r: Replies, head: State, patch: Patch)
    requires AtHead(ctx, head, patch) && ctx.maxRepairs <= MAX_ATTEMPT
    ensures Kept(ctx, Attempt(ctx, r, head, patch), patch)
  {
    if !r.aborted && r.reset == ctx.evaluator {
      RecordKeepsBooks(ctx, head, patch);
      var drafts := CompleteReset(head.drafts, head.repairCount, ctx.evaluator, patch.payload).value;
      var st := head.(admission := None, patches := head.patches + [patch.payload], drafts := drafts);
      match r.admission
      case AdmitThrew =>
      case Refused(code, repairReset) => RepairKeepsBooks(ctx, r, st, patch, [code], PatchAdmission);
      case Admitted(candidate, patchDigest) =>
        if candidate.tree != ctx.evaluator.tree {
          var admitted := st.(admission := Some(Admit(candidate, patchDigest)));
          AdmissionKeepsBooks(ctx, st, patch, Admit(candidate, patchDigest));
          RepairKeepsBooks(ctx, r, admitted, patch, r.admissionFailures, AdmissionValidation);
          BuildStageKept(ctx, r, admitted, patch, candidate);
        }
    }
  }

  /** Repair bookkeeping never gets stuck, and the loop records at most `maxRepairs + 1` patches. */
  lemma {:induction false} RunKept(ctx: Context, st: State, patch: Patch)
    requires AtHead(ctx, st, patch) && ctx.maxRepairs <= MAX_ATTEMPT
    ensures var (end, ending) := Run(ctx, st, patch);
            && |end.patches| <= end.repairCount + 1 <= ctx.maxRepairs + 1
            && (ending.Failed? ==> !Stuck(ending.error))
            && (ending.Passed? ==> exists last :: Passing(ctx, end, last))
    decreases ctx.maxRepairs - st.repairCount
  {
    var r := ctx.replies(st.repairCount);
    AttemptKept(ctx, r, st, patch);
    RetriesOnlyWithinBudget(ctx, r, st, patch);
    EndWithinBudget(ctx, r, st, patch);
    var next := Attempt(ctx, r, st, patch);
    if next.Again? {
      RunKept(ctx, next.state, next.patch);
    }
  }

  lemma EndWithinBudget(ctx: Context, r: Replies, st: State, patch: Patch)
    requires st.repairCount <= ctx.maxRepairs
    ensures var next := Attempt(ctx, r, st, patch);
            next.Done? ==> next.end.repairCount == st.repairCount
  {
  }

  lemma TransactionKeepsBooks(ctx: Context, implementation: Patch)
    requires ctx.maxRepairs <= MAX_ATTEMPT
    ensures var (end, ending) := Run(ctx, Start(ctx, implementation), implementation);
            && |end.patches| <= ctx.maxRepairs + 1
            && (ending.Failed? ==> !Stuck(ending.error))
            && (ending.Passed? ==> exists last :: Passing(ctx, end, last))
  {
    StartIsAtHead(ctx, implementation);
    RunKept(ctx, Start(ctx, implementation), implementation);
  }
}
