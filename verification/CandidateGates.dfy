/** What a passing candidate met, and which tree every recorded command ran on. */
module CandidateGates {
  import opened Basics
  import opened CandidateEvidence
  import opened CandidateTransaction

  /** A rejection always carries a reason, so no reasons means every verifier passed. */
  lemma {:induction false} NoSilentVerifier(verifiers: seq<Verifier>)
    ensures VerifierFailures(verifiers) == [] <==> forall i | 0 <= i < |verifiers| :: verifiers[i].passed
  {
    if verifiers != [] {
      var front := verifiers[..|verifiers| - 1];
      NoSilentVerifier(front);
      assert forall i | 0 <= i < |front| :: front[i] == verifiers[i];
    }
  }

  lemma {:induction false} NoSilentReview(reviews: seq<ReviewReply>)
    ensures ReviewFailures(reviews) == [] <==> forall i | 0 <= i < |reviews| :: reviews[i].accepted
  {
    if reviews != [] {
      var front := reviews[..|reviews| - 1];
      NoSilentReview(front);
      assert forall i | 0 <= i < |front| :: front[i] == reviews[i];
    }
  }

  /** The candidate that ends admitted was built, verified by all three stages, mutated, reviewed and accepted
      by both hosts, and passed the final gates, all in the last attempt and all on the admitted identity. */
  ghost predicate EveryGateMet(r: Replies, end: State) {
    && end.admission.Some?
    && var admitted := end.admission.value;
       && r.admission == Admitted(admitted.candidate, admitted.patchDigest) && r.admissionFailures == []
       && r.build.Built? && r.build.record.candidate == admitted.candidate
       && r.verifiers.Some? && |r.verifiers.value| == 3
       && (forall i | 0 <= i < 3 :: r.verifiers.value[i].passed && r.verifiers.value[i].candidate == admitted.candidate)
       && r.mutation.Some? && r.mutation.value.passed
       && r.reviews.Some? && |r.reviews.value| == 2
       && (forall i | 0 <= i < 2 :: r.reviews.value[i].accepted && r.reviews.value[i].candidate == admitted.candidate)
       && r.externalGates && r.finalFailures == []
       && |end.patches| > 0 && end.patches[|end.patches| - 1] == admitted.patchDigest
  }

  lemma PassingAttemptMetEveryGate(ctx: Context, r: Replies, head: State, patch: Patch)
    requires Attempt(ctx, r, head, patch).Done? && Attempt(ctx, r, head, patch).ending.Passed?
    ensures EveryGateMet(r, Attempt(ctx, r, head, patch).end)
  {
    NoSilentVerifier(r.verifiers.value);
    NoSilentReview(r.reviews.value);
  }

  lemma {:induction false} PassingRunMetEveryGate(ctx: Context, st: State, patch: Patch)
    requires st.repairCount <= ctx.maxRepairs && Run(ctx, st, patch).1.Passed?
    ensures var end := Run(ctx, st, patch).0;
            EveryGateMet(ctx.replies(end.repairCount), end)
    decreases ctx.maxRepairs - st.repairCount
  {
    var r := ctx.replies(st.repairCount);
    RetriesOnlyWithinBudget(ctx, r, st, patch);
    var next := Attempt(ctx, r, st, patch);
    if next.Again? {
      PassingRunMetEveryGate(ctx, next.state, next.patch);
    } else {
      PassingAttemptMetEveryGate(ctx, r, st, patch);
    }
  }

  // ----- Commands -----

  /** The command ran in an attempt that has a repair draft, on the tree that draft replaced. */
  ghost predicate Superseded(c: Command, st: State) {
    0 <= c.attempt < |st.drafts| && st.drafts[c.attempt].sourceCandidate.tree == c.tree
  }

  /** The command ran in the current attempt, on the admitted tree. */
  ghost predicate Current(c: Command, st: State) {
    c.attempt == |st.drafts| && st.admission.Some? && st.admission.value.candidate.tree == c.tree
  }

  ghost predicate TracedAtHead(st: State) {
    |st.drafts| == st.repairCount && forall c | c in st.commands :: Superseded(c, st)
  }

  ghost predicate Traced(st: State) {
    |st.drafts| == st.repairCount && forall c | c in st.commands :: Superseded(c, st) || Current(c, st)
  }

  ghost predicate NextTraced(next: Next) {
    match next
    case Again(state, _) => TracedAtHead(state)
    case Done(end, _) => Traced(end)
  }

  lemma RepairTraced(ctx: Context, r: Replies, st: State, patch: Patch, reasons: seq<string>, trigger: Trigger,
                     repairReset: Option<Identity>)
    requires Traced(st)
    ensures NextTraced(RepairOrFail(ctx, r, st, patch, reasons, trigger, repairReset))
  {
  }

  lemma RecordTraced(st: State, commands: seq<Command>)
    requires Traced(st) && st.admission.Some?
             && CommandsBound(commands, st.repairCount, st.admission.value.candidate.tree)
    ensures Traced(st.(commands := st.commands + commands))
  {
    var after := st.(commands := st.commands + commands);
    forall c | c in after.commands
      ensures Superseded(c, after) || Current(c, after)
    {
      if c in st.commands {
        assert Superseded(c, st) || Current(c, st);
      }
    }
  }

  lemma ReviewStageTraced(ctx: Context, r: Replies, st: State, patch: Patch, candidate: Identity)
    requires Traced(st)
    ensures NextTraced(ReviewStage(ctx, r, st, patch, candidate))
  {
    if r.reviews.Some? && Independent(patch.author, r.reviews.value) {
      var reviews := r.reviews.value;
      var one := st.(invocations := st.invocations + [ReviewExpectation(reviews[0], candidate.tree)]);
      var both := one.(invocations := one.invocations + [ReviewExpectation(reviews[1], candidate.tree)]);
      assert Traced(one) && Traced(both);
      RepairTraced(ctx, r, both, patch, ReviewFailures(reviews), ReviewTrigger, None);
      RepairTraced(ctx, r, both, patch, r.finalFailures, FinalAdmission, None);
    }
  }

  lemma BuildStageTraced(ctx: Context, r: Replies, st: State, patch: Patch, candidate: Identity)
    requires Traced(st) && st.admission.Some? && st.admission.value.candidate == candidate
    ensures NextTraced(BuildStage(ctx, r, st, patch, candidate))
  {
    if !r.build.BuildThrew? && BuildProblem(r.build.record, st, candidate).None? {
      var built := st.(commands := st.commands + r.build.record.commands);
      RecordTraced(st, r.build.record.commands);
      if r.build.BuildRefused? {
        RepairTraced(ctx, r, built, patch, r.build.reasons, Build, None);
      } else {
        VerifyStageTraced(ctx, r, built, patch, candidate);
      }
    }
  }

  lemma VerifyStageTraced(ctx: Context, r: Replies, st: State, patch: Patch, candidate: Identity)
    requires Traced(st) && st.admission.Some? && st.admission.value.candidate == candidate
    ensures NextTraced(VerifyStage(ctx, r, st, patch, candidate))
  {
    if r.verifiers.Some? {
      RepairTraced(ctx, r, st, patch, VerifierFailures(r.verifiers.value), Verification, None);
    }
    if r.mutation.Some? && MutationProblem(r.mutation, st, candidate.tree).None? {
      RecordTraced(st, r.mutation.value.commands);
      ReviewStageTraced(ctx, r, st.(commands := st.commands + r.mutation.value.commands), patch, candidate);
    }
  }

  /** Completing resets fills in a draft without touching what it replaced. */
  lemma CompleteKeepsSources(drafts: seq<Draft>, attempt: int, reset: Identity, patch: string)
    requires CompleteReset(drafts, attempt, reset, patch).Success?
    ensures var completed := CompleteReset(drafts, attempt, reset, patch).value;
            |completed| == |drafts|
            && forall k | 0 <= k < |drafts| :: completed[k].sourceCandidate == drafts[k].sourceCandidate
  {
    PendingAtIndices(drafts, attempt);
  }

  lemma AttemptTraced(ctx: Context, r: Replies, head: State, patch: Patch)
    requires TracedAtHead(head)
    ensures NextTraced(Attempt(ctx, r, head, patch))
  {
    var completed := CompleteReset(head.drafts, head.repairCount, r.reset, patch.payload);
    if !r.aborted && r.reset == ctx.evaluator && completed.Success? {
      CompleteKeepsSources(head.drafts, head.repairCount, r.reset, patch.payload);
      var st := head.(admission := None, patches := head.patches + [patch.payload], drafts := completed.value);
      assert forall c | c in st.commands :: Superseded(c, head) && Superseded(c, st);
      match r.admission
      case AdmitThrew =>
      case Refused(code, repairReset) => RepairTraced(ctx, r, st, patch, [code], PatchAdmission, Some(repairReset));
      case Admitted(candidate, patchDigest) =>
        var admitted := st.(admission := Some(Admit(candidate, patchDigest)));
        assert forall c | c in admitted.commands :: Superseded(c, st) && Superseded(c, admitted);
        RepairTraced(ctx, r, admitted, patch, r.admissionFailures, AdmissionValidation, None);
        BuildStageTraced(ctx, r, admitted, patch, candidate);
    }
  }

  /** Every command in the final evidence ran on the tree of its own attempt: a superseded candidate's
      command on the tree its repair replaced, the last attempt's on the tree that was admitted. */
  lemma {:induction false} CommandsNameTheirTrees(ctx: Context, st: State, patch: Patch)
    requires TracedAtHead(st) && st.repairCount <= ctx.maxRepairs
    ensures Traced(Run(ctx, st, patch).0)
    decreases ctx.maxRepairs - st.repairCount
  {
    var r := ctx.replies(st.repairCount);
    RetriesOnlyWithinBudget(ctx, r, st, patch);
    AttemptTraced(ctx, r, st, patch);
    var next := Attempt(ctx, r, st, patch);
    if next.Again? {
      CommandsNameTheirTrees(ctx, next.state, next.patch);
    }
  }

  lemma TransactionCommandsNameTheirTrees(ctx: Context, implementation: Patch)
    ensures Traced(Run(ctx, Start(ctx, implementation), implementation).0)
  {
    CommandsNameTheirTrees(ctx, Start(ctx, implementation), implementation);
  }
}
