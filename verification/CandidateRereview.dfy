/** The run that passes every gate and is refused: its final tree was reviewed in an earlier attempt. */
module CandidateRereview {
  import opened Basics
  import opened CandidateEvidence
  import opened CandidateTransaction
  import opened CandidateAgreement
  import opened CandidateExecution

  const EVALUATOR := Identity("base", "tree-0")
  const CANDIDATE := Identity("work", "tree-1")
  const FIRST := Patch("patch-0", "implementation")
  const SECOND := Patch("patch-1", "repair")

  function Reviews(prefix: string, accepted: bool): seq<ReviewReply> {
    [ReviewReply(Codex, prefix + "codex", CANDIDATE, true, []),
     ReviewReply(Claude, prefix + "claude", CANDIDATE, accepted, [])]
  }

  /** An attempt that admits the candidate tree and passes everything but, perhaps, one review. */
  function Script(attempt: nat, patch: Patch, reviews: seq<ReviewReply>): Replies {
    var commands := [Command(attempt, CANDIDATE.tree)];
    var verifier := Verifier(CANDIDATE, true, []);
    Replies(false, EVALUATOR, Admitted(CANDIDATE, patch.payload), [], Built(BuildRecord(CANDIDATE, commands, 1)),
            Some([verifier, verifier, verifier]), Some(Mutation(commands, 1, true)), Some(reviews), true, [],
            false, Some(SECOND), false)
  }

  /** The first attempt is refused by one review; the repair has another payload and the same tree. */
  function Scripted(attempt: nat): Replies {
    if attempt == 0 then Script(0, FIRST, Reviews("first-", false)) else Script(1, SECOND, Reviews("second-", true))
  }

  const INVOCATIONS: seq<Expectation> := [
    Expectation("architecture-codex", Architecture, "tree-0", Some(Codex), None),
    Expectation("architecture-claude", Architecture, "tree-0", Some(Claude), None),
    Expectation("implementation", Implementation, "tree-0", None, Some("patch-0")),
    Expectation("first-codex", Review, "tree-1", Some(Codex), None),
    Expectation("first-claude", Review, "tree-1", Some(Claude), None),
    Expectation("repair", Repair, "tree-1", None, Some("patch-1")),
    Expectation("second-codex", Review, "tree-1", Some(Codex), None),
    Expectation("second-claude", Review, "tree-1", Some(Claude), None)]

  function Runtime(expected: seq<Expectation>): (native: seq<Native>)
    ensures |native| == |expected|
    ensures forall i | 0 <= i < |expected| ::
              native[i] == Native(expected[i].id, expected[i].operation, expected[i].tree,
                                  if expected[i].host.Some? then expected[i].host.value else Codex, expected[i].patch)
  {
    if expected == [] then []
    else
      var e := expected[|expected| - 1];
      Runtime(expected[..|expected| - 1])
      + [Native(e.id, e.operation, e.tree, if e.host.Some? then e.host.value else Codex, e.patch)]
  }

  const CONTEXT := Context(EVALUATOR, 1, [("architecture-codex", Codex), ("architecture-claude", Claude)],
                           (attempt: nat) => Scripted(attempt), Some(Runtime(INVOCATIONS)), true, true)

  lemma RuntimeIsOrdered()
    ensures InOrder(Runtime(INVOCATIONS), INVOCATIONS) && DistinctIds(Runtime(INVOCATIONS))
  {
    DistinctInvocations();
  }

  lemma DistinctInvocations()
    ensures forall i, j | 0 <= i < j < |INVOCATIONS| :: INVOCATIONS[i].id != INVOCATIONS[j].id
  {
    assert |"architecture-codex"| == 18 && |"architecture-claude"| == 19 && |"implementation"| == 14;
    assert |"first-codex"| == 11 && |"first-claude"| == 12 && |"repair"| == 6;
    assert |"second-codex"| == 12 && |"second-claude"| == 13;
    assert "first-claude"[0] == 'f' && "second-codex"[0] == 's';
  }

  const BEGUN := State([], [], 0, INVOCATIONS[..3], None, [])

  lemma StartsAsScripted()
    ensures Start(CONTEXT, FIRST) == BEGUN
  {
    assert ArchitectureExpectations(CONTEXT) == INVOCATIONS[..2];
    assert INVOCATIONS[..3] == INVOCATIONS[..2] + [INVOCATIONS[2]];
  }

  const REASONS := ["HARNESS_REVIEW_REJECTED_WITHOUT_REASON"]
  const DRAFT := Draft(0, 1, PostAdmission, ReviewTrigger, BuildPassed, "patch-0", "patch-1", CANDIDATE, None, None,
                       REASONS, "repair")

  lemma FirstReviewsRefuse()
    ensures ReviewFailures(Reviews("first-", false)) == REASONS && ReviewFailures(Reviews("second-", true)) == []
  {
    var first, second := Reviews("first-", false), Reviews("second-", true);
    assert first[..1] == [first[0]] && first[..1][..0] == [] && second[..1] == [second[0]] && second[..1][..0] == [];
    assert ReviewFailures([first[0]]) == [] && ReviewFailures([second[0]]) == [];
  }

  lemma VerifiersPass(verifier: Verifier)
    requires verifier.passed
    ensures VerifierFailures([verifier, verifier, verifier]) == []
  {
    var all := [verifier, verifier, verifier];
    assert all[..2] == [verifier, verifier] && all[..2][..1] == [verifier] && all[..2][..1][..0] == [];
    assert VerifierFailures([verifier]) == [] && VerifierFailures([verifier, verifier]) == [];
  }

  lemma FirstAttempt()
    ensures Attempt(CONTEXT, Scripted(0), BEGUN, FIRST).Again?
    ensures var next := Attempt(CONTEXT, Scripted(0), BEGUN, FIRST);
            && next.patch == SECOND && next.state.repairCount == 1 && next.state.drafts == [DRAFT]
            && next.state.patches == ["patch-0"] && next.state.invocations == INVOCATIONS[..6]
  {
    FirstReviewsRefuse();
    VerifiersPass(Verifier(CANDIDATE, true, []));
    assert "tree-1"[5] == '1' && "tree-0"[5] == '0' && "patch-1"[6] == '1' && "patch-0"[6] == '0';
    assert "first-" + "codex" == "first-codex" && "first-" + "claude" == "first-claude";
    assert |"first-codex"| == 11 && |"first-claude"| == 12 && |"implementation"| == 14;
    assert INVOCATIONS[..4] == INVOCATIONS[..3] + [INVOCATIONS[3]];
    assert INVOCATIONS[..5] == INVOCATIONS[..4] + [INVOCATIONS[4]];
    assert INVOCATIONS[..6] == INVOCATIONS[..5] + [INVOCATIONS[5]];
  }

  lemma ResetIsFilled()
    ensures CompleteReset([DRAFT], 1, EVALUATOR, "patch-1") == Success([DRAFT.(reset := Some(EVALUATOR))])
  {
    var drafts := [DRAFT];
    assert drafts[..0] == [] && Pending(drafts[0], 1);
    assert PendingAt(drafts[..0], 1) == [] && PendingAt(drafts, 1) == [0];
    assert drafts[0 := drafts[0].(reset := Some(EVALUATOR))] == [DRAFT.(reset := Some(EVALUATOR))];
  }

  lemma SecondAttempt(st: State)
    requires st.repairCount == 1 && st.drafts == [DRAFT] && st.patches == ["patch-0"]
             && st.invocations == INVOCATIONS[..6]
    ensures var next := Attempt(CONTEXT, Scripted(1), st, SECOND);
            next.Done? && next.ending == Passed && next.end.invocations == INVOCATIONS && next.end.admission.Some?
            && next.end.admission.value.candidate == CANDIDATE
  {
    FirstReviewsRefuse();
    VerifiersPass(Verifier(CANDIDATE, true, []));
    assert "tree-1"[5] == '1' && "tree-0"[5] == '0';
    assert "second-" + "codex" == "second-codex" && "second-" + "claude" == "second-claude";
    assert |"second-codex"| == 12 && |"second-claude"| == 13 && |"repair"| == 6;
    ResetIsFilled();
    assert INVOCATIONS[..7] == INVOCATIONS[..6] + [INVOCATIONS[6]];
    assert INVOCATIONS[..8] == INVOCATIONS[..7] + [INVOCATIONS[7]] == INVOCATIONS;
  }

  lemma RunsOn(ctx: Context, st: State, patch: Patch, next: Next)
    requires st.repairCount <= ctx.maxRepairs && next == Attempt(ctx, ctx.replies(st.repairCount), st, patch)
    ensures next.Done? ==> Run(ctx, st, patch) == (next.end, next.ending)
    ensures next.Again?
            ==> next.state.repairCount <= ctx.maxRepairs && Run(ctx, st, patch) == Run(ctx, next.state, next.patch)
  {
    RetriesOnlyWithinBudget(ctx, ctx.replies(st.repairCount), st, patch);
  }

  lemma ScriptedRun()
    ensures var (end, ending) := Run(CONTEXT, Start(CONTEXT, FIRST), FIRST);
            && ending.Passed? && end.invocations == INVOCATIONS && end.admission.Some?
            && end.admission.value.candidate == CANDIDATE
  {
    StartsAsScripted();
    FirstAttempt();
    var next := Attempt(CONTEXT, Scripted(0), BEGUN, FIRST);
    SecondAttempt(next.state);
    RunsOn(CONTEXT, BEGUN, FIRST, next);
    RunsOn(CONTEXT, next.state, SECOND, Attempt(CONTEXT, Scripted(1), next.state, SECOND));
  }

  /** The scripted run passes every gate, and still ends failed, with a passing receipt before the failing one. */
  lemma PassingReceiptThenFailure()
    ensures var (end, ending) := Run(CONTEXT, Start(CONTEXT, FIRST), FIRST);
            var outcome := Conclude(CONTEXT, end, ending);
            && ending.Passed? && !FinalTreeIsFresh(end) && outcome.status != Pass
            && |outcome.receipts| == 2 && outcome.receipts[0].status == Pass && outcome.receipts[1].status == Fail
  {
    ScriptedRun();
    RuntimeIsOrdered();
    BothHosts();
    var end := Run(CONTEXT, Start(CONTEXT, FIRST), FIRST).0;
    assert end.invocations[3].operation.Review? && end.invocations[3].tree == CANDIDATE.tree;
    PassingRunConcludes(CONTEXT, FIRST);
  }

  lemma BothHosts()
    ensures DualHost(CONTEXT.architectures)
  {
    assert CONTEXT.architectures[0].1 == Codex && CONTEXT.architectures[1].1 == Claude;
  }
}
