/** What a caller may rely on after each complete operation. */
module OperationLaws {
  import opened Basics
  import opened Integration
  import opened Records
  import opened Workflows
  import opened Lifecycle
  import opened LifecycleInvariant
  import opened LifecycleSteps
  import opened LifecycleSaves
  import opened LifecycleClaims
  import opened LifecycleCustody
  import opened LifecycleTheorems
  import opened LifecycleCrash
  import opened Advancing
  import opened Prerequisites

  /** Records stay sound and keep their identity, the claim stays exact, and custody stays safe unless a
      claim lost to a crash was taken again. */
  ghost predicate Lawful(s: State, t: State, lost: bool) {
    && Durable(t) && Identified(s, t)
    && (ClaimExact(s) ==> ClaimExact(t))
    && (CustodySafe(s) && !lost ==> CustodySafe(t))
  }

  lemma PlanIsLawful(s: State, op: Operation)
    requires Durable(s) && Trusted(op)
    ensures Lawful(s, Perform(s, PlanOf(s, op).writes), !TakenSafely(s, op))
  {
    var count := |PlanOf(s, op).writes|;
    CutAll(PlanOf(s, op).writes);
    OperationStaysDurable(s, op, count);
    if ClaimExact(s) {
      SoundIsKeyed(s);
      OperationKeepsClaimExact(s, op);
    }
    if CustodySafe(s) && TakenSafely(s, op) {
      OperationStaysSafe(s, op, count);
    }
  }

  lemma CutAll(writes: seq<Write>)
    ensures Cut(writes, |writes|) == writes
  {
  }

  lemma RecordedSound(s: State, id: string)
    requires Durable(s) && id in s.records
    ensures Sound(s.records[id]) && s.records[id].task.id == id
  {
    assert Soundness()(RecordAt(s, id));
  }

  /** The run was checked and independently reviewed at its finished source. */
  ghost predicate ReviewedThere(run: Run) {
    var source := FinishedSource(run);
    && Delivered(run)
    && if run.integration.Some? then ReviewedOnIntegration(run, source) else ReviewedDirectly(run, source)
  }

  lemma FinishLeaves(s: State, id: string, owner: string, commit: Revision)
    requires WellKeyed(s) && FinishPlan(s, id, owner, commit).outcome.Done?
    ensures id in s.records
    ensures var plan := FinishPlan(s, id, owner, commit);
            var run := plan.outcome.run;
            && plan.writes == [Save(run), Release] && run.task.id == id && run.status == Complete
               && run.commit == Some(commit)
  {
  }

  /** A finished run is complete and released, and was finished in the very tree it was checked in. */
  lemma FinishResult(s: State, id: string, owner: string, commit: Revision)
    requires Durable(s) && FinishPlan(s, id, owner, commit).outcome.Done?
    ensures var t := Perform(s, FinishPlan(s, id, owner, commit).writes);
            && t.active.None? && t.files == s.files && id in t.records && t.records[id].status == Complete
            && t.records[id].commit == Some(commit) && FinishedSource(t.records[id]) == s.files
  {
    SoundIsKeyed(s);
    FinishUsesTheTreeItSees(s, id, owner, commit);
    FinishLeaves(s, id, owner, commit);
    PerformTwo(s, Save(FinishPlan(s, id, owner, commit).outcome.run), Release);
  }

  /** A complete record was checked and independently reviewed at its finished source. */
  lemma CompleteIsReviewed(t: State, id: string)
    requires Durable(t) && id in t.records && t.records[id].status == Complete
    ensures ReviewedThere(t.records[id])
  {
    RecordedSound(t, id);
    SoundIsReviewed(t.records[id]);
  }

  lemma SoundIsReviewed(run: Run)
    requires Sound(run) && run.status == Complete
    ensures ReviewedThere(run)
  {
    DeliveredIsReviewed(run);
  }

  lemma AppliedState(s: State, run: Run)
    requires run.integration.Some? && s.active in [None, Some(run.task.id)]
    requires run.task.id in s.records ==> s.records[run.task.id] == run
    ensures var replacements := Replacements(run.integration.value, run.task.scope);
            var t := Perform(s, TakenUp(s, run) + replacements + [Save(Marked(run))]);
            run.task.id in t.records && t.records[run.task.id] == Marked(run) && t.active == Some(run.task.id)
  {
    var replacements := Replacements(run.integration.value, run.task.scope);
    TakenUpRecords(s, run);
    ReplacementsAreQuiet(run.integration.value, run.task.scope);
    PerformAppend(s, TakenUp(s, run), replacements);
    QuietKeepsRecords(Perform(s, TakenUp(s, run)), replacements);
    PerformSnoc(s, TakenUp(s, run) + replacements, Save(Marked(run)));
  }

  /** What an integrated state holds. */
  ghost predicate IntegratedInto(t: State, id: string) {
    && id in t.records && t.records[id].integration.Some? && t.active == Some(id)
    && t.records[id].integration.value.prepared && t.files == t.records[id].integration.value.sourceAfter
  }

  lemma AppliedResult(s: State, input: IntegrationInput, c: Checkout, run: Run, plan: Plan)
    requires run.integration.Some? && EvidenceRecorded(run, run.integration.value) && run.task.id == input.id
    requires s.active in [None, Some(input.id)] && (input.id in s.records ==> s.records[input.id] == run)
    requires plan == ApplyPlan(s, run, input, c, TakenUp(s, run)) && plan.outcome.Done?
    ensures IntegratedInto(Perform(s, plan.writes), input.id)
  {
    MismatchIsUnreachable(s, run, input, c, TakenUp(s, run));
    AppliedState(s, run);
  }

  /** An integrated run is prepared and claimed, and the canonical tree is exactly the recorded one. */
  lemma IntegrateResult(s: State, input: IntegrationInput, c: Checkout)
    requires Durable(s) && Trusted(IntegrateCandidate(input, c)) && IntegratePlan(s, input, c).outcome.Done?
    ensures IntegratedInto(Perform(s, IntegratePlan(s, input, c).writes), input.id)
  {
    DoneIntegratesRun(s, input, c);
    var run :| IntegratesRun(s, input, c, run);
    IntegrationIsApplied(s, input, c, run);
    AppliedResult(s, input, c, run, IntegratePlan(s, input, c));
  }

  /** A check passed or failed as its command and the source say. */
  ghost predicate CheckPromised(s: State, t: State, id: string, checkId: string, command: Command) {
    && id in t.records && |t.records[id].checks| > 0
    && var check := t.records[id].checks[|t.records[id].checks| - 1];
       && check.spec.id == checkId
       && (CheckValid(t.records[id], checkId, t.files, t.environment, t.logs) <==> check.passed)
       && (check.passed <==> command.success && LeavesSource(s, command))
  }

  ghost predicate NextPromised(s: State, t: State, id: string, owner: string) {
    var plan := NextPlan(s, id, owner);
    plan.outcome.Acted? && plan.outcome.action.Native? ==>
      && NextPlan(t, id, owner) == plan && Perform(t, plan.writes) == t
      && id in t.records && PrerequisitesIntact(t.records[id], plan.outcome.action.request, t.environment, t.logs)
  }

  /** A native request is returned again, with the record as it is, and rests only on intact checks. */
  lemma NextResult(s: State, id: string, owner: string)
    requires Durable(s)
    ensures NextPromised(s, Perform(s, NextPlan(s, id, owner).writes), id, owner)
  {
    var plan := NextPlan(s, id, owner);
    if plan.outcome.Acted? && plan.outcome.action.Native? {
      NextGrants(s, id, owner, plan.outcome.action.request);
      RecordedSound(s, id);
      NextAgain(s, id, owner, plan.outcome.action.request);
      PerformOne(s, plan.writes[0]);
    }
  }

  /** What a submitted result adds: one sound result of this source, and a review only when it is grounded. */
  ghost predicate SubmittedTo(run: Run, now: Run, source: Tree, response: Response) {
    && now.workflow.results == run.workflow.results + [ResultOf(run, source, response)]
    && now.workflow.requests == run.workflow.requests && now.workflow.invalidated == run.workflow.invalidated
    && response.request in run.workflow.requests && Open(run.workflow, response.request) && response.source == source
    && SubmitMet(run, source, response)
  }

  lemma SubmitResult(s: State, id: string, owner: string, response: Response)
    requires Durable(s) && SubmitPlan(s, id, owner, response).outcome.Done?
    ensures id in s.records
    ensures SubmittedTo(s.records[id], SubmitPlan(s, id, owner, response).outcome.run, s.files, response)
  {
    SubmitAllowed(s, id, owner, response);
    SoundRecordBooks(s, id);
    SubmitGuards(s, s.records[id], s.files, response);
  }

  lemma SubmitAllowed(s: State, id: string, owner: string, response: Response)
    requires SubmitPlan(s, id, owner, response).outcome.Done?
    ensures id in s.records && SubmitRefusal(s, s.records[id], s.files, response).None?
    ensures var now := SubmitPlan(s, id, owner, response).outcome.run;
            now.workflow == Answer(s.records[id].workflow, ResultOf(s.records[id], s.files, response))
  {
  }

  /** A recorded check counts afterwards exactly when it passed, and only at an unchanged source. */
  lemma CheckResult(s: State, id: string, owner: string, checkId: string, command: Command)
    requires Durable(s) && CheckPlan(s, id, owner, checkId, command).outcome.Done?
    ensures CheckPromised(s, Perform(s, CheckPlan(s, id, owner, checkId, command).writes), id, checkId, command)
  {
    SoundIsKeyed(s);
    CheckRecords(s, id, owner, checkId, command);
    var t, run := Resulting(s, CheckPlan(s, id, owner, checkId, command)), s.records[id];
    var check := CheckOf(s, run, FindCheck(run.task, checkId).value, command);
    ThisCheckIsValid(s, t, run, t.records[id], check, command.files);
    if check.passed {
      PassedMeansQuiet(s, id, owner, checkId, command);
    }
  }

  ghost predicate FinishPromised(s: State, t: State, id: string, commit: Revision) {
    && t.active.None? && t.files == s.files && id in t.records && t.records[id].status == Complete
    && t.records[id].commit == Some(commit) && FinishedSource(t.records[id]) == s.files && ReviewedThere(t.records[id])
  }

  /** What each operation promises its caller. */
  ghost predicate Promised(s: State, op: Operation, outcome: Outcome, t: State) {
    match op
    case NextStep(id, owner) => NextPromised(s, t, id, owner)
    case RunDeclaredCheck(id, _, checkId, command) => outcome.Done? ==> CheckPromised(s, t, id, checkId, command)
    case SubmitResponse(id, _, response) =>
      outcome.Done? ==> id in s.records && SubmittedTo(s.records[id], outcome.run, s.files, response)
    case FinishRun(id, _, commit) => outcome.Done? ==> FinishPromised(s, t, id, commit)
    case ReconcileRun(id, _, _) => outcome.Done? ==> SettlesClaim(s, t, id)
    case IntegrateCandidate(input, _) => outcome.Done? ==> IntegratedInto(t, input.id)
    case _ => true
  }

  lemma LawfulIsDurable(s: State, op: Operation, plan: Plan)
    requires Durable(s) && Trusted(op) && plan == PlanOf(s, op)
    ensures Durable(Perform(s, plan.writes))
  {
    PlanIsLawful(s, op);
  }

  lemma FinishStaysDurable(s: State, id: string, owner: string, commit: Revision)
    requires Durable(s)
    ensures Durable(Perform(s, FinishPlan(s, id, owner, commit).writes))
  {
    LawfulIsDurable(s, FinishRun(id, owner, commit), FinishPlan(s, id, owner, commit));
  }

  lemma NextStaysDurable(s: State, id: string, owner: string)
    requires Durable(s)
    ensures Durable(Perform(s, NextPlan(s, id, owner).writes))
  {
    LawfulIsDurable(s, NextStep(id, owner), NextPlan(s, id, owner));
  }

  lemma CheckStaysDurable(s: State, id: string, owner: string, checkId: string, command: Command)
    requires Durable(s)
    ensures Durable(Perform(s, CheckPlan(s, id, owner, checkId, command).writes))
  {
    LawfulIsDurable(s, RunDeclaredCheck(id, owner, checkId, command), CheckPlan(s, id, owner, checkId, command));
  }

  lemma FinishIsPromised(s: State, id: string, owner: string, commit: Revision)
    requires Durable(s) && FinishPlan(s, id, owner, commit).outcome.Done?
    ensures FinishPromised(s, Perform(s, FinishPlan(s, id, owner, commit).writes), id, commit)
  {
    FinishStaysDurable(s, id, owner, commit);
    FinishResult(s, id, owner, commit);
    FinishedIsPromised(s, Perform(s, FinishPlan(s, id, owner, commit).writes), id, commit);
  }

  lemma FinishedIsPromised(s: State, t: State, id: string, commit: Revision)
    requires Durable(t) && t.active.None? && t.files == s.files && id in t.records && t.records[id].status == Complete
    requires t.records[id].commit == Some(commit) && FinishedSource(t.records[id]) == s.files
    ensures FinishPromised(s, t, id, commit)
  {
    CompleteIsReviewed(t, id);
  }

  lemma PlanIsPromised(s: State, op: Operation)
    requires Durable(s) && Trusted(op)
    ensures Promised(s, op, PlanOf(s, op).outcome, Perform(s, PlanOf(s, op).writes))
  {
    if op.NextStep? {
      NextResult(s, op.id, op.owner);
    } else if PlanOf(s, op).outcome.Done? {
      match op
      case RunDeclaredCheck(id, owner, checkId, command) => CheckResult(s, id, owner, checkId, command);
      case SubmitResponse(id, owner, response) => SubmitResult(s, id, owner, response);
      case FinishRun(id, owner, commit) => FinishIsPromised(s, id, owner, commit);
      case ReconcileRun(id, owner, reason) =>
        SoundIsKeyed(s);
        ReconcileRestores(s, id, owner, reason);
      case IntegrateCandidate(input, c) => IntegrateResult(s, input, c);
      case _ =>
    }
  }

  // ----- The check loop -----

  /** Checks `advance` may still run. */
  function ChecksLeft(s: State, id: string, owner: string): nat {
    if AsksCheck(NextPlan(s, id, owner).outcome) then MissingCount(s, id) else 0
  }

  /** One turn of the loop: next, then the check it asks for, leaves fewer checks to run. */
  lemma CheckAskedTurn(s: State, id: string, owner: string, command: Command)
    requires Durable(s)
    ensures Durable(Perform(s, NextPlan(s, id, owner).writes))
    ensures AsksCheck(NextPlan(s, id, owner).outcome) ==>
              var u, checkId := Resulting(s, NextPlan(s, id, owner)), NextPlan(s, id, owner).outcome.action.id;
              var t := Resulting(u, CheckPlan(u, id, owner, checkId, command));
              && Durable(t)
              && (CheckPlan(u, id, owner, checkId, command).outcome.Done? ==>
                    ChecksLeft(t, id, owner) < ChecksLeft(s, id, owner))
  {
    NextStaysDurable(s, id, owner);
    if AsksCheck(NextPlan(s, id, owner).outcome) {
      var u, checkId := Resulting(s, NextPlan(s, id, owner)), NextPlan(s, id, owner).outcome.action.id;
      NextAsksCheck(s, id, owner, checkId);
      CheckLeavesFewer(u, id, owner, checkId, command);
    }
  }

  lemma CheckLeavesFewer(u: State, id: string, owner: string, checkId: string, command: Command)
    requires Durable(u) && Checking(u, id, checkId)
    ensures var t := Resulting(u, CheckPlan(u, id, owner, checkId, command));
            && Durable(t)
            && (CheckPlan(u, id, owner, checkId, command).outcome.Done? ==>
                  ChecksLeft(t, id, owner) < MissingCount(u, id))
  {
    CheckStaysDurable(u, id, owner, checkId, command);
    if CheckPlan(u, id, owner, checkId, command).outcome.Done? {
      CheckTurn(u, id, owner, checkId, command);
    }
  }
}
