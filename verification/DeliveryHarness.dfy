/** The next transition as the program takes it, one change at a time. */
module NextTransition {
  import opened Basics
  import opened Integration
  import opened Records
  import opened Workflows
  import opened Lifecycle

  /** `validChecks`: the declared checks whose latest result counts for this source. */
  method CollectValid(run: Run, source: Tree, environment: string, logs: map<Log, string>) returns (valid: set<string>)
    ensures valid == ValidChecks(run, source, environment, logs)
  {
    valid := {};
    for i := 0 to |run.task.checks|
      invariant valid == set k | 0 <= k < i && CheckValid(run, run.task.checks[k].id, source, environment, logs) ::
                run.task.checks[k].id
    {
      if CheckValid(run, run.task.checks[i].id, source, environment, logs) {
        valid := valid + {run.task.checks[i].id};
      }
    }
  }

  lemma {:induction false} FirstWhereAt<T>(s: seq<T>, p: T -> bool, i: nat)
    requires i < |s| && p(s[i]) && forall k | 0 <= k < i :: !p(s[k])
    ensures FirstWhere(s, p) == Some(s[i])
  {
    if i > 0 {
      assert !p(s[0]);
      FirstWhereAt(s[1..], p, i - 1);
    }
  }

  lemma {:induction false} FirstWhereNone<T>(s: seq<T>, p: T -> bool)
    requires forall x | x in s :: !p(x)
    ensures FirstWhere(s, p).None?
  {
    if s != [] {
      FirstWhereNone(s[1..], p);
    }
  }

  /** The loop over the declared checks stops at the first that does not count. */
  method FindMissing(task: Task, valid: set<string>) returns (missing: Option<CheckSpec>)
    ensures missing == FirstMissing(task, valid)
  {
    for i := 0 to |task.checks|
      invariant forall k | 0 <= k < i :: task.checks[k].id in valid
    {
      if task.checks[i].id !in valid {
        FirstWhereAt(task.checks, (check: CheckSpec) => check.id !in valid, i);
        return Some(task.checks[i]);
      }
    }
    FirstWhereNone(task.checks, (check: CheckSpec) => check.id !in valid);
    return None;
  }

  /** The implementation is attested: the first declared check that does not count decides, then review. */
  method AfterAttestation(run: Run, now: Run, source: Tree, valid: set<string>, implementation: StageResult)
    returns (decision: Decision)
    requires now == DropPending(run)
    ensures decision == NextAttested(run, source, valid, implementation)
  {
    var stage, repair := Implementation, false;
    var feedback: seq<Feedback>, prerequisites: seq<Digest> := [], [];
    var missing := FindMissing(run.task, valid);
    if missing.Some? {
      if !FailedAt(run, missing.value.id, source) {
        return Decided(now, RunCheck(missing.value.id));
      }
      var check := LatestCheck(run.checks, missing.value.id).value;
      repair, feedback, prerequisites := true, [CheckFailed(check)], [OfCheck(check)];
    }
    if feedback == [] {
      if DirectReady(now, source) {
        return Decided(now, ReadyToCommit(source));
      }
      stage, prerequisites := Review, ReviewPrerequisites(run, implementation);
    }
    var request := NewRequest(now, source, stage, repair, prerequisites, feedback);
    return Decided(WithWorkflow(now, Append(now.workflow, request)), Native(request));
  }

  /** A refused last result and a moved source each add their feedback and prerequisite. */
  method AskForImplementation(run: Run, now: Run, source: Tree) returns (decision: Decision)
    requires now == DropPending(run)
    ensures decision == NextImplementation(run, source)
  {
    var implementation, last := LastImplementation(run.workflow.results), LastSettled(run.workflow.results);
    var repair := false;
    var feedback: seq<Feedback>, prerequisites: seq<Digest> := [], [];
    if last.Some? && !last.value.accepted {
      repair, feedback, prerequisites := true, [Rejected(last.value)], [OfResult(last.value)];
    }
    if implementation.Some? && implementation.value.accepted && implementation.value.response.source != source {
      feedback, prerequisites := feedback + [SourceChanged], prerequisites + [OfResult(implementation.value)];
    }
    var moved := implementation.Some? && implementation.value.accepted
      && implementation.value.response.source != source;
    assert prerequisites == (if repair then [OfResult(last.value)] else [])
           + (if moved then [OfResult(implementation.value)] else []);
    assert feedback == (if repair then [Rejected(last.value)] else []) + (if moved then [SourceChanged] else []);
    var request := NewRequest(now, source, Implementation, repair, prerequisites, feedback);
    return Decided(WithWorkflow(now, Append(now.workflow, request)), Native(request));
  }

  /** `nextWorkflowAction` for a run authored here: a current pending request is returned, a stale one dropped. */
  method NextWorkflowAction(run: Run, source: Tree, valid: set<string>) returns (decision: Decision)
    requires run.integration.None?
    ensures decision == NextAction(run, source, valid)
  {
    var pending, now := Pending(run.workflow), run;
    if pending.Some? {
      if PendingIsCurrent(run, pending.value, source, valid) {
        return Decided(run, Native(pending.value));
      }
      now := WithWorkflow(run, Invalidate(run.workflow, pending.value));
    }
    var implementation, last := LastImplementation(run.workflow.results), LastSettled(run.workflow.results);
    if implementation.Some? && implementation.value.accepted && implementation.value.response.source == source
       && last.Some? && last.value.accepted {
      decision := AfterAttestation(run, now, source, valid, implementation.value);
    } else {
      decision := AskForImplementation(run, now, source);
    }
  }

  /** `nextIntegrationAction`: the first declared check that does not count decides, then a review that cites the
      preserved candidate is returned, refused, or asked for. */
  method NextIntegrationAction(run: Run, source: Tree, valid: set<string>) returns (decision: Decision)
    requires run.integration.Some?
    ensures decision == NextAction(run, source, valid)
  {
    if !IntegrationSourceReady(run, source) {
      return SourceMismatch;
    }
    var missing := FindMissing(run.task, valid);
    if missing.Some? {
      var failed := FailedAt(run, missing.value.id, source);
      return Decided(run, if failed then Stopped(IntegrationCheckFailed) else RunCheck(missing.value.id));
    }
    if !ReviewNeeded(run) || IntegrationReviewReady(run, source) {
      return Decided(run, ReadyToCommit(source));
    }
    decision := ReviewIntegration(run, source, valid);
  }

  /** A current pending review is returned and a stale one dropped; a refused review stops the run. */
  method ReviewIntegration(run: Run, source: Tree, valid: set<string>) returns (decision: Decision)
    requires run.integration.Some? && IntegrationSourceReady(run, source) && FirstMissing(run.task, valid).None?
    requires ReviewNeeded(run) && !IntegrationReviewReady(run, source)
    ensures decision == NextIntegrated(run, source, valid)
  {
    var now, pending := run, Pending(run.workflow);
    if pending.Some? {
      if pending.value.source == source && pending.value.evidence == EvidenceOf(run)
         && pending.value.prerequisites == IntegrationPrerequisites(run) {
        return Decided(run, Native(pending.value));
      }
      now := WithWorkflow(run, Invalidate(run.workflow, pending.value));
    }
    decision := AskForReview(run, now, source);
  }

  method AskForReview(run: Run, now: Run, source: Tree) returns (decision: Decision)
    requires run.integration.Some? && now == DropPending(run)
    ensures var e, w := run.integration.value, run.workflow;
            decision == if |e.original.workflow.results| < |w.results| && !w.results[|w.results| - 1].accepted
                        then Decided(now, Stopped(IntegrationReviewFailed))
                        else Ask(now, source, Review, false, IntegrationPrerequisites(run),
                                 [Revalidate(e.revalidation.Some?, ReviewPaths(run))])
  {
    var original, results := run.integration.value.original, run.workflow.results;
    if |original.workflow.results| < |results| && !results[|results| - 1].accepted {
      return Decided(now, Stopped(IntegrationReviewFailed));
    }
    var request := NewRequest(now, source, Review, false, IntegrationPrerequisites(run),
                              [Revalidate(run.integration.value.revalidation.Some?, ReviewPaths(run))]);
    return Decided(WithWorkflow(now, Append(now.workflow, request)), Native(request));
  }

  /** `invalidatePending`: the loop over all requests. */
  method InvalidatePending(w: Workflow) returns (v: Workflow)
    ensures v == InvalidateOpen(w, |w.requests|)
  {
    v := w;
    for i := 0 to |w.requests|
      invariant v == InvalidateOpen(w, i)
    {
      if Open(v, w.requests[i]) {
        v := Invalidate(v, w.requests[i]);
      }
    }
  }
}

/** The harness object: durable fields changed one write at a time. */
module Harness {
  import opened Basics
  import opened Integration
  import opened Records
  import opened Workflows
  import opened Prerequisites
  import opened Lifecycle
  import opened LifecycleSaves
  import opened LifecycleClaims
  import opened LifecycleCustody
  import opened LifecycleCrash
  import opened Advancing
  import opened OperationLaws
  import opened NextTransition
  import Reservations
  import Apply = IntegrationApply

  const CANCELLED := "deterministic check cancelled; explicit resume required"

  class DeliveryHarness {
    const kind: Kind
    var names: seq<string>
    var records: map<string, Run>
    var active: Option<string>
    var files: Tree
    var head: Revision
    var environment: string
    var logs: map<Log, string>
    var pools: Reservations.Pools
    var busy: set<string>
    /** The durable writes so far, in order: a crash leaves a prefix. */
    ghost var journal: seq<Write>

    ghost function View(): State reads this {
      State(kind, names, records, active, files, head, environment, logs, pools, busy)
    }

    function Now(): State reads this {
      State(kind, names, records, active, files, head, environment, logs, pools, busy)
    }

    constructor (kind: Kind, files: Tree, head: Revision, environment: string)
      ensures View() == State(kind, [], map[], None, files, head, environment, map[], [], {}) && journal == []
    {
      this.kind, this.files, this.head, this.environment := kind, files, head, environment;
      names, records, active, logs, pools, busy, journal := [], map[], None, map[], [], {}, [];
    }

    /** The plan's writes were made, in order, and nothing else. */
    twostate predicate Wrote(writes: seq<Write>) reads this {
      View() == Perform(old(View()), writes) && journal == old(journal) + writes
    }

    // ----- Durable writes -----

    method SaveRun(run: Run)
      modifies this`names, this`records, this`journal
      ensures View() == Put(old(View()), Save(run)) && journal == old(journal) + [Save(run)]
    {
      if run.task.id !in records {
        names := names + [run.task.id];
      }
      records, journal := records[run.task.id := run], journal + [Save(run)];
    }

    method TakeClaim(id: string)
      modifies this`active, this`journal
      ensures View() == Put(old(View()), Claim(id)) && journal == old(journal) + [Claim(id)]
    {
      active, journal := Some(id), journal + [Claim(id)];
    }

    method ReleaseClaim()
      modifies this`active, this`journal
      ensures View() == Put(old(View()), Release) && journal == old(journal) + [Release]
    {
      active, journal := None, journal + [Release];
    }

    method ReplaceFile(path: Path, content: Option<string>)
      modifies this`files, this`journal
      ensures View() == Put(old(View()), Replace(path, content)) && journal == old(journal) + [Replace(path, content)]
    {
      files := if content.Some? then files[path := content.value] else files - {path};
      journal := journal + [Replace(path, content)];
    }

    method RunCommand(command: Command)
      modifies this`files, this`head, this`journal
      ensures var ran := CommandRan(command.files, command.head);
              View() == Put(old(View()), ran) && journal == old(journal) + [ran]
    {
      files, head, journal := command.files, command.head, journal + [CommandRan(command.files, command.head)];
    }

    method AppendLog(log: Log, text: string)
      modifies this`logs, this`journal
      ensures View() == Put(old(View()), WriteLog(log, text)) && journal == old(journal) + [WriteLog(log, text)]
    {
      logs, journal := logs[log := text], journal + [WriteLog(log, text)];
    }

    method StoreRun(run: Run) returns (outcome: Outcome)
      modifies this`names, this`records, this`journal
      ensures outcome == Done(run) && Wrote([Save(run)])
    {
      PerformOne(View(), Save(run));
      SaveRun(run);
      return Done(run);
    }

    method SaveAndRelease(run: Run) returns (outcome: Outcome)
      modifies this`names, this`records, this`active, this`journal
      ensures outcome == Done(run) && Wrote([Save(run), Release])
    {
      PerformTwo(View(), Save(run), Release);
      SaveRun(run);
      ReleaseClaim();
      return Done(run);
    }

    method SaveAndClaim(run: Run, id: string) returns (outcome: Outcome)
      modifies this`names, this`records, this`active, this`journal
      ensures outcome == Done(run) && Wrote([Save(run), Claim(id)])
    {
      PerformTwo(View(), Save(run), Claim(id));
      SaveRun(run);
      TakeClaim(id);
      return Done(run);
    }

    // ----- Operations -----

    method Begin(task: Task) returns (outcome: Outcome)
      modifies this
      ensures outcome == BeginPlan(old(View()), task).outcome && Wrote(BeginPlan(old(View()), task).writes)
    {
      if AnyReservation(Now()) {
        return Refused(ActiveCandidates);
      }
      if task.id in records {
        return Refused(RunAlreadyExists);
      }
      if Dirty(Now(), task.scope) != task.adopted {
        return Refused(AdoptionMismatch);
      }
      var run := Run(task, SelectRoute(task), head, Outside(files, Elements(task.scope)), AwaitingNative, [], [], [],
                     Workflow([], [], []), None, None, None);
      if active.Some? {
        return Refused(WriterAlreadyClaimed);
      }
      outcome := SaveAndClaim(run, task.id);
    }

    /** Read the record, then check ownership, then the source. */
    method GrantAccess(id: string, owner: string, needHandoff: bool) returns (access: Access)
      ensures access == Authorize(View(), id, owner, needHandoff)
    {
      if id !in records {
        return Denied(RecordMissing);
      }
      var run := records[id];
      var owned := Own(Now(), run, owner, needHandoff);
      if owned.Some? {
        return Denied(owned.value);
      }
      var moved := SourceRefusal(Now(), run);
      if moved.Some? {
        return Denied(moved.value);
      }
      return Granted(run, files);
    }

    method Bind(id: string, owner: string, handoff: Handoff) returns (outcome: Outcome)
      modifies this
      ensures var plan := BindPlan(old(View()), id, owner, handoff); outcome == plan.outcome && Wrote(plan.writes)
    {
      var access := GrantAccess(id, owner, false);
      if access.Denied? {
        return Refused(access.why);
      }
      var run := access.run;
      if run.status != AwaitingNative {
        return Refused(HandoffAlreadyBound);
      }
      if handoff.route != run.route {
        return Refused(RouteMismatch);
      }
      run := run.(handoffs := run.handoffs + [handoff]);
      run := run.(status := Active);
      outcome := StoreRun(run);
    }

    method Next(id: string, owner: string) returns (outcome: Outcome)
      modifies this
      ensures var plan := NextPlan(old(View()), id, owner); outcome == plan.outcome && Wrote(plan.writes)
    {
      if id !in records {
        return Refused(RecordMissing);
      }
      if records[id].task.owner != owner {
        return Refused(WriterMismatch);
      }
      if records[id].status == Paused {
        return Acted(Stopped(OperatorPaused));
      }
      var access := GrantAccess(id, owner, true);
      if access.Denied? {
        return Refused(access.why);
      }
      var decision := Decide(access.run, access.source);
      if decision.SourceMismatch? {
        return Refused(SourceNotReady);
      }
      if decision.action.Native? {
        var intact := AssertPrerequisites(decision.run, decision.action.request, environment, logs);
        if !intact {
          return Refused(StalePrerequisites);
        }
      }
      var _ := StoreRun(decision.run);
      return Acted(decision.action);
    }

    method Decide(run: Run, source: Tree) returns (decision: Decision)
      ensures decision == NextAction(run, source, Valid(View(), run, source))
    {
      var valid := CollectValid(run, source, environment, logs);
      if run.integration.Some? {
        decision := NextIntegrationAction(run, source, valid);
      } else {
        decision := NextWorkflowAction(run, source, valid);
      }
    }

    /** The start is durable before the command runs, and the result only after it. */
    method Check(id: string, owner: string, checkId: string, command: Command) returns (outcome: Outcome)
      modifies this
      ensures var plan := CheckPlan(old(View()), id, owner, checkId, command);
              outcome == plan.outcome && Wrote(plan.writes)
    {
      var access := GrantAccess(id, owner, true);
      if access.Denied? {
        return Refused(access.why);
      }
      var run := access.run;
      var spec := FindCheck(run.task, checkId);
      if spec.None? {
        return Refused(UnknownCheck);
      }
      var check := CheckOf(Now(), run, spec.value, command);
      var started := Started(run, checkId);
      var out, err := LogOf(id, check, Stdout), LogOf(id, check, Stderr);
      if out in logs || err in logs {
        var _ := StoreRun(started);
        return Refused(LogExists);
      }
      var checked := started.(checks := run.checks + [check], verdict := None);
      RecordCommand(started, command, out, err, checked);
      return Done(checked);
    }

    method RecordCommand(started: Run, command: Command, out: Log, err: Log, checked: Run)
      modifies this
      ensures Wrote([Save(started), CommandRan(command.files, command.head),
                     WriteLog(out, command.stdout), WriteLog(err, command.stderr), Save(checked)])
    {
      PerformFive(View(), Save(started), CommandRan(command.files, command.head),
                  WriteLog(out, command.stdout), WriteLog(err, command.stderr), Save(checked));
      SaveRun(started);
      RunCommand(command);
      AppendLog(out, command.stdout);
      AppendLog(err, command.stderr);
      SaveRun(checked);
    }

    method Submit(id: string, owner: string, response: Response) returns (outcome: Outcome)
      modifies this
      ensures var plan := SubmitPlan(old(View()), id, owner, response); outcome == plan.outcome && Wrote(plan.writes)
    {
      var access := GrantAccess(id, owner, true);
      if access.Denied? {
        return Refused(access.why);
      }
      var run, source := access.run, access.source;
      var refusal := CheckResponse(run, source, response);
      if refusal.Some? {
        return Refused(refusal.value);
      }
      var result := ResultOf(run, source, response);
      run := run.(workflow := run.workflow.(results := run.workflow.results + [result]));
      run := run.(verdict := None);
      if NoProgress in result.reasons || IsTransport(result) {
        run := run.(status := Paused);
        run := run.(events := run.events + [PausedFor(response.native.executor)]);
        outcome := SaveAndRelease(run);
      } else {
        outcome := StoreRun(run);
      }
    }

    /** The guards of `submit`, in order. */
    method CheckResponse(run: Run, source: Tree, response: Response) returns (refusal: Option<Refusal>)
      ensures refusal == SubmitRefusal(View(), run, source, response)
    {
      var request := response.request;
      if request !in run.workflow.requests || !Open(run.workflow, request) {
        return Some(PendingRequestRequired);
      }
      if request.evidence != EvidenceOf(run) {
        return Some(StalePrerequisites);
      }
      var intact := AssertPrerequisites(run, request, environment, logs);
      if !intact {
        return Some(StalePrerequisites);
      }
      if response.source != source {
        return Some(ResponseSourceMismatch);
      }
      if response.rootApplication.Some?
         && (response.rootApplication.value.sourceBefore != request.source
             || !(Elements(response.rootApplication.value.changed) <= Elements(request.scope))) {
        return Some(InvalidRootApplication);
      }
      if response.native.route != request.route {
        return Some(RouteMismatch);
      }
      if request.stage == Implementation {
        if Some(response.native.executor) != request.executor || |run.handoffs| == 0
           || response.native.executor != run.handoffs[|run.handoffs| - 1].executor {
          return Some(ExecutorMismatch);
        }
        return None;
      }
      var valid := CollectValid(run, source, environment, logs);
      return ReviewRefusal(run, source, response, valid);
    }

    method Fallback(id: string, owner: string, request: Request, evidence: ApiEvidence, native: Handoff)
      returns (outcome: Outcome)
      modifies this
      ensures var plan := FallbackPlan(old(View()), id, owner, request, evidence, native);
              outcome == plan.outcome && Wrote(plan.writes)
    {
      var access := GrantAccess(id, owner, true);
      if access.Denied? {
        return Refused(access.why);
      }
      var run, source := access.run, access.source;
      if request !in run.workflow.requests || request.route.host != OpenRouter || !Open(run.workflow, request)
         || request.source != source || request.evidence != EvidenceOf(run) {
        return Refused(PendingApiRequestRequired);
      }
      var intact := AssertPrerequisites(run, request, environment, logs);
      if !intact {
        return Refused(StalePrerequisites);
      }
      if evidence.request != request || evidence.task != run.task || evidence.packet != request.stage
         || evidence.model != request.route.model || evidence.cost.None? || evidence.cost.value < 0.0 {
        return Refused(ApiEvidenceMismatch);
      }
      if !FallbackEligible(evidence, native.route) {
        return Refused(FallbackNotAuthorized);
      }
      if HasExecutor(run.handoffs, native.executor) {
        return Refused(FreshExecutorRequired);
      }
      run := Reroute(run, request, native, Some(evidence));
      run := run.(events := run.events + [FellBack(request)]);
      outcome := StoreRun(run.(verdict := None));
    }

    method Repair(id: string, owner: string, native: Handoff) returns (outcome: Outcome)
      modifies this
      ensures var plan := RepairPlan(old(View()), id, owner, native); outcome == plan.outcome && Wrote(plan.writes)
    {
      var access := GrantAccess(id, owner, true);
      if access.Denied? {
        return Refused(access.why);
      }
      var run, source := access.run, access.source;
      var pending := Pending(run.workflow);
      if pending.None? || !pending.value.repair || pending.value.stage != Implementation
         || pending.value.source != source || pending.value.evidence != EvidenceOf(run) {
        return Refused(CapabilityRepairRequired);
      }
      var intact := AssertPrerequisites(run, pending.value, environment, logs);
      if !intact {
        return Refused(StalePrerequisites);
      }
      if native.route != REPAIR_ROUTE || HasExecutor(run.handoffs, native.executor) {
        return Refused(CapableNativeRequired);
      }
      run := Reroute(run, pending.value, native, None);
      run := run.(events := run.events + [Escalated(pending.value)]);
      outcome := StoreRun(run.(verdict := None));
    }

    /** Every declared check valid and the workflow ready. */
    method Judge(run: Run, source: Tree) returns (pass: bool)
      ensures pass == Verdict(View(), run, source)
    {
      var valid := CollectValid(run, source, environment, logs);
      pass := true;
      for i := 0 to |run.task.checks|
        invariant pass == forall k | 0 <= k < i :: run.task.checks[k].id in valid
      {
        pass := pass && run.task.checks[i].id in valid;
      }
      pass := pass && WorkflowReady(run, source);
    }

    method Verify(id: string, owner: string) returns (outcome: Outcome)
      modifies this
      ensures var plan := VerifyPlan(old(View()), id, owner); outcome == plan.outcome && Wrote(plan.writes)
    {
      var access := GrantAccess(id, owner, true);
      if access.Denied? {
        return Refused(access.why);
      }
      if !EvidenceValid(Now(), access.run) {
        return Refused(EvidenceInvalid);
      }
      var pass := Judge(access.run, access.source);
      outcome := StoreRun(access.run.(verdict := Some(pass)));
    }

    method Finish(id: string, owner: string, commit: Revision) returns (outcome: Outcome)
      modifies this
      ensures var plan := FinishPlan(old(View()), id, owner, commit); outcome == plan.outcome && Wrote(plan.writes)
    {
      if kind != Main {
        return Refused(MainOnly);
      }
      if id !in records {
        return Refused(RecordMissing);
      }
      var run := records[id];
      var owned := Own(Now(), run, owner, true);
      if owned.Some? {
        return Refused(owned.value);
      }
      var refusal := FinishRefusal(Now(), run, commit);
      if refusal.Some? {
        return Refused(refusal.value);
      }
      var pass := Judge(run, files);
      run := run.(verdict := Some(pass));
      if !pass {
        var _ := StoreRun(run);
        return Refused(VerificationFailed);
      }
      run := run.(commit := Some(commit));
      run := run.(status := Complete);
      outcome := SaveAndRelease(run);
    }

    method Pause(id: string, owner: string, reason: string) returns (outcome: Outcome)
      modifies this
      ensures var plan := PausePlan(old(View()), id, owner, reason); outcome == plan.outcome && Wrote(plan.writes)
    {
      if id !in records {
        return Refused(RecordMissing);
      }
      var run := records[id];
      var owned := Own(Now(), run, owner, false);
      if owned.Some? {
        return Refused(owned.value);
      }
      run := run.(events := run.events + [PausedFor(reason)]);
      run := run.(status := Paused);
      outcome := SaveAndRelease(run);
    }

    method Reactivate(run: Run) returns (now: Run)
      ensures now == Reactivated(run)
    {
      var w := InvalidatePending(run.workflow);
      now := run.(status := if run.integration.Some? then Active else AwaitingNative);
      now := now.(workflow := w);
    }

    method Resume(id: string, owner: string) returns (outcome: Outcome)
      modifies this
      ensures var plan := ResumePlan(old(View()), id, owner); outcome == plan.outcome && Wrote(plan.writes)
    {
      if id !in records {
        return Refused(RecordMissing);
      }
      var run := records[id];
      if run.status != Paused || run.task.owner != owner {
        return Refused(PausedOwnerRequired);
      }
      var reserved := ResumeRefusal(Now(), run);
      if reserved.Some? {
        return Refused(reserved.value);
      }
      var moved := SourceRefusal(Now(), run);
      if moved.Some? {
        return Refused(moved.value);
      }
      if active.Some? {
        return Refused(WriterAlreadyClaimed);
      }
      run := Reactivate(run);
      run := run.(events := run.events + [Resumed]);
      outcome := SaveAndClaim(run, id);
    }

    method Reconcile(id: string, owner: string, reason: string) returns (outcome: Outcome)
      modifies this
      ensures var plan := ReconcilePlan(old(View()), id, owner, reason); outcome == plan.outcome && Wrote(plan.writes)
    {
      if id !in records {
        return Refused(RecordMissing);
      }
      if records[id].task.owner != owner {
        return Refused(WriterMismatch);
      }
      if active.Some? && active != Some(id) {
        return Refused(WriterAlreadyClaimed);
      }
      var run := records[id];
      ghost var s, first: seq<Write> := View(), [];
      if run.status == Paused || run.status == Complete || run.status == Superseded {
        if active == Some(id) {
          ReleaseClaim();
          first := [Release];
        }
      } else {
        var reserved := ResumeRefusal(Now(), run);
        if reserved.Some? {
          return Refused(reserved.value);
        }
        var moved := SourceRefusal(Now(), run);
        if moved.Some? {
          return Refused(moved.value);
        }
        if active.None? {
          TakeClaim(id);
          first := [Claim(id)];
        }
        run := Reactivate(run);
      }
      run := run.(events := run.events + [Reconciled(reason)]);
      SaveRun(run);
      PerformFirst(s, first);
      PerformSnoc(s, first, Save(run));
      return Done(run);
    }

    method Supersede(id: string, owner: string, successor: string) returns (outcome: Outcome)
      modifies this
      ensures var plan := SupersedePlan(old(View()), id, owner, successor);
              outcome == plan.outcome && Wrote(plan.writes)
    {
      if kind != Main {
        return Refused(MainOnly);
      }
      if id !in records {
        return Refused(RecordMissing);
      }
      var run := records[id];
      if run.task.owner != owner {
        return Refused(WriterMismatch);
      }
      if run.status != Paused {
        return Refused(PausedRunRequired);
      }
      if active.Some? {
        return Refused(WriterAlreadyClaimed);
      }
      if successor !in records {
        return Refused(RecordMissing);
      }
      var next := records[successor];
      if next.status != Complete || next.verdict != Some(true) || next.commit.None? {
        return Refused(CompleteSuccessorRequired);
      }
      if run.baseCommit == next.commit.value || !IsAncestor(run.baseCommit, next.commit.value) {
        return Refused(SuccessorDescendantRequired);
      }
      run := run.(status := Superseded);
      run := run.(events := run.events + [SupersededBy(successor)]);
      outcome := StoreRun(run);
    }

    method Integrate(input: IntegrationInput, c: Checkout) returns (outcome: Outcome)
      modifies this
      ensures var plan := IntegratePlan(old(View()), input, c); outcome == plan.outcome && Wrote(plan.writes)
    {
      if kind != Main {
        return Refused(MainOnly);
      }
      if input.id in records && records[input.id].integration.None? {
        return Refused(RunAlreadyExists);
      }
      if active.Some? && active != Some(input.id) {
        return Refused(WriterAlreadyClaimed);
      }
      if input.id in records {
        outcome := Adopt(records[input.id], input, c);
      } else {
        var preparation := PrepareIntegration(Now(), input, c);
        if preparation.Unready? {
          return Refused(preparation.why);
        }
        outcome := Adopt(preparation.run, input, c);
      }
    }

    /** Save the run when new, claim it when unclaimed, then apply it. */
    method Adopt(run: Run, input: IntegrationInput, c: Checkout) returns (outcome: Outcome)
      requires run.integration.Some?
      modifies this
      ensures var plan := AdoptPlan(old(View()), run, input, c); outcome == plan.outcome && Wrote(plan.writes)
    {
      if run.task.owner != input.owner {
        return Refused(OwnerMismatch);
      }
      if run.status != Active {
        return Refused(RunNotActive);
      }
      ghost var s, start := View(), journal;
      TakeUp(run);
      outcome := ApplyIntegration(s, run, input, c, start, TakenUp(s, run));
    }

    method TakeUp(run: Run)
      modifies this`names, this`records, this`active, this`journal
      ensures Wrote(TakenUp(old(View()), run))
    {
      ghost var s := View();
      var claimed := active.Some?;
      if run.task.id !in records {
        PerformOne(s, Save(run));
        SaveRun(run);
        if !claimed {
          PerformTwo(s, Save(run), Claim(run.task.id));
          TakeClaim(run.task.id);
        }
      } else if !claimed {
        PerformOne(s, Claim(run.task.id));
        TakeClaim(run.task.id);
      }
    }

    /** The apply guards, taken with the run already saved and claimed, then the loop. */
    method ApplyIntegration(ghost s: State, run: Run, input: IntegrationInput, c: Checkout, ghost start: seq<Write>,
                            ghost before: seq<Write>)
      returns (outcome: Outcome)
      requires run.integration.Some? && View() == Perform(s, before) && journal == start + before
      requires pools == s.pools && busy == s.busy && head == s.head && files == s.files
      modifies this
      ensures var plan := ApplyPlan(s, run, input, c, before);
              outcome == plan.outcome && View() == Perform(s, plan.writes) && journal == start + plan.writes
    {
      var refusal := GuardApply(run, input, c);
      assert refusal == ApplyRefusal(s, run, input, c);
      if refusal.Some? {
        return Refused(refusal.value);
      }
      outcome := ApplyFiles(s, run, before);
      ghost var replacements, marked := Replacements(run.integration.value, run.task.scope),
        Save(run.(integration := Some(run.integration.value.(prepared := true))));
      assert start + before + replacements == start + (before + replacements);
      assert start + before + replacements + [marked] == start + (before + replacements + [marked]);
    }

    method GuardApply(run: Run, input: IntegrationInput, c: Checkout) returns (refusal: Option<Refusal>)
      requires run.integration.Some?
      ensures refusal == ApplyRefusal(View(), run, input, c)
    {
      var e := run.integration.value;
      var scope := Elements(run.task.scope);
      if !Reservations.IntegrationFree(Reservations.Active(pools, busy), scope, c.custody.resources) {
        return Some(IntegrationActiveDependency);
      }
      if input.expected != e.candidateDigest || run.task.owner != input.owner || input.revalidate != e.revalidation {
        return Some(IntegrationIdentity);
      }
      if head != run.baseCommit {
        return Some(BaseMoved);
      }
      if c.custody != e.custody || c.record != Some(e.candidateDigest) {
        return Some(CandidateIdentity);
      }
      if Outside(files, scope) != run.outside {
        return Some(OutOfScopeChange);
      }
      var evidence := EvidenceFor(run);
      var resumable := Apply.ScopeResumable(evidence, files);
      ScopeGuard(run, files);
      if !resumable {
        return Some(IntegrationInputChanged);
      }
      if c.source != e.candidateSource {
        return Some(CandidateSourceChanged);
      }
      return None;
    }

    /** The apply loop: one file at a time, then the phase. */
    method ApplyFiles(ghost s: State, run: Run, ghost before: seq<Write>) returns (outcome: Outcome)
      requires run.integration.Some? && View() == Perform(s, before)
      modifies this
      ensures var e := run.integration.value;
              var applied := before + Replacements(e, run.task.scope);
              var prepared := run.(integration := Some(e.(prepared := true)));
              if Perform(s, applied).files != e.sourceAfter
              then outcome == Refused(SourceNotReady) && View() == Perform(s, applied)
                   && journal == old(journal) + Replacements(e, run.task.scope)
              else outcome == Done(prepared) && View() == Perform(s, applied + [Save(prepared)])
                   && journal == old(journal) + Replacements(e, run.task.scope) + [Save(prepared)]
    {
      var e, scope := run.integration.value, run.task.scope;
      assert before + Replacements(e, scope[..0]) == before;
      for i := 0 to |scope|
        invariant View() == Perform(s, before + Replacements(e, scope[..i]))
        invariant journal == old(journal) + Replacements(e, scope[..i])
      {
        if scope[i] in e.sourceAfter {
          ReplaceFile(scope[i], Get(e.candidateSource, scope[i]));
        } else {
          ReplaceFile(scope[i], None);
        }
        assert scope[..i + 1][..i] == scope[..i];
        PerformSnoc(s, before + Replacements(e, scope[..i]), Replacement(e, scope[i]));
        assert before + Replacements(e, scope[..i + 1]) == before + Replacements(e, scope[..i])
               + [Replacement(e, scope[i])];
      }
      assert scope[..|scope|] == scope;
      if files != e.sourceAfter {
        return Refused(SourceNotReady);
      }
      var prepared := run.(integration := Some(e.(prepared := true)));
      SaveRun(prepared);
      PerformSnoc(s, before + Replacements(e, scope), Save(prepared));
      return Done(prepared);
    }

    /** Any operation: what it is planned to do is done, records stay sound, claim and custody stay safe, and
        its own promise holds. */
    method Operate(op: Operation) returns (outcome: Outcome)
      requires Durable(View()) && Trusted(op)
      modifies this
      ensures outcome == PlanOf(old(View()), op).outcome && Wrote(PlanOf(old(View()), op).writes)
      ensures Lawful(old(View()), View(), !TakenSafely(old(View()), op))
      ensures Promised(old(View()), op, outcome, View())
    {
      PlanIsLawful(View(), op);
      PlanIsPromised(View(), op);
      outcome := Dispatch(op);
    }

    method Dispatch(op: Operation) returns (outcome: Outcome)
      modifies this
      ensures outcome == PlanOf(old(View()), op).outcome && Wrote(PlanOf(old(View()), op).writes)
    {
      match op
      case BeginRun(task) => outcome := Begin(task);
      case BindHandoff(id, owner, handoff) => outcome := Bind(id, owner, handoff);
      case NextStep(id, owner) => outcome := Next(id, owner);
      case RunDeclaredCheck(id, owner, checkId, command) => outcome := Check(id, owner, checkId, command);
      case SubmitResponse(id, owner, response) => outcome := Submit(id, owner, response);
      case FallBackTo(id, owner, request, evidence, handoff) =>
        outcome := Fallback(id, owner, request, evidence, handoff);
      case EscalateTo(id, owner, handoff) => outcome := Repair(id, owner, handoff);
      case VerifyRun(id, owner) => outcome := Verify(id, owner);
      case FinishRun(id, owner, commit) => outcome := Finish(id, owner, commit);
      case PauseRun(id, owner, reason) => outcome := Pause(id, owner, reason);
      case ResumeRun(id, owner) => outcome := Resume(id, owner);
      case ReconcileRun(id, owner, reason) => outcome := Reconcile(id, owner, reason);
      case SupersedeRun(id, owner, successor) => outcome := Supersede(id, owner, successor);
      case IntegrateCandidate(input, checkout) => outcome := Integrate(input, checkout);
    }

    /** One turn of `advance`: a check that was run is never the last word. */
    method NextAndCheck(id: string, owner: string, command: Command) returns (outcome: Outcome, again: bool)
      requires Durable(View())
      modifies this
      ensures Durable(View())
      ensures again ==> ChecksLeft(View(), id, owner) < ChecksLeft(old(View()), id, owner)
      ensures !again ==> !AsksCheck(outcome)
    {
      CheckAskedTurn(View(), id, owner, command);
      outcome := Next(id, owner);
      if !AsksCheck(outcome) {
        return outcome, false;
      }
      outcome := Check(id, owner, outcome.action.id, command);
      return outcome, outcome.Done?;
    }

    method PauseCancelled(id: string, owner: string) returns (outcome: Outcome)
      requires Durable(View())
      modifies this
      ensures Durable(View()) && !AsksCheck(outcome)
    {
      PlanIsLawful(View(), PauseRun(id, owner, CANCELLED));
      outcome := Pause(id, owner, CANCELLED);
    }

    /** `advance`: next and check by turns, until `next` asks for something else, an operation refuses, or a
        check is cancelled. It ends for every sound record, direct or integrated, and whatever the commands do
        to the source; no more checks run than did not count at the start. */
    method Advance(id: string, owner: string, commands: nat -> Command, cancelled: nat -> bool)
      returns (outcome: Outcome, ran: nat)
      requires Durable(View())
      modifies this
      ensures Durable(View()) && !AsksCheck(outcome) && ran <= MissingCount(old(View()), id)
    {
      ran := 0;
      while true
        invariant Durable(View()) && ran + ChecksLeft(View(), id, owner) <= MissingCount(old(View()), id)
        decreases ChecksLeft(View(), id, owner)
      {
        var again;
        outcome, again := NextAndCheck(id, owner, commands(ran));
        if !again {
          return;
        }
        ran := ran + 1;
        if cancelled(ran) {
          outcome := PauseCancelled(id, owner);
          return;
        }
      }
    }
  }

  lemma ScopeGuard(run: Run, files: Tree)
    requires run.integration.Some?
    ensures Apply.ScopeBeforeOrAfter(EvidenceFor(run), files) <==>
            !exists path | path in Elements(run.task.scope) ::
               Get(files, path) != Get(run.integration.value.sourceBefore, path)
                 && Get(files, path) != Get(run.integration.value.sourceAfter, path)
  {
    var e := EvidenceFor(run);
    if Apply.ScopeBeforeOrAfter(e, files) {
      forall path | path in Elements(run.task.scope)
        ensures Get(files, path) == Get(e.sourceBefore, path) || Get(files, path) == Get(e.sourceAfter, path)
      {
        var i :| 0 <= i < |e.scope| && e.scope[i] == path;
      }
    } else {
      var i :| 0 <= i < |e.scope| && Get(files, e.scope[i]) != Get(e.sourceBefore, e.scope[i])
               && Get(files, e.scope[i]) != Get(e.sourceAfter, e.scope[i]);
      assert e.scope[i] in Elements(run.task.scope);
    }
  }

  lemma PerformFirst(s: State, first: seq<Write>)
    requires |first| <= 1
    ensures Perform(s, first) == if first == [] then s else Put(s, first[0])
  {
    if first != [] {
      assert first == [first[0]];
      PerformOne(s, first[0]);
    }
  }
}
