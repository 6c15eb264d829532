/** The bound on executor calls is attained: every call on the API fails, every native implementation is accepted,
    and every native review asks for changes. */
module RunnerToil {
  import opened Basics
  import opened Integration
  import opened Records
  import opened Workflows
  import opened WorkflowLaws
  import opened Prerequisites
  import opened Lifecycle
  import opened LifecycleSaves
  import opened LifecycleClaims
  import opened LifecycleTheorems
  import opened Advancing
  import opened Runner
  import opened RunnerChurn

  // ----- What the surroundings do -----

  function Quiet(s: State): Command {
    Command(true, "", "", s.files, s.head)
  }

  function ApiEnds(request: Request, task: Task): Answer {
    ApiFails(Unusable(request, task), Taker(request))
  }

  function Unusable(request: Request, task: Task): ApiEvidence {
    ApiEvidence(request, task, request.stage, request.route.model, CompletedInvalidOutput, Some(0.0))
  }

  /** Who takes a request over from the API. */
  function Taker(request: Request): Handoff {
    Handoff(REPAIR_ROUTE, if request.stage == Review then "reviewer" else "author")
  }

  function Refuses(request: Request, source: Tree): Response {
    Response(request, source, Handoff(request.route, "reviewer"), ChangesRequested, None)
  }

  function Implements(request: Request, executor: string, source: Tree): Response {
    Response(request, source, Handoff(request.route, executor), Completed, None)
  }

  /** Calls on the API fail; a native review asks for changes; a native implementation writes the path. */
  function Toils(d: Driver, id: string, path: Path): Answer {
    if !d.mode.Invoking? || id !in d.s.records then Throws
    else
      var request, written := d.mode.request, Flipped(d.s.files, path);
      if request.route.host == OpenRouter then ApiEnds(request, d.s.records[id].task)
      else if request.stage == Review then Reply(Refuses(request, d.s.files), d.s.files)
      else if request.executor.None? then Throws
      else Reply(Implements(request, request.executor.value, written), written)
  }

  function Toil(id: string, path: Path): Oracle {
    Oracle((turn, s) => Quiet(s), turn => Handoff(REPAIR_ROUTE, ""), (turn, d) => Toils(d, id, path))
  }

  // ----- The record in surroundings that do nothing else -----

  ghost predicate LogsKept(s: State, run: Run) {
    forall log | log in s.logs && log.run == run.task.id :: log.attempt <= StartCount(run.events, log.check)
  }

  ghost predicate AllPassed(run: Run) {
    forall i | 0 <= i < |run.checks| :: run.checks[i].passed
  }

  predicate Reviewable(run: Run) {
    ReviewRoute(run.task) == API_ROUTE && !HasExecutor(run.handoffs, "reviewer") && |run.handoffs| > 0
  }

  /** Claimed, active and undisturbed; every recorded check passed and stands. */
  ghost predicate Free(s: State, run: Run, owner: string, path: Path) {
    && s.active == Some(run.task.id) && run.task.owner == owner && run.status == Active && run.integration.None?
    && SourceRefusal(s, run).None? && path in run.task.scope && Reviewable(run)
    && ChecksIntact(s, run) && LogsKept(s, run) && AllPassed(run)
  }

  ghost predicate Working(s: State, id: string, owner: string, path: Path) {
    Runnable(s, id) && Free(s, s.records[id], owner, path)
  }

  lemma FreeFrame(s: State, u: State, run: Run, now: Run, owner: string, path: Path)
    requires Free(s, run, owner, path) && now.task == run.task && now.status == run.status
    requires now.baseCommit == run.baseCommit && now.outside == run.outside && now.integration.None?
    requires now.checks == run.checks && now.events == run.events && Reviewable(now)
    requires u.active == s.active && u.head == s.head && u.logs == s.logs && u.environment == s.environment
    requires SourceRefusal(u, now).None?
    ensures Free(u, now, owner, path)
  {
  }

  lemma NotedCounts(events: seq<Event>, event: Event, id: string)
    requires !event.CheckStart?
    ensures StartCount(events + [event], id) == StartCount(events, id)
  {
    assert (events + [event])[..|events|] == events;
  }

  lemma FreeNoted(s: State, run: Run, event: Event, owner: string, path: Path)
    requires Free(s, run, owner, path) && !event.CheckStart?
    ensures Free(s, Noting(run, event).(verdict := None), owner, path)
  {
    forall log | log in s.logs && log.run == run.task.id
      ensures log.attempt <= StartCount(run.events + [event], log.check)
    {
      NotedCounts(run.events, event, log.check);
    }
  }

  // ----- Asking -----

  /** The state in which the request has been asked for, and is what the loop invokes. */
  ghost predicate Pends(s: State, id: string, owner: string, path: Path, request: Request) {
    Working(s, id, owner, path) && Current(s, id, request)
  }

  lemma AskedFree(s: State, run: Run, now: Run, owner: string, path: Path)
    requires Free(s, run, owner, path) && OnlyAsks(run, now)
    ensures Free(Put(s, Save(now)), now, owner, path)
  {
    FreeFrame(s, Put(s, Save(now)), run, now, owner, path);
  }

  /** A native request the record calls for is asked for, and pends. */
  lemma AsksNative(s: State, id: string, owner: string, path: Path, decided: Decision)
    requires Working(s, id, owner, path) && decided.Decided? && decided.action.Native?
    requires NextDirect(s.records[id], s.files, Valid(s, s.records[id], s.files)) == decided
    ensures NextPlan(s, id, owner) == Plan([Save(decided.run)], Acted(decided.action))
    ensures var u := Resulting(s, NextPlan(s, id, owner));
            && Pends(u, id, owner, path, decided.action.request) && u.files == s.files
            && u.records[id] == decided.run && OnlyAsks(s.records[id], decided.run)
  {
    var run, valid := s.records[id], Valid(s, s.records[id], s.files);
    RecordReady(s, id);
    ValidIsDeclared(s, run);
    DecidedIsCurrent(run, s.files, valid);
    IntactPrerequisites(s, run, decided.run, decided.action.request);
    PlanFromDecision(s, id, owner, run, decided);
    NativeIsCurrent(s, id, owner, decided.action.request);
    PerformOne(s, Save(decided.run));
    AskedFree(s, run, decided.run, owner, path);
  }

  /** A pending request is returned again, and nothing changes. */
  lemma PendsAgain(s: State, id: string, owner: string, path: Path, request: Request)
    requires Pends(s, id, owner, path, request)
    ensures NextPlan(s, id, owner).outcome == Acted(Native(request)) && Resulting(s, NextPlan(s, id, owner)) == s
  {
    var run := s.records[id];
    RecordReady(s, id);
    NextOfCurrent(run, s.files, Valid(s, run, s.files), request);
    AsksNative(s, id, owner, path, Decided(run, Native(request)));
    SavingAgainChangesNothing(s, id);
  }

  // ----- The API fails -----

  lemma OpenPends(s: State, id: string, request: Request)
    requires id in s.records && Current(s, id, request)
    ensures request in s.records[id].workflow.requests && Open(s.records[id].workflow, request)
    ensures request.source == s.files && request.evidence == EvidenceOf(s.records[id])
  {
  }

  lemma NobodyElse(handoffs: seq<Handoff>, native: Handoff)
    requires !HasExecutor(handoffs, "reviewer") && native.executor != "reviewer"
    ensures !HasExecutor(handoffs + [native], "reviewer")
  {
  }

  function FallenBack(run: Run, request: Request): Run {
    RoutedTo(run, request, Taker(request), Some(Unusable(request, run.task)), FellBack(request))
  }

  lemma FallenBackFree(s: State, run: Run, request: Request, owner: string, path: Path)
    requires Free(s, run, owner, path)
    ensures Free(Put(s, Save(FallenBack(run, request))), FallenBack(run, request), owner, path)
  {
    var rerouted := Reroute(run, request, Taker(request), Some(Unusable(request, run.task)));
    if request.stage == Implementation {
      assert |"author"| != |"reviewer"|;
      NobodyElse(run.handoffs, Taker(request));
    }
    FreeFrame(s, s, run, rerouted, owner, path);
    FreeNoted(s, rerouted, FellBack(request), owner, path);
    var now := FallenBack(run, request);
    FreeFrame(s, Put(s, Save(now)), now, now, owner, path);
  }

  lemma FallsBackNow(s: State, id: string, owner: string, path: Path, request: Request)
    requires Pends(s, id, owner, path, request) && request.route == API_ROUTE
    requires request.stage == Review || !HasExecutor(s.records[id].handoffs, "author")
    ensures var run := s.records[id];
            FallbackPlan(s, id, owner, request, Unusable(request, run.task), Taker(request))
            == Plan([Save(FallenBack(run, request))], Outcome.Done(FallenBack(run, request)))
  {
    var run := s.records[id];
    OpenPends(s, id, request);
    IntactPrerequisites(s, run, run, request);
    FallbackGranted(s, id, owner, run, request);
  }

  lemma FallbackGranted(s: State, id: string, owner: string, run: Run, request: Request)
    requires Authorize(s, id, owner, true) == Granted(run, s.files)
    requires request in run.workflow.requests && request.route == API_ROUTE && Open(run.workflow, request)
    requires request.source == s.files && request.evidence == EvidenceOf(run)
    requires PrerequisitesIntact(run, request, s.environment, s.logs)
             && !HasExecutor(run.handoffs, Taker(request).executor)
    ensures FallbackPlan(s, id, owner, request, Unusable(request, run.task), Taker(request))
            == Plan([Save(FallenBack(run, request))], Outcome.Done(FallenBack(run, request)))
  {
  }

  /** A request on the API falls back to the capable route, and pends again there. */
  lemma FallsBack(s: State, id: string, owner: string, path: Path, request: Request)
    requires Pends(s, id, owner, path, request) && request.route == API_ROUTE
    requires request.stage == Review || !HasExecutor(s.records[id].handoffs, "author")
    ensures var run := s.records[id];
            var plan := FallbackPlan(s, id, owner, request, Unusable(request, run.task), Taker(request));
            var u, again := Resulting(s, plan),
              Rerouted(run, request, Taker(request), Some(Unusable(request, run.task)));
            && plan.outcome == Outcome.Done(FallenBack(run, request)) && u == Put(s, Save(FallenBack(run, request)))
            && Pends(u, id, owner, path, again)
  {
    var run := s.records[id];
    FallsBackNow(s, id, owner, path, request);
    FallbackIsCurrent(s, id, owner, request, Unusable(request, run.task), Taker(request));
    PerformOne(s, Save(FallenBack(run, request)));
    FallenBackFree(s, run, request, owner, path);
  }

  // ----- A native answer -----

  /** The last settled result is the implementation accepted for this source. */
  ghost predicate Stands(run: Run, source: Tree) {
    var implementation := LastImplementation(run.workflow.results);
    implementation.Some? && implementation.value.accepted && implementation.value.response.source == source
  }

  lemma ReviewRefusedNow(s: State, id: string, owner: string, path: Path, request: Request)
    requires Pends(s, id, owner, path, request) && request.stage == Review && Stands(s.records[id], s.files)
    ensures SubmitRefusal(s, s.records[id], s.files, Refuses(request, s.files)).None?
    ensures ResultOf(s.records[id], s.files, Refuses(request, s.files))
            == StageResult(request, Refuses(request, s.files), false, [])
  {
    var run := s.records[id];
    OpenPends(s, id, request);
    IntactPrerequisites(s, run, run, request);
  }

  lemma SubmitStores(s: State, id: string, owner: string, run: Run, response: Response)
    requires Authorize(s, id, owner, true) == Granted(run, s.files)
    requires SubmitRefusal(s, run, s.files, response).None? && !IsTransport(ResultOf(run, s.files, response))
    requires NoProgress !in ResultOf(run, s.files, response).reasons
    ensures SubmitPlan(s, id, owner, response)
            == Plan([Save(Submitted(run, s.files, response))], Outcome.Done(Submitted(run, s.files, response)))
  {
  }

  /** The last result, of a native stage, is settled; nothing pends. */
  ghost predicate SettledAs(run: Run, result: StageResult) {
    && NothingPending(run.workflow) && LastSettled(run.workflow.results) == Some(result)
    && |run.workflow.results| > 0 && run.workflow.results[|run.workflow.results| - 1] == result
  }

  lemma SubmittedFree(t: State, run: Run, response: Response, owner: string, path: Path)
    requires Free(t, run, owner, path)
    ensures Free(Put(t, Save(Submitted(run, t.files, response))), Submitted(run, t.files, response), owner, path)
  {
    var now := Submitted(run, t.files, response);
    FreeFrame(t, Put(t, Save(now)), run, now, owner, path);
  }

  lemma SubmittedAs(t: State, run: Run, response: Response, result: StageResult)
    requires run.integration.None? && Bookkept(run.workflow) && SubmitRefusal(t, run, t.files, response).None?
    requires ResultOf(run, t.files, response) == result && !IsTransport(result)
    ensures SettledAs(Submitted(run, t.files, response), result)
  {
    SubmittedSettles(t, run, t.files, response);
  }

  lemma SubmittedStays(t: State, id: string, owner: string, response: Response, now: Run)
    requires Runnable(t, id) && now.task.id == id
    requires SubmitPlan(t, id, owner, response) == Plan([Save(now)], Outcome.Done(now))
    ensures Resulting(t, SubmitPlan(t, id, owner, response)) == Put(t, Save(now)) && Runnable(Put(t, Save(now)), id)
  {
    AuthoringStaysReady(t, id, SubmitResponse(id, owner, response));
    PerformOne(t, Save(now));
  }

  /** A native review that asks for changes is recorded, and the run goes on. */
  lemma ReviewRefuses(s: State, id: string, owner: string, path: Path, request: Request)
    requires Pends(s, id, owner, path, request) && request.stage == Review && Stands(s.records[id], s.files)
    ensures var run, response := s.records[id], Refuses(request, s.files);
            var plan := SubmitPlan(s, id, owner, response);
            var u, now := Resulting(s, plan), Submitted(run, s.files, response);
            && plan.outcome == Outcome.Done(now) && now.status == Active && u == Put(s, Save(now))
            && Working(u, id, owner, path) && SettledAs(now, StageResult(request, response, false, []))
  {
    var run, response := s.records[id], Refuses(request, s.files);
    RecordReady(s, id);
    ReviewRefusedNow(s, id, owner, path, request);
    SubmitStores(s, id, owner, run, response);
    SubmittedStays(s, id, owner, response, Submitted(run, s.files, response));
    SubmittedFree(s, run, response, owner, path);
    SubmittedAs(s, run, response, StageResult(request, response, false, []));
  }

  /** The executor of the request is the last bound one. */
  predicate ByLastHandoff(run: Run, request: Request) {
    && request.stage == Implementation && |run.handoffs| > 0
    && request.executor == Some(run.handoffs[|run.handoffs| - 1].executor)
  }

  /** The candidate's files with the path written. */
  function Rewritten(s: State, path: Path): State {
    s.(files := Flipped(s.files, path))
  }

  lemma RewrittenWorks(s: State, id: string, owner: string, path: Path)
    requires Working(s, id, owner, path)
    ensures Working(Rewritten(s, path), id, owner, path) && Rewritten(s, path).files != s.files
  {
    var run := s.records[id];
    FlipMoves(s.files, path, Elements(run.task.scope));
    ReadyWithFiles(s, id, Flipped(s.files, path));
    FreeFrame(s, Rewritten(s, path), run, run, owner, path);
  }

  lemma ImplementationAcceptedNow(t: State, run: Run, request: Request, response: Response)
    requires request in run.workflow.requests && Open(run.workflow, request) && request.evidence == EvidenceOf(run)
    requires PrerequisitesIntact(run, request, t.environment, t.logs) && ByLastHandoff(run, request)
    requires request.source != t.files && response == Implements(request, request.executor.value, t.files)
    ensures SubmitRefusal(t, run, t.files, response).None?
    ensures ResultOf(run, t.files, response) == StageResult(request, response, true, [])
  {
  }

  lemma ImplementationSubmits(s: State, id: string, owner: string, path: Path, request: Request)
    requires Pends(s, id, owner, path, request) && ByLastHandoff(s.records[id], request)
    ensures var t := Rewritten(s, path);
            var run, response := s.records[id], Implements(request, request.executor.value, t.files);
            && SubmitRefusal(t, run, t.files, response).None?
            && ResultOf(run, t.files, response) == StageResult(request, response, true, [])
            && SubmitPlan(t, id, owner, response)
               == Plan([Save(Submitted(run, t.files, response))], Outcome.Done(Submitted(run, t.files, response)))
  {
    var t, run := Rewritten(s, path), s.records[id];
    var response := Implements(request, request.executor.value, t.files);
    RewrittenWorks(s, id, owner, path);
    OpenPends(s, id, request);
    IntactPrerequisites(s, run, run, request);
    ImplementationAcceptedNow(t, run, request, response);
    SubmitStores(t, id, owner, run, response);
  }

  /** A native implementation that writes the path is accepted for the new source. */
  lemma ImplementationAccepted(s: State, id: string, owner: string, path: Path, request: Request)
    requires Pends(s, id, owner, path, request) && ByLastHandoff(s.records[id], request)
    ensures var t := Rewritten(s, path);
            var run, response := s.records[id], Implements(request, request.executor.value, t.files);
            var plan := SubmitPlan(t, id, owner, response);
            var u, now := Resulting(t, plan), Submitted(run, t.files, response);
            && plan.outcome == Outcome.Done(now) && now.status == Active && u == Put(t, Save(now))
            && Working(u, id, owner, path) && SettledAs(now, StageResult(request, response, true, []))
            && Attested(now, t.files)
  {
    var t, run := Rewritten(s, path), s.records[id];
    var response := Implements(request, request.executor.value, t.files);
    RecordReady(s, id);
    RewrittenWorks(s, id, owner, path);
    ImplementationSubmits(s, id, owner, path, request);
    SubmittedStays(t, id, owner, response, Submitted(run, t.files, response));
    SubmittedFree(t, run, response, owner, path);
    SubmittedAs(t, run, response, StageResult(request, response, true, []));
    SubmittedAttests(t, run, response);
  }

  // ----- The declared checks -----

  /** Attested on the capable route, with the implementation the last result. */
  ghost predicate Due(s: State, id: string, owner: string, path: Path) {
    && Working(s, id, owner, path)
    && var run := s.records[id];
       && Attested(run, s.files) && run.route == REPAIR_ROUTE
       && |run.workflow.results| > 0
       && run.workflow.results[|run.workflow.results| - 1].request.stage == Implementation
  }

  lemma NothingFailed(run: Run, id: string, source: Tree)
    requires AllPassed(run)
    ensures !FailedAt(run, id, source)
  {
  }

  lemma CheckRuns(s: State, id: string, owner: string, run: Run, check: CheckSpec)
    requires Authorize(s, id, owner, true) == Granted(run, s.files) && run.task.id == id
    requires FindCheck(run.task, check.id) == Some(check) && LogsKept(s, run)
    ensures CheckPlan(s, id, owner, check.id, Quiet(s)).outcome.Done?
  {
  }

  lemma MissingIsFound(task: Task, valid: set<string>)
    requires FirstMissing(task, valid).Some? && DistinctChecks(task)
    ensures FindCheck(task, FirstMissing(task, valid).value.id) == FirstMissing(task, valid)
  {
    var check := FirstMissing(task, valid).value;
    var found := FindCheck(task, check.id);
    var i :| 0 <= i < |task.checks| && task.checks[i] == check;
    assert task.checks[i] in task.checks;
    var j :| 0 <= j < |task.checks| && task.checks[j] == found.value;
  }

  /** The first missing check is asked for, and nothing else changes. */
  lemma DueAsks(s: State, id: string, owner: string, path: Path)
    requires Due(s, id, owner, path) && FirstMissing(s.records[id].task, Valid(s, s.records[id], s.files)).Some?
    ensures var check := FirstMissing(s.records[id].task, Valid(s, s.records[id], s.files)).value;
            && NextPlan(s, id, owner).outcome == Acted(RunCheck(check.id)) && Resulting(s, NextPlan(s, id, owner)) == s
            && CheckPlan(s, id, owner, check.id, Quiet(s)).outcome.Done?
  {
    var run, valid := s.records[id], Valid(s, s.records[id], s.files);
    var check := FirstMissing(run.task, valid).value;
    RecordReady(s, id);
    NothingFailed(run, check.id, s.files);
    AttestedAsks(run, s.files, valid);
    PlanFromDecision(s, id, owner, run, Decided(run, RunCheck(check.id)));
    SavingAgainChangesNothing(s, id);
    MissingIsFound(run.task, valid);
    CheckRuns(s, id, owner, run, check);
  }

  lemma RecordedKeepsLogs(s: State, t: State, run: Run, now: Run, check: Check, files: Tree)
    requires Recorded(s, t, run, now, check, files) && LogsKept(s, run)
    ensures LogsKept(t, now)
  {
    assert now.events[..|run.events|] == run.events;
    forall log | log in t.logs && log.run == now.task.id
      ensures log.attempt <= StartCount(now.events, log.check)
    {
      if log in s.logs {
        assert log.attempt <= StartCount(run.events, log.check);
      }
    }
  }

  lemma RecordedFree(s: State, t: State, run: Run, now: Run, check: Check, owner: string, path: Path)
    requires Free(s, run, owner, path) && Recorded(s, t, run, now, check, s.files) && check.passed
    requires t.active == s.active && t.head == s.head
    ensures Free(t, now, owner, path)
  {
    RecordedKeepsIntact(s, t, run, now, check, s.files);
    RecordedKeepsLogs(s, t, run, now, check, s.files);
  }

  /** The check passes, and one fewer is missing. */
  lemma DueChecks(s: State, id: string, owner: string, path: Path)
    requires Due(s, id, owner, path) && FirstMissing(s.records[id].task, Valid(s, s.records[id], s.files)).Some?
    ensures var check := FirstMissing(s.records[id].task, Valid(s, s.records[id], s.files)).value;
            var t := Resulting(s, CheckPlan(s, id, owner, check.id, Quiet(s)));
            && Due(t, id, owner, path) && t.records[id].task == s.records[id].task
            && Valid(t, t.records[id], t.files) == Valid(s, s.records[id], s.files) + {check.id}
            && check.id in Ids(s.records[id].task.checks) && check.id !in Valid(s, s.records[id], s.files)
  {
    var run, valid := s.records[id], Valid(s, s.records[id], s.files);
    var spec := FirstMissing(run.task, valid).value;
    SoundIsKeyed(s);
    RecordReady(s, id);
    DueAsks(s, id, owner, path);
    MissingIsFound(run.task, valid);
    CheckRecords(s, id, owner, spec.id, Quiet(s));
    AuthoringStaysReady(s, id, RunDeclaredCheck(id, owner, spec.id, Quiet(s)));
    var t := Resulting(s, CheckPlan(s, id, owner, spec.id, Quiet(s)));
    assert LeavesSource(s, Quiet(s));
    RecordedChecks(s, t, id, run, spec, CheckOf(s, run, spec, Quiet(s)), owner, path);
  }

  lemma RecordedChecks(s: State, t: State, id: string, run: Run, spec: CheckSpec, check: Check, owner: string,
                       path: Path)
    requires Due(s, id, owner, path) && run == s.records[id] && Runnable(t, id)
    requires FirstMissing(run.task, Valid(s, run, s.files)) == Some(spec) && check.spec.id == spec.id
    requires Recorded(s, t, run, t.records[id], check, s.files) && check.passed
    requires t.active == s.active && t.head == s.head
    ensures Due(t, id, owner, path) && t.records[id].task == run.task
    ensures Valid(t, t.records[id], t.files) == Valid(s, run, s.files) + {spec.id}
    ensures spec.id in Ids(run.task.checks) && spec.id !in Valid(s, run, s.files)
  {
    assert spec in run.task.checks;
    RecordedDue(s, t, id, run, check, owner, path);
    ValidAfterCheck(s, t, run, t.records[id], check, s.files);
  }

  lemma RecordedDue(s: State, t: State, id: string, run: Run, check: Check, owner: string, path: Path)
    requires Due(s, id, owner, path) && run == s.records[id] && Runnable(t, id)
    requires Recorded(s, t, run, t.records[id], check, s.files) && check.passed
    requires t.active == s.active && t.head == s.head
    ensures Due(t, id, owner, path) && t.records[id].task == run.task
  {
    RecordedFree(s, t, run, t.records[id], check, owner, path);
  }

  // ----- Turns -----

  /** Which record, by which owner, within which limit, and the path the implementations write. */
  datatype Site = Site(id: string, owner: string, limit: nat, path: Path)

  function Go(x: Site, d: Driver): Driver {
    Turn(d, x.id, x.owner, x.limit, Toil(x.id, x.path), 0)
  }

  lemma EveryTurnIsTheSame(x: Site, d: Driver, turn: nat)
    ensures Turn(d, x.id, x.owner, x.limit, Toil(x.id, x.path), turn) == Go(x, d)
  {
  }

  ghost predicate Reaches(x: Site, d: Driver, e: Driver) {
    exists turns: nat :: Turns(d, x.id, x.owner, x.limit, Toil(x.id, x.path), turns) == e
  }

  lemma ReachesItself(x: Site, d: Driver)
    ensures Reaches(x, d, d)
  {
    assert Turns(d, x.id, x.owner, x.limit, Toil(x.id, x.path), 0) == d;
  }

  lemma ReachesNext(x: Site, d: Driver, e: Driver)
    requires Reaches(x, d, e)
    ensures Reaches(x, d, Go(x, e))
  {
    var turns: nat :| Turns(d, x.id, x.owner, x.limit, Toil(x.id, x.path), turns) == e;
    OneTurn(d, x.id, x.owner, x.limit, Toil(x.id, x.path), turns);
    EveryTurnIsTheSame(x, e, turns);
    assert Turns(d, x.id, x.owner, x.limit, Toil(x.id, x.path), turns + 1) == Go(x, e);
  }

  predicate Counted(d: Driver, repairs: nat, calls: nat) {
    d.repairs == repairs && d.calls == calls && d.mutations == 0
  }

  /** Between the rounds: an attested implementation, its checks perhaps still to run. */
  ghost predicate AtRound(x: Site, d: Driver) {
    d.mode.Advance? && Due(d.s, x.id, x.owner, x.path)
  }

  function Missing(x: Site, d: Driver): Option<CheckSpec>
    requires x.id in d.s.records
  {
    FirstMissing(d.s.records[x.id].task, Valid(d.s, d.s.records[x.id], d.s.files))
  }

  lemma CheckTurns(x: Site, d: Driver)
    requires AtRound(x, d) && Missing(x, d).Some?
    ensures var e := Go(x, d);
            && AtRound(x, e) && e.repairs == d.repairs && e.calls == d.calls && e.mutations == d.mutations
            && MissingCount(e.s, x.id) < MissingCount(d.s, x.id)
  {
    var check := Missing(x, d).value;
    DueAsks(d.s, x.id, x.owner, x.path);
    DueChecks(d.s, x.id, x.owner, x.path);
    CheckGoes(x, d, check.id);
    var t := Resulting(d.s, CheckPlan(d.s, x.id, x.owner, check.id, Quiet(d.s)));
    FewerMissing(d.s, t, x.id, check.id);
  }

  lemma CheckGoes(x: Site, d: Driver, checkId: string)
    requires d.mode.Advance? && NextPlan(d.s, x.id, x.owner).outcome == Acted(RunCheck(checkId))
    requires Resulting(d.s, NextPlan(d.s, x.id, x.owner)) == d.s
    requires CheckPlan(d.s, x.id, x.owner, checkId, Quiet(d.s)).outcome.Done?
    ensures Go(x, d) == d.(s := Resulting(d.s, CheckPlan(d.s, x.id, x.owner, checkId, Quiet(d.s))))
  {
    assert LeavesSource(d.s, Quiet(d.s));
  }

  lemma FewerMissing(s: State, t: State, id: string, checkId: string)
    requires Runnable(s, id) && Runnable(t, id) && t.records[id].task == s.records[id].task
    requires Valid(t, t.records[id], t.files) == Valid(s, s.records[id], s.files) + {checkId}
    requires checkId !in Valid(s, s.records[id], s.files)
    ensures MissingCount(t, id) < MissingCount(s, id)
  {
    RecordReady(t, id);
    ValidFits(t, t.records[id]);
  }

  /** All declared checks pass, without a call. */
  lemma {:induction false} ChecksPass(x: Site, start: Driver, d: Driver, repairs: nat, calls: nat) returns (e: Driver)
    requires Reaches(x, start, d) && AtRound(x, d) && Counted(d, repairs, calls)
    ensures Reaches(x, start, e) && AtRound(x, e) && Counted(e, repairs, calls) && Missing(x, e).None?
    decreases MissingCount(d.s, x.id)
  {
    if Missing(x, d).None? {
      e := d;
    } else {
      CheckTurns(x, d);
      ReachesNext(x, start, d);
      e := ChecksPass(x, start, Go(x, d), repairs, calls);
    }
  }

  // ----- A round: review, refusal, repair -----

  ghost predicate Invoked(x: Site, d: Driver, request: Request) {
    d.mode == Invoking(request) && Pends(d.s, x.id, x.owner, x.path, request)
  }

  lemma ReviewIsNext(run: Run, source: Tree, valid: set<string>)
    requires Attested(run, source) && Bookkept(run.workflow) && FirstMissing(run.task, valid).None?
    requires |run.workflow.results| > 0
    requires run.workflow.results[|run.workflow.results| - 1].request.stage == Implementation
    ensures NextDirect(run, source, valid)
            == Ask(run, source, Review, false,
                   ReviewPrerequisites(run, LastImplementation(run.workflow.results).value), [])
  {
    PendingIsTheNewest(run.workflow);
  }

  lemma NativeGoes(x: Site, d: Driver, request: Request)
    requires d.mode.Advance? && NextPlan(d.s, x.id, x.owner).outcome == Acted(Native(request))
    requires request.repair ==> request.route == REPAIR_ROUTE && d.repairs < x.limit
    ensures Go(x, d) == d.(s := Resulting(d.s, NextPlan(d.s, x.id, x.owner)), mode := Invoking(request),
                           repairs := d.repairs + if request.repair then 1 else 0)
  {
  }

  /** The checked source is sent to review on the API. */
  lemma ReviewTurns(x: Site, d: Driver)
    requires AtRound(x, d) && Missing(x, d).None?
    ensures var e := Go(x, d);
            && e.mode.Invoking? && Invoked(x, e, e.mode.request) && e.repairs == d.repairs && e.calls == d.calls
               && e.mutations == d.mutations
            && e.mode.request.stage == Review && e.mode.request.route == API_ROUTE && !e.mode.request.repair
            && Stands(e.s.records[x.id], e.s.files) && e.s.records[x.id].route == REPAIR_ROUTE
  {
    var run := d.s.records[x.id];
    var valid := Valid(d.s, run, d.s.files);
    RecordReady(d.s, x.id);
    ReviewIsNext(run, d.s.files, valid);
    var decided := NextDirect(run, d.s.files, valid);
    AsksNative(d.s, x.id, x.owner, x.path, decided);
    NativeGoes(x, d, decided.action.request);
  }

  lemma InvokedAnswers(x: Site, d: Driver, request: Request)
    requires d.mode == Invoking(request) && x.id in d.s.records
    ensures Go(x, d) == Respond(d, x.id, x.owner, Toils(d, x.id, x.path))
    ensures request.route == API_ROUTE ==> Toils(d, x.id, x.path) == ApiEnds(request, d.s.records[x.id].task)
  {
  }

  lemma Concludes(d: Driver, s: State, plan: Plan, now: Run)
    requires plan.outcome == Outcome.Done(now) && now.status == Active
    ensures Conclude(d, s, plan) == d.(s := Resulting(s, plan), mode := Advance)
  {
  }

  /** The API fails: one call, and the request pends on the capable route. */
  lemma ApiTurns(x: Site, d: Driver, request: Request)
    requires Invoked(x, d, request) && request.route == API_ROUTE
    requires request.stage == Review || !HasExecutor(d.s.records[x.id].handoffs, "author")
    ensures var e, run := Go(x, d), d.s.records[x.id];
            var again := Rerouted(run, request, Taker(request), Some(Unusable(request, run.task)));
            && e == d.(calls := d.calls + 1, mode := Advance, s := Put(d.s, Save(FallenBack(run, request))))
            && Pends(e.s, x.id, x.owner, x.path, again)
  {
    var run := d.s.records[x.id];
    var plan := FallbackPlan(d.s, x.id, x.owner, request, Unusable(request, run.task), Taker(request));
    FallsBack(d.s, x.id, x.owner, x.path, request);
    InvokedAnswers(x, d, request);
    ApiRespond(d, x.id, x.owner, Unusable(request, run.task), Taker(request), plan);
    Concludes(d.(calls := d.calls + 1), d.s, plan, FallenBack(run, request));
  }

  /** What pends is invoked, unless it is a repair. */
  lemma PendingTurns(x: Site, d: Driver, request: Request)
    requires d.mode.Advance? && Pends(d.s, x.id, x.owner, x.path, request) && !request.repair
    ensures Go(x, d) == d.(mode := Invoking(request)) && Invoked(x, Go(x, d), request)
  {
    PendsAgain(d.s, x.id, x.owner, x.path, request);
    NativeGoes(x, d, request);
  }

  lemma ReplyGoes(x: Site, d: Driver, request: Request, response: Response, now: Run)
    requires d.mode == Invoking(request) && Toils(d, x.id, x.path) == Reply(response, response.source)
    requires !ReplyRefused(d, request, response, response.source) && now.status == Active
    requires SubmitPlan(d.s.(files := response.source), x.id, x.owner, response).outcome == Outcome.Done(now)
    ensures var t := d.s.(files := response.source);
            Go(x, d) == d.(calls := d.calls + 1, mode := Advance,
                           s := Resulting(t, SubmitPlan(t, x.id, x.owner, response)))
  {
    var t := d.s.(files := response.source);
    assert response.(source := response.source) == response;
    ReplyRespond(d, x.id, x.owner, response, response.source, SubmitPlan(t, x.id, x.owner, response));
    Concludes(d.(calls := d.calls + 1), t, SubmitPlan(t, x.id, x.owner, response), now);
  }

  /** The native review refuses: one call. */
  lemma RefusalTurns(x: Site, d: Driver, request: Request)
    requires Invoked(x, d, request) && request.stage == Review && request.route == REPAIR_ROUTE
    requires Stands(d.s.records[x.id], d.s.files)
    ensures var e, response := Go(x, d), Refuses(request, d.s.files);
            && e.mode.Advance? && e.repairs == d.repairs && e.calls == d.calls + 1 && e.mutations == d.mutations
            && Working(e.s, x.id, x.owner, x.path) && e.s.records[x.id].route == d.s.records[x.id].route
            && SettledAs(e.s.records[x.id], StageResult(request, response, false, []))
  {
    var response := Refuses(request, d.s.files);
    ReviewRefuses(d.s, x.id, x.owner, x.path, request);
    assert Toils(d, x.id, x.path) == Reply(response, d.s.files) && d.s.(files := d.s.files) == d.s;
    ReplyGoes(x, d, request, response, Submitted(d.s.records[x.id], d.s.files, response));
  }

  lemma RepairIsNext(run: Run, source: Tree, valid: set<string>, refused: StageResult)
    requires Bookkept(run.workflow) && SettledAs(run, refused) && !refused.accepted
    ensures NextDirect(run, source, valid) == NextImplementation(run, source)
    ensures var request := NextImplementation(run, source).action.request;
            && request.stage == Implementation && request.repair && request.route == run.route
            && (|run.handoffs| > 0 ==> ByLastHandoff(run, request))
  {
    PendingIsTheNewest(run.workflow);
  }

  /** A repair within the limit is taken up at once, for the run is on the capable route. */
  lemma RepairTurns(x: Site, d: Driver, refused: StageResult)
    requires d.mode.Advance? && Working(d.s, x.id, x.owner, x.path) && d.s.records[x.id].route == REPAIR_ROUTE
    requires SettledAs(d.s.records[x.id], refused) && !refused.accepted && d.repairs < x.limit
    ensures var e := Go(x, d);
            && e.mode.Invoking? && Invoked(x, e, e.mode.request) && e.repairs == d.repairs + 1 && e.calls == d.calls
            && e.mutations == d.mutations && ByLastHandoff(e.s.records[x.id], e.mode.request)
            && e.mode.request.route == REPAIR_ROUTE && e.s.records[x.id].route == REPAIR_ROUTE
  {
    var run := d.s.records[x.id];
    var valid := Valid(d.s, run, d.s.files);
    RecordReady(d.s, x.id);
    RepairIsNext(run, d.s.files, valid, refused);
    var decided := NextDirect(run, d.s.files, valid);
    AsksNative(d.s, x.id, x.owner, x.path, decided);
    NativeGoes(x, d, decided.action.request);
  }

  /** The native implementation is accepted for the path it wrote: one call. */
  lemma ImplementationTurns(x: Site, d: Driver, request: Request)
    requires Invoked(x, d, request) && request.route == REPAIR_ROUTE && ByLastHandoff(d.s.records[x.id], request)
    requires d.s.records[x.id].route == REPAIR_ROUTE
    ensures var e := Go(x, d);
            AtRound(x, e) && e.repairs == d.repairs && e.calls == d.calls + 1 && e.mutations == d.mutations
  {
    var t, run := Rewritten(d.s, x.path), d.s.records[x.id];
    var response := Implements(request, request.executor.value, t.files);
    ImplementationAccepted(d.s, x.id, x.owner, x.path, request);
    ToilsOnImplementation(x, d, request, t, response);
    ReplyGoes(x, d, request, response, Submitted(run, t.files, response));
    DueOnceAccepted(t, x, run, response, StageResult(request, response, true, []));
  }

  lemma ToilsOnImplementation(x: Site, d: Driver, request: Request, t: State, response: Response)
    requires d.mode == Invoking(request) && x.id in d.s.records && request.route == REPAIR_ROUTE
    requires request.stage == Implementation && request.executor.Some? && t == Rewritten(d.s, x.path)
    requires response == Implements(request, request.executor.value, t.files)
    ensures Toils(d, x.id, x.path) == Reply(response, response.source)
    ensures d.s.(files := response.source) == t && !ReplyRefused(d, request, response, response.source)
  {
  }

  lemma DueOnceAccepted(t: State, x: Site, run: Run, response: Response, result: StageResult)
    requires run.task.id == x.id && run.route == REPAIR_ROUTE && result.request.stage == Implementation
    requires var now := Submitted(run, t.files, response);
             && Working(Put(t, Save(now)), x.id, x.owner, x.path) && SettledAs(now, result) && Attested(now, t.files)
    ensures Due(Put(t, Save(Submitted(run, t.files, response))), x.id, x.owner, x.path)
  {
  }

  /** A review of the checked source: both of its calls, the second a refusal. */
  lemma ReviewCosts(x: Site, start: Driver, d: Driver, repairs: nat, calls: nat)
    returns (e: Driver, refused: StageResult)
    requires Reaches(x, start, d) && AtRound(x, d) && Counted(d, repairs, calls) && Missing(x, d).None?
    ensures Reaches(x, start, e) && Counted(e, repairs, calls + 2) && e.mode.Advance?
    ensures Working(e.s, x.id, x.owner, x.path) && e.s.records[x.id].route == REPAIR_ROUTE
    ensures SettledAs(e.s.records[x.id], refused) && !refused.accepted
  {
    var asked := Go(x, d);
    ReviewTurns(x, d);
    ReachesNext(x, start, d);
    var fallen, run, request := Go(x, asked), asked.s.records[x.id], asked.mode.request;
    ApiTurns(x, asked, request);
    ReachesNext(x, start, asked);
    var again := Rerouted(run, request, Taker(request), Some(Unusable(request, run.task)));
    PendingTurns(x, fallen, again);
    ReachesNext(x, start, fallen);
    RefusalTurns(x, Go(x, fallen), again);
    ReachesNext(x, start, Go(x, fallen));
    e, refused := Go(x, Go(x, fallen)), StageResult(again, Refuses(again, fallen.s.files), false, []);
  }

  /** One repair: two calls for the review that refuses, one for the repair. */
  lemma RoundCosts(x: Site, start: Driver, d: Driver, repairs: nat, calls: nat) returns (e: Driver)
    requires Reaches(x, start, d) && AtRound(x, d) && Counted(d, repairs, calls) && repairs < x.limit
    ensures Reaches(x, start, e) && AtRound(x, e) && Counted(e, repairs + 1, calls + 3)
  {
    var checked := ChecksPass(x, start, d, repairs, calls);
    var settled, refused := ReviewCosts(x, start, checked, repairs, calls);
    RepairTurns(x, settled, refused);
    ReachesNext(x, start, settled);
    var repairing := Go(x, settled);
    ImplementationTurns(x, repairing, repairing.mode.request);
    ReachesNext(x, start, repairing);
    e := Go(x, repairing);
  }

  lemma {:induction false} RoundsCost(x: Site, start: Driver, d: Driver, calls: nat, rounds: nat) returns (e: Driver)
    requires Reaches(x, start, d) && AtRound(x, d) && Counted(d, 0, calls) && rounds <= x.limit
    ensures Reaches(x, start, e) && AtRound(x, e) && Counted(e, rounds, calls + 3 * rounds)
  {
    e := d;
    if rounds > 0 {
      var before := RoundsCost(x, start, d, calls, rounds - 1);
      e := RoundCosts(x, start, before, rounds - 1, calls + 3 * (rounds - 1));
    }
  }

  // ----- From the first request on -----

  /** Bound on the API and not yet asked for anything. */
  ghost predicate Untouched(s: State, id: string, owner: string, path: Path) {
    && Working(s, id, owner, path)
    && var run := s.records[id];
       run.workflow == Workflow([], [], []) && run.route == API_ROUTE && !HasExecutor(run.handoffs, "author")
  }

  lemma ImplementationIsNext(run: Run, source: Tree, valid: set<string>)
    requires run.workflow == Workflow([], [], [])
    ensures NextDirect(run, source, valid) == NextImplementation(run, source)
    ensures var request := NextImplementation(run, source).action.request;
            request.stage == Implementation && !request.repair && request.route == run.route
  {
  }

  /** The first implementation: a call on the API and a native one. */
  lemma FirstCosts(x: Site, start: Driver) returns (e: Driver)
    requires start.mode.Advance? && Untouched(start.s, x.id, x.owner, x.path) && Counted(start, 0, start.calls)
    ensures Reaches(x, start, e) && AtRound(x, e) && Counted(e, 0, start.calls + 2)
  {
    ReachesItself(x, start);
    var run := start.s.records[x.id];
    var valid := Valid(start.s, run, start.s.files);
    ImplementationIsNext(run, start.s.files, valid);
    AsksNative(start.s, x.id, x.owner, x.path, NextDirect(run, start.s.files, valid));
    var asked := Go(x, start);
    ReachesNext(x, start, start);
    var request, now := asked.mode.request, asked.s.records[x.id];
    ApiTurns(x, asked, request);
    ReachesNext(x, start, asked);
    var fallen := Go(x, asked);
    var again := Rerouted(now, request, Taker(request), Some(Unusable(request, now.task)));
    PendingTurns(x, fallen, again);
    ReachesNext(x, start, fallen);
    ImplementationTurns(x, Go(x, fallen), again);
    ReachesNext(x, start, Go(x, fallen));
    e := Go(x, Go(x, fallen));
  }

  /** The loop makes exactly this many calls, without a check that changes the source. */
  ghost predicate Attains(x: Site, d: Driver, calls: nat) {
    exists e :: Reaches(x, d, e) && e.calls == calls && e.mutations == 0
  }

  /** The bound is attained for every limit: planning refused once, every API call failing and every review
      refusing make exactly 3 * limit + 6 calls, with no check that changes the source. */
  lemma BoundIsAttained(s: State, x: Site)
    requires Untouched(s, x.id, x.owner, x.path)
    ensures Attains(x, Begun(s, true), 3 * x.limit + 6)
  {
    var start := Begun(s, true);
    var first := FirstCosts(x, start);
    var last := RoundsCost(x, start, first, 4, x.limit);
    var checked := ChecksPass(x, start, last, x.limit, 4 + 3 * x.limit);
    var e, refused := ReviewCosts(x, start, checked, x.limit, 4 + 3 * x.limit);
  }
}
