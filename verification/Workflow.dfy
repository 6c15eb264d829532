/** The pure decisions of a delivery: what is ready, and the one next transition. */
module Workflows {
  import opened Basics
  import opened Integration
  import opened Records

  // ----- The last and the first element with a property -----

  function LastWhere<T>(s: seq<T>, p: T -> bool): (found: Option<T>)
    ensures found.Some? ==> found.value in s && p(found.value)
    ensures found.None? ==> forall x | x in s :: !p(x)
  {
    if s == [] then None
    else if p(s[|s| - 1]) then Some(s[|s| - 1])
    else LastWhere(s[..|s| - 1], p)
  }

  function FirstWhere<T>(s: seq<T>, p: T -> bool): (found: Option<T>)
    ensures found.Some? ==> found.value in s && p(found.value)
    ensures found.None? ==> forall x | x in s :: !p(x)
  {
    if s == [] then None
    else if p(s[0]) then Some(s[0])
    else FirstWhere(s[1..], p)
  }

  // ----- Requests and results -----

  predicate Answered(w: Workflow, request: Request) {
    exists i | 0 <= i < |w.results| :: w.results[i].request == request
  }

  /** Neither answered nor invalidated. */
  predicate Open(w: Workflow, request: Request) {
    request !in w.invalidated && !Answered(w, request)
  }

  function Pending(w: Workflow): Option<Request> {
    FirstWhere(w.requests, request => Open(w, request))
  }

  predicate NothingPending(w: Workflow) {
    forall i | 0 <= i < |w.requests| :: !Open(w, w.requests[i])
  }

  predicate IsTransport(result: StageResult) {
    result.response.outcome.Unavailable? || result.response.outcome.Cancelled?
  }

  predicate IsImplementation(result: StageResult) {
    result.request.stage == Implementation && !IsTransport(result)
  }

  function LastImplementation(results: seq<StageResult>): Option<StageResult> {
    LastWhere(results, result => IsImplementation(result))
  }

  function LastSettled(results: seq<StageResult>): Option<StageResult> {
    LastWhere(results, result => !IsTransport(result))
  }

  // ----- Checks -----

  function LatestCheck(checks: seq<Check>, id: string): Option<Check> {
    LastWhere(checks, (check: Check) => check.spec.id == id)
  }

  function LatestStart(events: seq<Event>, id: string): Option<Event> {
    LastWhere(events, (event: Event) => event.CheckStart? && event.id == id)
  }

  function CheckDigest(run: Run, id: string): Digest {
    var latest := LatestCheck(run.checks, id);
    if latest.Some? then OfCheck(latest.value) else OfMissingCheck
  }

  /** The latest result of each declared check, in declaration order. */
  function CheckDigests(run: Run): (digests: seq<Digest>)
    ensures |digests| == |run.task.checks|
  {
    seq(|run.task.checks|, i requires 0 <= i < |run.task.checks| => CheckDigest(run, run.task.checks[i].id))
  }

  function Starts(events: seq<Event>): seq<Event> {
    if events == [] then []
    else
      var front, last := events[..|events| - 1], events[|events| - 1];
      Starts(front) + (if last.CheckStart? then [last] else [])
  }

  function EvidenceOf(run: Run): StageEvidence {
    StageEvidence(run.workflow.results, CheckDigests(run), Starts(run.events))
  }

  /** The latest result of a check counts for a source: it passed there, no later start is unfinished, and
      neither its environment nor its logs have changed. */
  predicate CheckValid(run: Run, id: string, source: Tree, environment: string, logs: map<Log, string>) {
    var latest := LatestCheck(run.checks, id);
    && latest.Some? && latest.value.passed
    && LatestStart(run.events, id) == Some(CheckStart(id, latest.value.attempt))
    && latest.value.sourceBefore == source && latest.value.sourceAfter == Some(source)
    && latest.value.environment == environment
    && LogsIntact(run.task.id, latest.value, logs)
  }

  predicate LogsIntact(run: string, check: Check, logs: map<Log, string>) {
    && LogOf(run, check, Stdout) in logs && logs[LogOf(run, check, Stdout)] == check.stdout
    && LogOf(run, check, Stderr) in logs && logs[LogOf(run, check, Stderr)] == check.stderr
  }

  function ValidChecks(run: Run, source: Tree, environment: string, logs: map<Log, string>): set<string> {
    set i | 0 <= i < |run.task.checks| && CheckValid(run, run.task.checks[i].id, source, environment, logs)
      :: run.task.checks[i].id
  }

  /** `parseDeliveryTask`: check ids are distinct. */
  predicate DistinctChecks(task: Task) {
    forall i, j | 0 <= i < j < |task.checks| :: task.checks[i].id != task.checks[j].id
  }

  // ----- Routes -----

  const ORDINARY_ROUTE := Route(Codex, "gpt-6.1-sol", "high")
  const API_ROUTE := Route(OpenRouter, "deepseek/deepseek-v4.1-flash", "high")
  const REPAIR_ROUTE := Route(ClaudeCode, "cc/claude-opus-5-5[1m]", "high")

  function SelectRoute(task: Task): Route {
    if task.requested.Some? then task.requested.value
    else if task.host == OpenRouter then API_ROUTE
    else if task.host == ClaudeCode then
      Route(ClaudeCode, "cc/claude-sonnet-5-5[1m]", if task.demanding then "high" else "medium")
    else ORDINARY_ROUTE
  }

  function ReviewRoute(task: Task): Route {
    if task.reviewer.Some? then task.reviewer.value else SelectRoute(task.(demanding := false, requested := None))
  }

  // ----- Readiness -----

  function ReviewPrerequisites(run: Run, implementation: StageResult): seq<Digest> {
    [OfResult(implementation)] + CheckDigests(run)
  }

  /** A run authored here: accepted implementation and accepted review of exactly this source and evidence. */
  predicate DirectReady(run: Run, source: Tree) {
    var w := run.workflow;
    var implementation := LastImplementation(w.results);
    && implementation.Some? && implementation.value.accepted && implementation.value.response.source == source
    && |w.results| > 0
    && var review := w.results[|w.results| - 1];
       && review.accepted && review.request.stage == Review && review.response.source == source
       && review.request !in w.invalidated && NothingPending(w)
       && review.request.prerequisites == ReviewPrerequisites(run, implementation.value)
  }

  /** Inputs outside the scope that changed between the candidate's source and the merged one. */
  function ReviewPaths(run: Run): set<Path> {
    if run.integration.None? then {}
    else
      var e := run.integration.value;
      if e.revalidation.None? && !(exists i | 0 <= i < |run.task.checks| :: run.task.checks[i].tool == "cargo") then {}
      else set path | path in e.candidateSource.Keys + e.sourceAfter.Keys
                    && path !in run.task.scope && Get(e.candidateSource, path) != Get(e.sourceAfter, path)
  }

  predicate ReviewNeeded(run: Run)
    requires run.integration.Some?
  {
    run.integration.value.revalidation.Some? || ReviewPaths(run) != {}
  }

  function IntegrationPrerequisites(run: Run): seq<Digest>
    requires run.integration.Some?
  {
    [OfRun(run.integration.value.original)] + CheckDigests(run)
  }

  /** Nothing of the candidate's workflow is rewritten; only reviews are appended, and none when none is needed. */
  predicate WorkflowIntact(run: Run)
    requires run.integration.Some?
  {
    var original, current := run.integration.value.original.workflow, run.workflow;
    if !ReviewNeeded(run) then current == original
    else
      && original.requests <= current.requests && original.results <= current.results
      && original.invalidated <= current.invalidated
      && (forall i | |original.requests| <= i < |current.requests| :: current.requests[i].stage == Review)
      && (forall i | |original.results| <= i < |current.results| :: current.results[i].request.stage == Review)
  }

  predicate HasExecutor(handoffs: seq<Handoff>, executor: string) {
    exists i | 0 <= i < |handoffs| :: handoffs[i].executor == executor
  }

  predicate AnsweredBy(results: seq<StageResult>, executor: string) {
    exists i | 0 <= i < |results| :: results[i].response.native.executor == executor
  }

  predicate IntegrationReviewReady(run: Run, source: Tree)
    requires run.integration.Some?
  {
    var w, original := run.workflow, run.integration.value.original.workflow;
    && |original.results| < |w.results|
    && var review := w.results[|w.results| - 1];
       && review.accepted && review.request.stage == Review
       && review.request.source == source && review.response.source == source
       && !HasExecutor(run.handoffs, review.response.native.executor)
       && !AnsweredBy(original.results, review.response.native.executor)
       && review.request !in w.invalidated && NothingPending(w)
       && review.request.prerequisites == IntegrationPrerequisites(run)
  }

  predicate IntegrationSourceReady(run: Run, source: Tree)
    requires run.integration.Some?
  {
    var e := run.integration.value;
    && e.prepared && source == e.sourceAfter
    && (e.revalidation.Some? ==>
          e.revalidation.value.commit == run.baseCommit && e.revalidation.value.source == e.sourceBefore)
    && e.original == e.candidateDigest && e.original.integration.None?
    && run.task == e.original.task && WorkflowIntact(run) && run.handoffs == e.original.handoffs
    && DirectReady(e.original, e.candidateSource)
  }

  predicate WorkflowReady(run: Run, source: Tree) {
    if run.integration.Some? then
      IntegrationSourceReady(run, source) && (ReviewNeeded(run) ==> IntegrationReviewReady(run, source))
    else DirectReady(run, source)
  }

  // ----- The next transition -----

  datatype PauseReason = IntegrationCheckFailed | IntegrationReviewFailed | OperatorPaused
  datatype Action =
    | Native(request: Request)
    | RunCheck(id: string)
    | ReadyToCommit(source: Tree)
    | Stopped(reason: PauseReason)

  datatype Decision = Decided(run: Run, action: Action) | SourceMismatch

  function WithWorkflow(run: Run, w: Workflow): Run {
    run.(workflow := w)
  }

  function Invalidate(w: Workflow, request: Request): Workflow {
    w.(invalidated := w.invalidated + [request])
  }

  function Append(w: Workflow, request: Request): Workflow {
    w.(requests := w.requests + [request])
  }

  function Answer(w: Workflow, result: StageResult): Workflow {
    w.(results := w.results + [result])
  }

  function DropPending(run: Run): Run {
    var pending := Pending(run.workflow);
    if pending.Some? then WithWorkflow(run, Invalidate(run.workflow, pending.value)) else run
  }

  /** A new request for this source and the evidence gathered so far. */
  function NewRequest(run: Run, source: Tree, stage: Stage, repair: bool, prerequisites: seq<Digest>,
                      feedback: seq<Feedback>): Request {
    Request(run.task.id, run.baseCommit, stage, |run.workflow.requests| + 1, source, EvidenceOf(run), repair,
            if stage == Implementation then run.route else ReviewRoute(run.task),
            if stage == Implementation && |run.handoffs| > 0 then Some(run.handoffs[|run.handoffs| - 1].executor)
               else None,
            prerequisites, run.task.scope, feedback, None)
  }

  function Ask(run: Run, source: Tree, stage: Stage, repair: bool, prerequisites: seq<Digest>,
               feedback: seq<Feedback>): (asked: Decision)
    ensures asked.Decided? && asked.action.Native?
    ensures var request := asked.action.request;
            && request.stage == stage && request.source == source && request.repair == repair
            && request.prerequisites == prerequisites && request.feedback == feedback
            && asked.run == WithWorkflow(run, Append(run.workflow, request))
  {
    var request := NewRequest(run, source, stage, repair, prerequisites, feedback);
    Decided(WithWorkflow(run, Append(run.workflow, request)), Native(request))
  }

  function FirstMissing(task: Task, valid: set<string>): Option<CheckSpec> {
    FirstWhere(task.checks, (check: CheckSpec) => check.id !in valid)
  }

  /** The latest result of a check failed at this very source. */
  predicate FailedAt(run: Run, id: string, source: Tree) {
    var latest := LatestCheck(run.checks, id);
    latest.Some? && !latest.value.passed && latest.value.sourceBefore == source
  }

  predicate PendingIsCurrent(run: Run, request: Request, source: Tree, valid: set<string>) {
    && request.source == source && request.evidence == EvidenceOf(run)
    && (request.stage == Implementation ||
        (|valid| == |run.task.checks| &&
         var implementation := LastImplementation(run.workflow.results);
         implementation.Some? && request.prerequisites == ReviewPrerequisites(run, implementation.value)))
  }

  /** The implementation is attested for this source: checks in order, then review. */
  function NextAttested(run: Run, source: Tree, valid: set<string>, implementation: StageResult): Decision {
    var now, missing := DropPending(run), FirstMissing(run.task, valid);
    if missing.Some? && FailedAt(run, missing.value.id, source) then
      var check := LatestCheck(run.checks, missing.value.id).value;
      Ask(now, source, Implementation, true, [OfCheck(check)], [CheckFailed(check)])
    else if missing.Some? then Decided(now, RunCheck(missing.value.id))
    else if DirectReady(now, source) then Decided(now, ReadyToCommit(source))
    else Ask(now, source, Review, false, ReviewPrerequisites(run, implementation), [])
  }

  /** The implementation is missing, refused, or was for another source. */
  function NextImplementation(run: Run, source: Tree): Decision {
    var implementation, last := LastImplementation(run.workflow.results), LastSettled(run.workflow.results);
    var refused := last.Some? && !last.value.accepted;
    var moved := implementation.Some? && implementation.value.accepted
      && implementation.value.response.source != source;
    Ask(DropPending(run), source, Implementation, refused,
        (if refused then [OfResult(last.value)] else []) + (if moved then [OfResult(implementation.value)] else []),
        (if refused then [Rejected(last.value)] else []) + (if moved then [SourceChanged] else []))
  }

  function NextDirect(run: Run, source: Tree, valid: set<string>): Decision {
    var pending := Pending(run.workflow);
    var implementation, last := LastImplementation(run.workflow.results), LastSettled(run.workflow.results);
    if pending.Some? && PendingIsCurrent(run, pending.value, source, valid) then Decided(run, Native(pending.value))
    else if implementation.Some? && implementation.value.accepted && implementation.value.response.source == source
            && last.Some? && last.value.accepted then NextAttested(run, source, valid, implementation.value)
    else NextImplementation(run, source)
  }

  /** Revalidate preserved bytes: checks, then at most one review; nothing is authored again. */
  function NextIntegrated(run: Run, source: Tree, valid: set<string>): Decision
    requires run.integration.Some?
  {
    if !IntegrationSourceReady(run, source) then SourceMismatch
    else
      var missing, w := FirstMissing(run.task, valid), run.workflow;
      var pending, e := Pending(w), run.integration.value;
      if missing.Some? && FailedAt(run, missing.value.id, source) then Decided(run, Stopped(IntegrationCheckFailed))
      else if missing.Some? then Decided(run, RunCheck(missing.value.id))
      else if !ReviewNeeded(run) || IntegrationReviewReady(run, source) then Decided(run, ReadyToCommit(source))
      else if pending.Some? && pending.value.source == source && pending.value.evidence == EvidenceOf(run)
              && pending.value.prerequisites == IntegrationPrerequisites(run) then Decided(run, Native(pending.value))
      else
        var now := DropPending(run);
        if |e.original.workflow.results| < |w.results| && !w.results[|w.results| - 1].accepted
        then Decided(now, Stopped(IntegrationReviewFailed))
        else Ask(now, source, Review, false, IntegrationPrerequisites(run),
                 [Revalidate(e.revalidation.Some?, ReviewPaths(run))])
  }

  function NextAction(run: Run, source: Tree, valid: set<string>): Decision {
    if run.integration.Some? then NextIntegrated(run, source, valid) else NextDirect(run, source, valid)
  }
}
